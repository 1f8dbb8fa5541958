/** The generic IIR filter of Filter.h: the last 2^N inputs and outputs kept
    in ring buffers indexed by a masked position, feed-forward coefficients
    `b` and feedback coefficients `a` normalised so that `a[0]` is 0.
    Samples (`Real_t`) are modelled as `real`: the properties are about
    positions, coefficients and the recurrence, not rounding. */
module IirFilter {
  import opened Results

  function Pow2(n: nat): (r: nat)
    ensures r >= 1
  {
    if n == 0 then 1 else 2 * Pow2(n - 1)
  }

  /** `p & ((1 << N) - 1)`: for a power-of-two size, the two's-complement
      mask is the non-negative remainder, also for negative `p`. */
  function Mask(p: int, size: nat): (k: nat)
    requires size > 0
    ensures k < size
  {
    p % size
  }

  /** Two positions less than `size` apart use different slots. */
  lemma SlotsDiffer(p: int, q: int, size: nat)
    requires size > 0 && p < q < p + size
    ensures Mask(p, size) != Mask(q, size)
  {
    var kp, kq := p / size, q / size;
    assert p == kp * size + Mask(p, size);
    assert q == kq * size + Mask(q, size);
    assert (kq - kp) * size == kq * size - kp * size;
    MultipleBound(kq - kp, size);
  }

  lemma MultipleBound(k: int, n: nat)
    ensures k > 0 ==> k * n >= n
    ensures k <= 0 ==> k * n <= 0
  {
  }

  /** `Σ_{lo ≤ i < hi} c[i] · h[(p - i) & mask]`, accumulated in increasing `i`. */
  function Dot(h: seq<real>, c: seq<real>, p: int, lo: nat, hi: nat): real
    requires |h| > 0 && lo <= hi <= |c|
    decreases hi - lo
  {
    if lo == hi then 0.0 else Dot(h, c, p, lo, hi - 1) + h[Mask(p - (hi - 1), |h|)] * c[hi - 1]
  }

  /** A coefficient 0 adds nothing: the first term can be dropped. */
  lemma {:induction false} DropFirstTerm(h: seq<real>, c: seq<real>, p: int, hi: nat)
    requires |h| > 0 && 1 <= hi <= |c| && c[0] == 0.0
    ensures Dot(h, c, p, 0, hi) == Dot(h, c, p, 1, hi)
    decreases hi
  {
    if hi > 1 {
      DropFirstTerm(h, c, p, hi - 1);
    }
  }

  /** Two histories hold the same value `i` positions back from `p`. */
  predicate AgreeAt(h: seq<real>, h': seq<real>, p: int, i: int)
    requires |h| == |h'| > 0
  {
    h[Mask(p - i, |h|)] == h'[Mask(p - i, |h|)]
  }

  /** The sum reads only the slots of `p - lo` down to `p - hi + 1`. */
  lemma {:induction false} DotReadsWindow(h: seq<real>, h': seq<real>, c: seq<real>, p: int, lo: nat, hi: nat)
    requires |h| == |h'| > 0 && lo <= hi <= |c|
    requires forall i :: lo <= i < hi ==> AgreeAt(h, h', p, i)
    ensures Dot(h, c, p, lo, hi) == Dot(h', c, p, lo, hi)
    decreases hi - lo
  {
    if lo < hi {
      assert AgreeAt(h, h', p, hi - 1);
      DotReadsWindow(h, h', c, p, lo, hi - 1);
    }
  }

  /** One sample of `process`: the input goes to the slot of `p`, then the
      output `Σ b_i x[p-i] - Σ a_i y[p-i]` goes to the same slot of `y`. */
  function Step(xs: seq<real>, ys: seq<real>, p: int, v: real, b: seq<real>, a: seq<real>, s: nat)
    : (r: (seq<real>, seq<real>))
    requires |xs| == |ys| > 0 && s <= |b| && s <= |a|
    ensures |r.0| == |xs| && |r.1| == |ys|
  {
    var xs' := xs[Mask(p, |xs|) := v];
    var out := Dot(xs', b, p, 0, s) - Dot(ys, a, p, 0, s);
    (xs', ys[Mask(p, |ys|) := out])
  }

  /** The stored output obeys the filter's difference equation over the
      buffers as they are after the step, and nothing else changes. */
  lemma StepRecurrence(xs: seq<real>, ys: seq<real>, p: int, v: real, b: seq<real>, a: seq<real>, s: nat)
    requires |xs| == |ys| > 0 && 1 <= s <= |xs| && s <= |b| && s <= |a| && a[0] == 0.0
    ensures var r := Step(xs, ys, p, v, b, a, s);
      && r.0[Mask(p, |xs|)] == v
      && r.1[Mask(p, |ys|)] == Dot(r.0, b, p, 0, s) - Dot(r.1, a, p, 1, s)
      && (forall k :: 0 <= k < |xs| && k != Mask(p, |xs|) ==> r.0[k] == xs[k] && r.1[k] == ys[k])
  {
    var r := Step(xs, ys, p, v, b, a, s);
    DropFirstTerm(ys, a, p, s);
    forall i | 1 <= i < s ensures AgreeAt(ys, r.1, p, i) {
      SlotsDiffer(p - i, p, |ys|);
    }
    DotReadsWindow(ys, r.1, a, p, 1, s);
  }

  /** With the coefficients of a default-constructed filter (one term,
      `b[0] = 1`, `a[0] = 0`) each stored output equals its input. */
  lemma IdentityStep(xs: seq<real>, ys: seq<real>, p: int, v: real, b: seq<real>, a: seq<real>)
    requires |xs| == |ys| > 0 && 1 <= |b| && 1 <= |a| && b[0] == 1.0 && a[0] == 0.0
    ensures Step(xs, ys, p, v, b, a, 1).1[Mask(p, |ys|)] == v
  {
  }

  /** The buffers after feeding `input` from position `p`. */
  function Run(xs: seq<real>, ys: seq<real>, p: int, input: seq<real>, b: seq<real>, a: seq<real>, s: nat)
    : (r: (seq<real>, seq<real>))
    requires |xs| == |ys| > 0 && s <= |b| && s <= |a|
    ensures |r.0| == |xs| && |r.1| == |ys|
    decreases |input|
  {
    if input == [] then (xs, ys)
    else
      var k := |input| - 1;
      var before := Run(xs, ys, p, input[..k], b, a, s);
      Step(before.0, before.1, p + k, input[k], b, a, s)
  }

  lemma RunStep(xs: seq<real>, ys: seq<real>, p: int, input: seq<real>, b: seq<real>, a: seq<real>, s: nat, i: nat)
    requires |xs| == |ys| > 0 && s <= |b| && s <= |a| && i < |input|
    ensures var before := Run(xs, ys, p, input[..i], b, a, s);
      Run(xs, ys, p, input[..i + 1], b, a, s) == Step(before.0, before.1, p + i, input[i], b, a, s)
  {
    assert input[..i + 1][..i] == input[..i];
  }

  /** A block no longer than the buffers leaves every input it was given in
      the slot of its position. */
  lemma {:induction false} RunKeepsInputs(xs: seq<real>, ys: seq<real>, p: int, input: seq<real>,
                                          b: seq<real>, a: seq<real>, s: nat)
    requires |xs| == |ys| > 0 && s <= |b| && s <= |a| && |input| <= |xs|
    ensures forall i :: 0 <= i < |input| ==> Run(xs, ys, p, input, b, a, s).0[Mask(p + i, |xs|)] == input[i]
    decreases |input|
  {
    if input != [] {
      var k := |input| - 1;
      RunKeepsInputs(xs, ys, p, input[..k], b, a, s);
      var before := Run(xs, ys, p, input[..k], b, a, s);
      var after := Run(xs, ys, p, input, b, a, s);
      assert after.0 == before.0[Mask(p + k, |xs|) := input[k]];
      forall i | 0 <= i < |input|
        ensures after.0[Mask(p + i, |xs|)] == input[i]
      {
        if i < k {
          SlotsDiffer(p + i, p + k, |xs|);
          assert before.0[Mask(p + i, |xs|)] == input[..k][i];
        }
      }
    }
  }

  /** Fill a buffer with zeros (`std::array::fill(0.0)`). */
  method Clear(arr: array<real>)
    modifies arr
    ensures forall i :: 0 <= i < arr.Length ==> arr[i] == 0.0
  {
    for i := 0 to arr.Length
      invariant forall j :: 0 <= j < i ==> arr[j] == 0.0
    {
      arr[i] := 0.0;
    }
  }

  /** `std::copy` of `src` to the front of a buffer. */
  method CopyFront(arr: array<real>, src: seq<real>)
    requires |src| <= arr.Length
    modifies arr
    ensures forall j :: 0 <= j < |src| ==> arr[j] == src[j]
    ensures forall j :: |src| <= j < arr.Length ==> arr[j] == old(arr[j])
  {
    for i := 0 to |src|
      invariant forall j :: 0 <= j < i ==> arr[j] == src[j]
      invariant forall j :: i <= j < arr.Length ==> arr[j] == old(arr[j])
    {
      arr[i] := src[i];
    }
  }

  /** The feedback coefficients installed by `init`: `a[i] / a[0]` for
      `1 <= i < |a|`, 0 at index 0 and past the end of `a`. */
  function Normalised(a: seq<real>, size: nat): (r: seq<real>)
    requires |a| > 0 && (|a| > 1 ==> a[0] != 0.0)
    ensures |r| == size
    ensures size > 0 ==> r[0] == 0.0
  {
    seq(size, i requires 0 <= i < size => if i == 0 then 0.0 else if i < |a| then a[i] / a[0] else 0.0)
  }

  /** `Filter<N>`. */
  class Filter {
    const n: nat
    /** `1 << N`. */
    const size: nat
    /** `m_x`, `m_y`: the input and output histories. */
    const x: array<real>
    const y: array<real>
    /** `m_b`, `m_a`: the coefficients. */
    const b: array<real>
    const a: array<real>
    /** `m_pos`: the next position to write. */
    var pos: int
    /** `m_sizeOfAB`: number of coefficients in use. */
    var sizeOfAB: nat

    ghost predicate Valid()
      reads this, a
    {
      && size == Pow2(n)
      && x.Length == size && y.Length == size && b.Length == size && a.Length == size
      && x != y && x != b && x != a && y != b && y != a && b != a
      && 1 <= sizeOfAB <= size
      && a[0] == 0.0
    }

    /** The constructor: empty histories and the identity filter. */
    constructor (n: nat)
      ensures Valid() && fresh(x) && fresh(y) && fresh(b) && fresh(a)
      ensures pos == 0 && sizeOfAB == 1
      ensures forall i :: 0 <= i < size ==> x[i] == 0.0 && y[i] == 0.0 && a[i] == 0.0
      ensures b[..] == [1.0] + seq(size - 1, _ => 0.0)
    {
      var size := Pow2(n);
      var xs, ys, bs, fs := new real[size], new real[size], new real[size], new real[size];
      Clear(xs);
      Clear(ys);
      Clear(bs);
      Clear(fs);
      bs[0] := 1.0;
      fs[0] := 0.0;
      this.n := n;
      this.size := size;
      x, y, b, a := xs, ys, bs, fs;
      pos := 0;
      sizeOfAB := 1;
      new;
      assert b[..] == [1.0] + seq(size - 1, _ => 0.0);
    }

    /** `init`: new coefficients, or an error (before any change) when a
        list does not fit the buffers or `a` is empty. */
    method Init(bv: seq<real>, av: seq<real>) returns (r: Result<()>)
      requires Valid()
      requires |bv| <= size && 0 < |av| <= size && (|bv| > 1 || |av| > 1) ==> av[0] != 0.0
      modifies this, b, a
      ensures Valid() && pos == old(pos) && unchanged(x, y)
      ensures r.Err? <==> |bv| > size || |av| > size || av == []
      ensures r.Err? ==> r.error == (if av == [] && |bv| <= size && |av| <= size then "IIR a is empty" else "IIR a is too large")
      ensures r.Err? ==> sizeOfAB == old(sizeOfAB) && b[..] == old(b[..]) && a[..] == old(a[..])
      ensures r.Ok? ==> && sizeOfAB == (if |bv| > |av| then |bv| else |av|)
                        && (forall i :: 0 <= i < size ==> b[i] == if i < |bv| then bv[i] else 0.0)
                        && a[..] == Normalised(av, size)
    {
      if |bv| > b.Length {
        return Err("IIR a is too large");
      }
      if |av| > a.Length {
        return Err("IIR a is too large");
      }
      if |av| == 0 {
        return Err("IIR a is empty");
      }
      Clear(b);
      Clear(a);
      CopyFront(b, bv);
      CopyFront(a, av);
      sizeOfAB := if |bv| > |av| then |bv| else |av|;
      for i := 1 to sizeOfAB
        modifies a
        invariant a[0] == av[0]
        invariant forall j :: 1 <= j < i ==> a[j] == (if j < |av| then av[j] / av[0] else 0.0)
        invariant forall j :: i <= j < size ==> a[j] == (if j < |av| then av[j] else 0.0)
      {
        a[i] := a[i] / a[0];
      }
      a[0] := 0.0;
      assert forall j :: 0 <= j < size ==> a[j] == Normalised(av, size)[j];
      return Ok(());
    }

    /** The inner loop of `process`: both sums over the coefficients in use. */
    method Sums(p: int) returns (sumX: real, sumY: real)
      requires Valid()
      ensures sumX == Dot(x[..], b[..], p, 0, sizeOfAB)
      ensures sumY == Dot(y[..], a[..], p, 0, sizeOfAB)
    {
      sumX, sumY := 0.0, 0.0;
      for i := 0 to sizeOfAB
        invariant sumX == Dot(x[..], b[..], p, 0, i)
        invariant sumY == Dot(y[..], a[..], p, 0, i)
      {
        var k := (p - i) % size;
        sumX := sumX + x[k] * b[i];
        sumY := sumY + y[k] * a[i];
      }
    }

    /** One sample of `process`: the input is stored at the masked
        position, its output computed by the difference equation and stored
        at the same slot of `y`, and the position advances. */
    method Push(v: real)
      requires Valid()
      modifies this, x, y
      ensures Valid() && sizeOfAB == old(sizeOfAB) && unchanged(b, a)
      ensures pos == old(pos) + 1
      ensures (x[..], y[..]) == Step(old(x[..]), old(y[..]), old(pos), v, b[..], a[..], sizeOfAB)
    {
      ghost var xs, ys := x[..], y[..];
      x[pos % size] := v;
      assert x[..] == xs[Mask(pos, size) := v];
      var sumX, sumY := Sums(pos);
      y[pos % size] := sumX - sumY;
      assert y[..] == ys[Mask(pos, size) := sumX - sumY];
      pos := pos + 1;
    }

    /** `process(x, n)`: each input sample goes through `Push`; the
        position advances by the number of samples. */
    method Process(input: seq<real>)
      requires Valid()
      modifies this, x, y
      ensures Valid() && sizeOfAB == old(sizeOfAB) && unchanged(b, a)
      ensures pos == old(pos) + |input|
      ensures (x[..], y[..]) == Run(old(x[..]), old(y[..]), old(pos), input, b[..], a[..], sizeOfAB)
    {
      for i := 0 to |input|
        invariant Valid() && sizeOfAB == old(sizeOfAB) && unchanged(b, a)
        invariant pos == old(pos) + i
        invariant (x[..], y[..]) == Run(old(x[..]), old(y[..]), old(pos), input[..i], b[..], a[..], sizeOfAB)
      {
        RunStep(old(x[..]), old(y[..]), old(pos), input, b[..], a[..], sizeOfAB, i);
        Push(input[i]);
      }
      assert input[..|input|] == input;
    }
  }
}
