/** The replay loop shared by the echo and legato handlers: emit the head of
    the queue while its time lies in `[framesAtStart, lastFrame)`, where
    `lastFrame = framesAtStart + nframes` in 32-bit arithmetic. */
module Drain {
  import opened Midi
  import opened MidiEvents

  predicate InWindow(t: Frame, framesAtStart: Frame, lastFrame: Frame) {
    framesAtStart <= t < lastFrame
  }

  /** Number of leading events of `q` that the loop emits. */
  function Ready(q: seq<MidiEvent>, framesAtStart: Frame, lastFrame: Frame): (k: nat)
    ensures k <= |q|
    ensures forall i :: 0 <= i < k ==> InWindow(q[i].time, framesAtStart, lastFrame)
    ensures k < |q| ==> !InWindow(q[k].time, framesAtStart, lastFrame)
    decreases |q|
  {
    if q != [] && InWindow(q[0].time, framesAtStart, lastFrame) then
      1 + Ready(q[1..], framesAtStart, lastFrame)
    else 0
  }

  /** The written form of a drained event: its offset from the block start. */
  function Emit(q: seq<MidiEvent>, framesAtStart: Frame): (w: seq<Written>)
    requires forall i :: 0 <= i < |q| ==> framesAtStart <= q[i].time
    ensures |w| == |q|
    ensures forall i :: 0 <= i < |q| ==> w[i] == Written(q[i].time - framesAtStart, q[i].data)
  {
    seq(|q|, i requires 0 <= i < |q| => Written(q[i].time - framesAtStart, q[i].data))
  }

  /** A time inside the window of a block is less than `nframes` frames from
      its start, also when `framesAtStart + nframes` wraps around 2^32. */
  lemma WindowOffset(t: Frame, framesAtStart: Frame, nframes: Frame)
    ensures InWindow(t, framesAtStart, Wrap(framesAtStart + nframes)) ==> t - framesAtStart < nframes
  {
    if framesAtStart + nframes >= FRAMES {
      assert Wrap(framesAtStart + nframes) == framesAtStart + nframes - FRAMES;
    }
  }

  /** The drain loop: returns the events written and what stays queued. */
  method DrainWindow(q: seq<MidiEvent>, framesAtStart: Frame, nframes: Frame)
    returns (out: seq<Written>, rest: seq<MidiEvent>)
    ensures var k := Ready(q, framesAtStart, Wrap(framesAtStart + nframes));
      && rest == q[k..]
      && out == Emit(q[..k], framesAtStart)
    ensures forall i :: 0 <= i < |out| ==> out[i].offset < nframes
  {
    var lastFrame := Wrap(framesAtStart + nframes);
    out, rest := [], q;
    ghost var done := 0;
    while rest != [] && framesAtStart <= rest[0].time < lastFrame
      invariant 0 <= done <= Ready(q, framesAtStart, lastFrame)
      invariant rest == q[done..]
      invariant out == Emit(q[..done], framesAtStart)
      invariant forall i :: 0 <= i < |out| ==> out[i].offset < nframes
      decreases |rest|
    {
      WindowOffset(rest[0].time, framesAtStart, nframes);
      out := out + [Written(rest[0].time - framesAtStart, rest[0].data)];
      rest := rest[1..];
      done := done + 1;
    }
  }

  /** When `framesAtStart + nframes` passes 2^32 the window is empty: no
      event is written in that block, and a queued event stamped at or after
      `framesAtStart` stays at the head of the queue in the next blocks, whose
      windows start near 0. */
  lemma WrappedBlockDrainsNothing(q: seq<MidiEvent>, framesAtStart: Frame, nframes: Frame)
    requires framesAtStart + nframes >= FRAMES
    ensures Ready(q, framesAtStart, Wrap(framesAtStart + nframes)) == 0
  {
    assert Wrap(framesAtStart + nframes) == framesAtStart + nframes - FRAMES < framesAtStart;
  }
}
