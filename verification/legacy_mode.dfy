/** The older, stateless major <-> minor transposer (ModeHandler.cpp). */
module LegacyMode {
  import opened Midi
  import Mode

  //                                0  1  2   3  4  5  6  7   8  9  10 11
  const MajorToMinor: seq<int> := [0, 1, 2, -1, 3, 5, 6, 7, -1, 8, 9, 10]
  const MinorToMajor: seq<int> := [0, 1, 2, 4, -1, 5, 6, 7, 9, 10, 11, -1]

  /** The result and the `ok` out-parameter of `transpose`. */
  datatype Transposed = Transposed(ok: bool, note: Byte)

  /** `transpose(offset, note, ok)`: the same table arithmetic as the newer
      handler without quirk and without a MIDI range check; the result is
      narrowed to a byte. A negative `note + offset` would index the table
      with a negative remainder. */
  function Transpose(offset: int, note: int): (r: Transposed)
    requires note + offset >= 0
    ensures r.ok <==> (note + offset) % 12 != 3 && (note + offset) % 12 != 8
    ensures !r.ok ==> r.note == 0
    ensures r.ok ==> r.note == ToByte(note + Mode.ScaleShift((note + offset) % 12, 0).value)
    ensures r.ok ==> r.note == ToByte(note) || r.note == ToByte(note - 1)
  {
    var noteAdj := note + offset;
    var quot, rem := noteAdj / 12, noteAdj % 12;
    assert MajorToMinor[rem] == Mode.MajorToMinor[rem];
    Mode.TableMatchesShift(rem, 0);
    var x := MajorToMinor[rem];
    if x == -1 then Transposed(false, 0)
    else Transposed(true, ToByte(-offset + quot * 12 + x))
  }

  /** With no range check, note 0 with offset 4 (pitch class E) comes out as
      byte 255, which is not a MIDI note. */
  lemma TransposeLeavesMidiRange()
    ensures Transpose(4, 0) == Transposed(true, 255)
  {
    assert (0 + 4) % 12 == 4 && (0 + 4) / 12 == 0;
  }

  /** One event of `process`: note events are transposed and dropped when
      not `ok`; every other event is forwarded unchanged. */
  function Rewrite(offset: int, e: RawEvent): (r: seq<Written>)
    requires ValidEvent(e) && (Mode.IsNoteEvent(e) ==> e.data[1] + offset >= 0)
    ensures |r| <= 1
    ensures !Mode.IsNoteEvent(e) ==> r == [Written(e.time, e.data)]
    ensures Mode.IsNoteEvent(e) ==> (|r| == 1 <==> Transpose(offset, e.data[1]).ok)
    ensures Mode.IsNoteEvent(e) && |r| == 1 ==>
      && r[0].offset == e.time && |r[0].data| == 3
      && r[0].data[0] == e.data[0] && r[0].data[2] == e.data[2]
      && r[0].data[1] == Transpose(offset, e.data[1]).note
      && (r[0].data[1] == ToByte(e.data[1]) || r[0].data[1] == ToByte(e.data[1] as int - 1))
  {
    if Mode.IsNoteEvent(e) then
      var t := Transpose(offset, e.data[1]);
      if t.ok then [Written(e.time, [e.data[0], t.note, e.data[2]])] else []
    else [Written(e.time, e.data)]
  }

  predicate Rewritable(offset: int, events: seq<RawEvent>) {
    forall i :: 0 <= i < |events| ==>
      ValidEvent(events[i]) && (Mode.IsNoteEvent(events[i]) ==> events[i].data[1] + offset >= 0)
  }

  /** Every event of a block rewritten in order. */
  function RewriteAll(offset: int, events: seq<RawEvent>): (r: seq<Written>)
    requires Rewritable(offset, events)
    ensures |r| <= |events|
    decreases |events|
  {
    if events == [] then []
    else RewriteAll(offset, events[..|events| - 1]) + Rewrite(offset, events[|events| - 1])
  }

  /** There is no memory between events: the rewrite of two blocks back to
      back is the rewrite of each, so a note-off is transposed on its own,
      whatever its note-on became. */
  lemma {:induction false} RewriteAllSplits(offset: int, a: seq<RawEvent>, b: seq<RawEvent>)
    requires Rewritable(offset, a) && Rewritable(offset, b)
    ensures Rewritable(offset, a + b)
    ensures RewriteAll(offset, a + b) == RewriteAll(offset, a) + RewriteAll(offset, b)
    decreases |b|
  {
    assert Rewritable(offset, a + b) by {
      forall i | 0 <= i < |a + b| ensures (a + b)[i] == if i < |a| then a[i] else b[i - |a|] {}
    }
    if b != [] {
      var b' := b[..|b| - 1];
      assert (a + b)[..|a + b| - 1] == a + b';
      RewriteAllSplits(offset, a, b');
    } else {
      assert a + b == a;
    }
  }

  /** `ModeHandler` of the older version. */
  class LegacyModeHandler {
    const offset: int
    /** `m_conversion`: chosen from the target and never read. */
    const conversion: seq<int>

    /** An unknown target fails an assertion. */
    constructor (offset: int, target: string)
      requires target == "minor" || target == "major"
      ensures this.offset == CRem(offset, 12)
      ensures conversion == if target == "minor" then MajorToMinor else MinorToMajor
    {
      this.offset := CRem(offset, 12);
      conversion := if target == "minor" then MajorToMinor else MinorToMajor;
    }

    /** `process`: the output buffer after the event loop. */
    method Process(events: seq<RawEvent>) returns (out: seq<Written>)
      requires Rewritable(offset, events)
      ensures out == RewriteAll(offset, events)
    {
      out := [];
      var i := 0;
      while i < |events|
        invariant 0 <= i <= |events|
        invariant out == RewriteAll(offset, events[..i])
      {
        var e := events[i];
        assert events[..i + 1][..i] == events[..i];
        if Command(e) == NOTE_ON || Command(e) == NOTE_OFF {
          var t := Transpose(offset, e.data[1]);
          if t.ok {
            out := out + [Written(e.time, [e.data[0], t.note, e.data[2]])];
          }
        } else {
          out := out + [Written(e.time, e.data)];
        }
        i := i + 1;
      }
      assert events[..i] == events;
    }
  }
}
