/** Major <-> minor transposition with a per-key memory, so that a note-off
    releases the note its note-on was mapped to (mode/ModeHandler.cpp). */
module Mode {
  import opened Midi
  import opened Results

  //                                    0  1  2   3  4  5  6  7   8  9 10 11  12
  const MajorToMinor: seq<int> := [0, 1, 2, -1, 3, 5, 6, 7, -1, 8, 9, 10, 12]
  const MinorToMajor: seq<int> := [0, 1, 2, 4, -1, 5, 6, 7, 9, 10, 11, -1, 12]

  const NOT_MAPPED: int := -1
  /** Result of `transpose` for a note that is not played. */
  const SKIP: int := -2

  /** Reference definition of the table: the shift a pitch class of the
      major scale receives, `None` for the two degrees without a counterpart,
      which the quirk offset maps to a neighbour (-1: below, +1: above). */
  function ScaleShift(pc: int, quirkOffset: int): Option<int>
    requires 0 <= pc < 12
  {
    if pc in {0, 1, 2, 5, 6, 7} then Some(0)
    else if pc in {4, 9, 10, 11} then Some(-1)
    else if quirkOffset == -1 then Some(-1)
    else if quirkOffset == 1 then Some(0)
    else None
  }

  lemma TableMatchesShift(pc: int, quirkOffset: int)
    requires 0 <= pc < 12 && -1 <= quirkOffset <= 1
    ensures MajorToMinor[pc] == -1 <==> pc == 3 || pc == 8
    ensures MajorToMinor[pc] != -1 ==> ScaleShift(pc, quirkOffset) == Some(MajorToMinor[pc] - pc)
    ensures MajorToMinor[pc] == -1 ==>
      if MajorToMinor[pc + quirkOffset] == -1 then ScaleShift(pc, quirkOffset) == None
      else ScaleShift(pc, quirkOffset) == Some(MajorToMinor[pc + quirkOffset] - pc)
  {
    if pc == 0 {} else if pc == 1 {} else if pc == 2 {} else if pc == 3 {}
    else if pc == 4 {} else if pc == 5 {} else if pc == 6 {} else if pc == 7 {}
    else if pc == 8 {} else if pc == 9 {} else if pc == 10 {} else {}
  }

  /** `transpose(offset, quirkOffset, note)`: `SKIP` or the new note. Always
      reads `MajorToMinor`, whatever target the handler was built for. A
      negative `note + offset` would index the table with a negative
      remainder. */
  function Transpose(offset: int, quirkOffset: int, note: int): (r: int)
    requires note + offset >= 0
    requires -1 <= quirkOffset <= 1
    ensures r == SKIP || 0 <= r < 128
    ensures r != SKIP ==> r == note || r == note - 1
    ensures quirkOffset == 0 && (note + offset) % 12 in {3, 8} ==> r == SKIP
    ensures r == match ScaleShift((note + offset) % 12, quirkOffset)
                 case None => SKIP
                 case Some(d) => if 0 <= note + d < 128 then note + d else SKIP
  {
    var noteAdj := note + offset;
    var quot, rem := noteAdj / 12, noteAdj % 12;
    TableMatchesShift(rem, quirkOffset);
    var x0 := MajorToMinor[rem];
    var x := if x0 == -1 then MajorToMinor[rem + quirkOffset] else x0;
    if x == -1 then SKIP
    else
      var newNote := -offset + quot * 12 + x;
      if 0 <= newNote < 128 then newNote else SKIP
  }

  predicate IsNoteEvent(e: RawEvent) requires |e.data| > 0 {
    Command(e) == NOTE_ON || Command(e) == NOTE_OFF
  }

  /** The branch of `process` that maps a note (a note-on with velocity > 0). */
  predicate MapsOnNoteOn(e: RawEvent) requires ValidEvent(e) {
    IsNoteOn(e) && e.data[2] > 0
  }

  /** What `transpose` needs of an event it is called on. */
  predicate Transposable(offset: int, state: TransportState, e: RawEvent) {
    ValidEvent(e) && (state == Rolling && MapsOnNoteOn(e) ==> e.data[1] + offset >= 0)
  }

  /** Entries of `m_mappedNotes`: not mapped, silenced, or a MIDI note. */
  predicate MappedValid(mapped: seq<int>) {
    |mapped| == 128 && forall i :: 0 <= i < 128 ==> mapped[i] == NOT_MAPPED || mapped[i] == SKIP || 0 <= mapped[i] < 128
  }

  datatype Step = Step(mapped: seq<int>, out: seq<Written>)

  /** One iteration of the event loop of `process`. */
  function EventStep(offset: int, quirkOffset: int, state: TransportState, mapped: seq<int>, e: RawEvent): (r: Step)
    requires -1 <= quirkOffset <= 1 && MappedValid(mapped) && Transposable(offset, state, e)
    ensures MappedValid(r.mapped)
    ensures !IsNoteEvent(e) ==> r.mapped == mapped && r.out == [Written(e.time, e.data)]
    ensures IsNoteEvent(e) ==> |r.out| <= 1 && forall k :: 0 <= k < 128 && k != e.data[1] ==> r.mapped[k] == mapped[k]
  {
    if IsNoteEvent(e) then
      var note := e.data[1];
      var noteToUse :=
        if MapsOnNoteOn(e) then (if state == Rolling then Transpose(offset, quirkOffset, note) else note)
        else if mapped[note] != NOT_MAPPED then mapped[note]
        else note;
      var newMapped :=
        if MapsOnNoteOn(e) then (if state == Rolling then mapped[note := noteToUse] else mapped)
        else if mapped[note] != NOT_MAPPED then mapped[note := NOT_MAPPED]
        else mapped;
      Step(newMapped, if noteToUse != SKIP then [Written(e.time, [e.data[0], noteToUse, e.data[2]])] else [])
    else
      Step(mapped, [Written(e.time, e.data)])
  }

  predicate AllTransposable(offset: int, state: TransportState, events: seq<RawEvent>) {
    forall i :: 0 <= i < |events| ==> Transposable(offset, state, events[i])
  }

  /** The event loop of `process` over a whole block. */
  function Run(offset: int, quirkOffset: int, state: TransportState, mapped: seq<int>, events: seq<RawEvent>): (r: Step)
    requires -1 <= quirkOffset <= 1 && MappedValid(mapped) && AllTransposable(offset, state, events)
    ensures MappedValid(r.mapped)
    decreases |events|
  {
    if events == [] then Step(mapped, [])
    else
      var prev := Run(offset, quirkOffset, state, mapped, events[..|events| - 1]);
      var last := EventStep(offset, quirkOffset, state, prev.mapped, events[|events| - 1]);
      Step(last.mapped, prev.out + last.out)
  }

  /** `ModeHandler`: the conversion offset, the quirk and the 128-entry
      memory `m_mappedNotes`. */
  class ModeHandler {
    const offset: int
    /** `m_conversion`: chosen from the target but never read by `process`. */
    const conversion: seq<int>
    const quirkOffset: int
    const mappedNotes: array<int>

    ghost predicate Valid()
      reads this, mappedNotes
    {
      -12 < offset < 12 && -1 <= quirkOffset <= 1 && MappedValid(mappedNotes[..])
    }

    /** An unknown target or quirk fails an assertion. */
    constructor (offset: int, target: string, quirk: string)
      requires target == "minor" || target == "major"
      requires quirk == "below" || quirk == "skip" || quirk == "above"
      ensures Valid() && fresh(mappedNotes)
      ensures this.offset == CRem(offset, 12)
      ensures conversion == if target == "minor" then MajorToMinor else MinorToMajor
      ensures quirkOffset == if quirk == "below" then -1 else if quirk == "skip" then 0 else 1
      ensures forall i :: 0 <= i < 128 ==> mappedNotes[i] == NOT_MAPPED
    {
      this.offset := CRem(offset, 12);
      conversion := if target == "minor" then MajorToMinor else MinorToMajor;
      quirkOffset := if quirk == "below" then -1 else if quirk == "skip" then 0 else 1;
      mappedNotes := new int[128](_ => NOT_MAPPED);
    }

    /** The body of the event loop of `process`, for one event. */
    method Rewrite(state: TransportState, e: RawEvent) returns (written: seq<Written>)
      requires Valid() && Transposable(offset, state, e)
      modifies mappedNotes
      ensures Valid()
      ensures var r := EventStep(offset, quirkOffset, state, old(mappedNotes[..]), e);
        mappedNotes[..] == r.mapped && written == r.out
    {
      written := [];
      if Command(e) == NOTE_ON || Command(e) == NOTE_OFF {
        var note := e.data[1];
        var noteToUse := note;
        if Command(e) == NOTE_ON && e.data[2] > 0 {
          if state == Rolling {
            var newNote := Transpose(offset, quirkOffset, note);
            mappedNotes[note] := newNote;
            noteToUse := newNote;
          }
        } else if mappedNotes[note] != NOT_MAPPED {
          noteToUse := mappedNotes[note];
          mappedNotes[note] := NOT_MAPPED;
        }
        if noteToUse != SKIP {
          written := [Written(e.time, [e.data[0], noteToUse, e.data[2]])];
        }
      } else {
        written := [Written(e.time, e.data)];
      }
    }

    /** `process`: rewrites the block's events and updates the memory. */
    method Process(state: TransportState, events: seq<RawEvent>) returns (out: seq<Written>)
      requires Valid() && AllTransposable(offset, state, events)
      modifies mappedNotes
      ensures Valid()
      ensures var r := Run(offset, quirkOffset, state, old(mappedNotes[..]), events);
        mappedNotes[..] == r.mapped && out == r.out
    {
      ghost var start := mappedNotes[..];
      out := [];
      var i := 0;
      while i < |events|
        invariant 0 <= i <= |events| && Valid()
        invariant var r := Run(offset, quirkOffset, state, start, events[..i]);
          mappedNotes[..] == r.mapped && out == r.out
      {
        RunStep(offset, quirkOffset, state, start, events, i);
        var written := Rewrite(state, events[i]);
        out := out + written;
        i := i + 1;
      }
      assert events[..i] == events;
    }
  }

  lemma RunStep(offset: int, quirkOffset: int, state: TransportState, mapped: seq<int>, events: seq<RawEvent>, i: nat)
    requires -1 <= quirkOffset <= 1 && MappedValid(mapped) && AllTransposable(offset, state, events)
    requires i < |events|
    ensures AllTransposable(offset, state, events[..i]) && AllTransposable(offset, state, events[..i + 1])
    ensures var prev := Run(offset, quirkOffset, state, mapped, events[..i]);
      var last := EventStep(offset, quirkOffset, state, prev.mapped, events[i]);
      Run(offset, quirkOffset, state, mapped, events[..i + 1]) == Step(last.mapped, prev.out + last.out)
  {
    assert events[..i + 1][..i] == events[..i];
  }

  // ---- Properties of the event loop ----

  /** A note-on with velocity > 0 while rolling stores its mapping; while not
      rolling it passes the note through and leaves the memory alone. */
  lemma NoteOnStoresMapping(offset: int, quirkOffset: int, state: TransportState, mapped: seq<int>, e: RawEvent)
    requires -1 <= quirkOffset <= 1 && MappedValid(mapped) && Transposable(offset, state, e)
    requires MapsOnNoteOn(e)
    ensures var r := EventStep(offset, quirkOffset, state, mapped, e);
      if state == Rolling then
        var n := Transpose(offset, quirkOffset, e.data[1]);
        r.mapped == mapped[e.data[1] := n]
        && r.out == (if n == SKIP then [] else [Written(e.time, [e.data[0], n, e.data[2]])])
      else
        r.mapped == mapped && r.out == [Written(e.time, [e.data[0], e.data[1], e.data[2]])]
  {
  }

  /** A note-off (or a velocity-0 note-on) for a key with a stored mapping
      plays that mapping and clears it, so a second note-off plays the
      original key. */
  lemma SecondNoteOffPlaysOriginal(offset: int, quirkOffset: int, state: TransportState, mapped: seq<int>, e: RawEvent)
    requires -1 <= quirkOffset <= 1 && MappedValid(mapped) && Transposable(offset, state, e)
    requires IsNoteEvent(e) && !MapsOnNoteOn(e) && mapped[e.data[1]] != NOT_MAPPED
    ensures var r1 := EventStep(offset, quirkOffset, state, mapped, e);
      var r2 := EventStep(offset, quirkOffset, state, r1.mapped, e);
      && r1.mapped[e.data[1]] == NOT_MAPPED
      && r1.out == (if mapped[e.data[1]] == SKIP then [] else [Written(e.time, [e.data[0], mapped[e.data[1]], e.data[2]])])
      && r2.mapped == r1.mapped
      && r2.out == [Written(e.time, [e.data[0], e.data[1], e.data[2]])]
  {
  }

  /** Events that are not about `key` leave its memory entry alone. */
  predicate Untouched(key: int, events: seq<RawEvent>) {
    forall i :: 0 <= i < |events| && |events[i].data| > 0 && IsNoteEvent(events[i]) ==>
      |events[i].data| > 1 && events[i].data[1] != key
  }

  lemma {:induction false} RunKeepsOtherKeys(offset: int, quirkOffset: int, state: TransportState, mapped: seq<int>, events: seq<RawEvent>, key: int)
    requires -1 <= quirkOffset <= 1 && MappedValid(mapped) && AllTransposable(offset, state, events)
    requires 0 <= key < 128 && Untouched(key, events)
    ensures Run(offset, quirkOffset, state, mapped, events).mapped[key] == mapped[key]
    decreases |events|
  {
    if events != [] {
      var init := events[..|events| - 1];
      assert Untouched(key, init) by {
        forall i | 0 <= i < |init| ensures events[i] == init[i] {}
      }
      RunKeepsOtherKeys(offset, quirkOffset, state, mapped, init, key);
    }
  }

  /** The point of the memory: a note-on mapped while rolling, then events
      about other keys, then its note-off: the note-off releases exactly the
      note that was played, whatever the transport does meanwhile. */
  lemma NoteOffReleasesMappedNote(offset: int, quirkOffset: int, state: TransportState, mapped: seq<int>,
                                  on: RawEvent, middle: seq<RawEvent>, off: RawEvent)
    requires -1 <= quirkOffset <= 1 && MappedValid(mapped)
    requires Transposable(offset, Rolling, on) && MapsOnNoteOn(on)
    requires AllTransposable(offset, state, middle) && Transposable(offset, state, off)
    requires IsNoteEvent(off) && !MapsOnNoteOn(off) && off.data[1] == on.data[1]
    requires Untouched(on.data[1], middle)
    ensures var n := Transpose(offset, quirkOffset, on.data[1]);
      var m1 := EventStep(offset, quirkOffset, Rolling, mapped, on).mapped;
      var m2 := Run(offset, quirkOffset, state, m1, middle).mapped;
      EventStep(offset, quirkOffset, state, m2, off).out
        == (if n == SKIP then [] else [Written(off.time, [off.data[0], n, off.data[2]])])
  {
    var m1 := EventStep(offset, quirkOffset, Rolling, mapped, on).mapped;
    RunKeepsOtherKeys(offset, quirkOffset, state, m1, middle, on.data[1]);
  }

  /** `process` writes at most one event per input event, at its time. */
  lemma {:induction false} RunOutputBound(offset: int, quirkOffset: int, state: TransportState, mapped: seq<int>, events: seq<RawEvent>)
    requires -1 <= quirkOffset <= 1 && MappedValid(mapped) && AllTransposable(offset, state, events)
    ensures |Run(offset, quirkOffset, state, mapped, events).out| <= |events|
    decreases |events|
  {
    if events != [] {
      RunOutputBound(offset, quirkOffset, state, mapped, events[..|events| - 1]);
    }
  }
  /** No note events in a block. */
  predicate NoNoteEvents(events: seq<RawEvent>) {
    forall i :: 0 <= i < |events| && |events[i].data| > 0 ==> !IsNoteEvent(events[i])
  }

  /** "Just forward everything else": a block without note events is
      written unchanged, event by event at its own time, and leaves the
      memory as it was. */
  lemma {:induction false} NonNoteEventsPassThrough(offset: int, quirkOffset: int, state: TransportState, mapped: seq<int>, events: seq<RawEvent>)
    requires -1 <= quirkOffset <= 1 && MappedValid(mapped) && AllTransposable(offset, state, events)
    requires NoNoteEvents(events)
    ensures var r := Run(offset, quirkOffset, state, mapped, events);
      r.mapped == mapped && |r.out| == |events| &&
      forall i :: 0 <= i < |events| ==> r.out[i] == Written(events[i].time, events[i].data)
    decreases |events|
  {
    if events != [] {
      var init := events[..|events| - 1];
      assert NoNoteEvents(init) by {
        forall i | 0 <= i < |init| ensures events[i] == init[i] {}
      }
      NonNoteEventsPassThrough(offset, quirkOffset, state, mapped, init);
    }
  }
}
