/** The older chord player (ChordPlayerHandler.cpp). It reads the same file
    format with the same note and chord expressions, but a malformed file
    fails an assertion instead of throwing, octaves count from C4 = MIDI 60,
    there is no transport handling, and chords are played on channel 2 with
    velocity 64. */
module LegacyChords {
  import opened Midi
  import opened Results
  import opened Chords

  /** `getNoteAndOctave` with `root = (octave + 1) * 12`: one octave below
      the newer reading of the same string. */
  function LegacyNoteAndOctave(s: string): (r: Byte)
    requires ParseNote(s).Some?
    ensures NoteAndOctave(s).Ok? && r == NoteAndOctave(s).value - 12
    ensures 10 <= r <= 121
  {
    var n := ParseNote(s).value;
    NoteParsing(s, n);
    RootNote(n.pitch, (n.octave + 1) * 12)
  }

  lemma MiddleC()
    ensures ParseNote("C4").Some? && LegacyNoteAndOctave("C4") == 60
  {
    var n := NoteSpelling(Pitch('C', ""), 4);
    NaturalC(4, 60);
    assert ['C', Digit(4)] == "C4";
    NoteParsing("C4", n);
  }

  /** `createChord`: a chord the expression must match. */
  method LegacyCreateChord(s: string) returns (notes: seq<Byte>)
    requires ParseChord(s).Some?
    ensures notes == ChordNotes(ParseChord(s).value)
  {
    var r := CreateChord(s);
    notes := r.value;
  }

  /** What the assertions of `populateChords` demand of a line. */
  predicate WellFormedLine(line: string) {
    !IsBlank(line) ==>
      var tokens := Split(line, ',');
      && ParseNote(tokens[0]).Some?
      && (|tokens| == 2 && tokens[1] != "SKIP" ==> ParseChord(tokens[1]).Some?)
  }

  predicate WellFormed(lines: seq<string>) {
    forall i {:trigger WellFormedLine(lines[i])} :: 0 <= i < |lines| ==> WellFormedLine(lines[i])
  }

  /** One line: nothing when blank, otherwise an entry; an empty chord
      field is a chord that does not match. */
  function LegacyParseLine(line: string): (r: Option<ChordData>)
    requires WellFormedLine(line)
    ensures r.None? <==> IsBlank(line)
    ensures r.Some? ==> r.value.trigger == LegacyNoteAndOctave(Split(line, ',')[0])
    ensures r.Some? && |Split(line, ',')| == 2 && Split(line, ',')[1] != "SKIP" ==> ParseChord(Split(line, ',')[1]).Some?
  {
    if IsBlank(line) then None
    else
      var tokens := Split(line, ',');
      var trigger := LegacyNoteAndOctave(tokens[0]);
      if |tokens| != 2 then Some(ChordData(trigger, false, []))
      else if tokens[1] == "SKIP" then Some(ChordData(trigger, true, []))
      else
        var c := ParseChord(tokens[1]).value;
        ParsedChordIsSpelled(tokens[1]);
        Some(ChordData(trigger, false, ChordNotes(c)))
  }

  /** The rule for the second field: the entry skips iff the second of two
      fields is `SKIP`, and has the chord's notes when it is a chord and no
      notes otherwise. */
  lemma LegacyParseLineFields(line: string)
    requires WellFormedLine(line) && !IsBlank(line)
    ensures var r := LegacyParseLine(line);
      && (r.value.skip <==> IsSkipLine(line))
      && r.value.notes == if HasChordField(line) then ChordNotes(ParseChord(Split(line, ',')[1]).value) else []
  {
  }

  function LegacyChordFile(lines: seq<string>): (r: seq<ChordData>)
    requires WellFormed(lines)
    ensures |r| == 1 + CountEntries(lines) && r[0] == SENTINEL
    decreases |lines|
  {
    if lines == [] then [SENTINEL]
    else
      var prev := LegacyChordFile(lines[..|lines| - 1]);
      var entry := LegacyParseLine(lines[|lines| - 1]);
      if entry.Some? then prev + [entry.value] else prev
  }

  /** The file read one line further: the entries so far, then the entry of
      the new line when it is not blank. */
  lemma LegacyFileLast(lines: seq<string>)
    requires |lines| > 0 && WellFormed(lines)
    ensures WellFormed(lines[..|lines| - 1]) && WellFormedLine(lines[|lines| - 1])
    ensures var prev, entry := LegacyChordFile(lines[..|lines| - 1]), LegacyParseLine(lines[|lines| - 1]);
      LegacyChordFile(lines) == if entry.Some? then prev + [entry.value] else prev
  {
    InitWellFormed(lines);
  }

  lemma InitWellFormed(lines: seq<string>)
    requires |lines| > 0 && WellFormed(lines)
    ensures WellFormed(lines[..|lines| - 1]) && WellFormedLine(lines[|lines| - 1])
  {
    var n := |lines| - 1;
    forall j | 0 <= j < n ensures WellFormedLine(lines[..n][j]) { assert lines[..n][j] == lines[j]; }
  }

  /** Reading one more line keeps the entries read so far. */
  lemma LegacyFileGrows(lines: seq<string>)
    requires |lines| > 0 && WellFormed(lines)
    ensures WellFormed(lines[..|lines| - 1])
    ensures LegacyChordFile(lines[..|lines| - 1]) <= LegacyChordFile(lines)
  {
    LegacyFileLast(lines);
  }

  /** A file with one more line: the entries so far, then that line's
      entry when it is not blank. */
  lemma LegacyFileAppend(init: seq<string>, line: string)
    requires WellFormed(init) && WellFormedLine(line)
    ensures WellFormed(init + [line])
    ensures IsBlank(line) ==> LegacyChordFile(init + [line]) == LegacyChordFile(init)
    ensures !IsBlank(line) ==> LegacyChordFile(init + [line]) == LegacyChordFile(init) + [LegacyParseLine(line).value]
  {
    assert WellFormed(init + [line]) by {
      forall j | 0 <= j < |init + [line]| ensures WellFormedLine((init + [line])[j]) {
        if j < |init| { assert (init + [line])[j] == init[j]; }
      }
    }
    assert (init + [line])[..|init|] == init;
  }

  /** The entries read up to a non-blank line end with that line's entry. */
  lemma LegacyEntryUpTo(lines: seq<string>, i: nat)
    requires WellFormed(lines) && i < |lines| && !IsBlank(lines[i])
    ensures WellFormed(lines[..i + 1]) && WellFormedLine(lines[i])
    ensures LegacyChordFile(lines[..i + 1])[CountEntries(lines[..i + 1])] == LegacyParseLine(lines[i]).value
  {
    var init := lines[..i];
    assert WellFormed(init) by {
      forall j | 0 <= j < i ensures WellFormedLine(init[j]) { assert init[j] == lines[j]; }
    }
    assert lines[..i + 1] == init + [lines[i]];
    LegacyFileAppend(init, lines[i]);
  }

  /** The entries read from the first `j` lines begin the entries of the file. */
  lemma {:induction false} LegacyFilePrefix(lines: seq<string>, j: nat)
    requires WellFormed(lines) && j <= |lines|
    ensures WellFormed(lines[..j]) && LegacyChordFile(lines[..j]) <= LegacyChordFile(lines)
    decreases |lines|
  {
    if j < |lines| {
      var init := lines[..|lines| - 1];
      LegacyFileGrows(lines);
      LegacyFilePrefix(init, j);
      assert init[..j] == lines[..j];
    } else {
      assert lines[..j] == lines;
    }
  }

  /** The entry of a non-blank line is the one at its rank among the
      non-blank lines, counted after the sentinel. */
  lemma LegacyEntryOfLine(lines: seq<string>, i: nat)
    requires WellFormed(lines) && i < |lines| && !IsBlank(lines[i])
    ensures 1 <= CountEntries(lines[..i + 1]) <= CountEntries(lines)
    ensures LegacyChordFile(lines)[CountEntries(lines[..i + 1])] == LegacyParseLine(lines[i]).value
  {
    LegacyFilePrefix(lines, i + 1);
    LegacyEntryUpTo(lines, i);
    PrefixIndex(LegacyChordFile(lines), LegacyChordFile(lines[..i + 1]), CountEntries(lines[..i + 1]));
  }

  /** Every non-blank line has its entry at its rank. */
  lemma LegacyChordFileEntries(lines: seq<string>)
    requires WellFormed(lines)
    ensures forall i :: 0 <= i < |lines| && !IsBlank(lines[i]) ==>
      && 1 <= CountEntries(lines[..i + 1]) <= CountEntries(lines)
      && LegacyChordFile(lines)[CountEntries(lines[..i + 1])] == LegacyParseLine(lines[i]).value
  {
    forall i | 0 <= i < |lines| && !IsBlank(lines[i])
      ensures 1 <= CountEntries(lines[..i + 1]) <= CountEntries(lines)
      ensures LegacyChordFile(lines)[CountEntries(lines[..i + 1])] == LegacyParseLine(lines[i]).value
    {
      LegacyEntryOfLine(lines, i);
    }
  }

  /** The two readers agree on a file both accept, except that every
      trigger is one octave lower. */
  lemma {:induction false} ReadersAgree(lines: seq<string>)
    requires WellFormed(lines) && ChordFile(lines).Ok?
    ensures |LegacyChordFile(lines)| == |ChordFile(lines).value|
    ensures forall i :: 1 <= i < |LegacyChordFile(lines)| ==>
      && LegacyChordFile(lines)[i].trigger == ChordFile(lines).value[i].trigger - 12
      && LegacyChordFile(lines)[i].skip == ChordFile(lines).value[i].skip
      && LegacyChordFile(lines)[i].notes == ChordFile(lines).value[i].notes
    decreases |lines|
  {
    if lines != [] {
      var init := lines[..|lines| - 1];
      var last := lines[|lines| - 1];
      assert WellFormed(init) by {
        forall i | 0 <= i < |init| ensures WellFormedLine(init[i]) { assert init[i] == lines[i]; }
      }
      assert ChordFile(init).Ok? && ParseLine(last).Ok?;
      ReadersAgree(init);
      LineAgrees(last);
      var older, newer := LegacyParseLine(last), ParseLine(last).value;
      var prev, prev' := LegacyChordFile(init), ChordFile(init).value;
      assert LegacyChordFile(lines) == if older.Some? then prev + [older.value] else prev;
      assert ChordFile(lines).value == if newer.Some? then prev' + [newer.value] else prev';
    }
  }

  /** The two readers agree on one line both accept, but for the octave. */
  lemma LineAgrees(line: string)
    requires WellFormedLine(line) && ParseLine(line).Ok?
    ensures LegacyParseLine(line).Some? <==> ParseLine(line).value.Some?
    ensures LegacyParseLine(line).Some? ==>
      && LegacyParseLine(line).value.trigger == ParseLine(line).value.value.trigger - 12
      && LegacyParseLine(line).value.skip == ParseLine(line).value.value.skip
      && LegacyParseLine(line).value.notes == ParseLine(line).value.value.notes
  {
    if !IsBlank(line) {
      ParseLineFields(line);
      LegacyParseLineFields(line);
    }
  }

  /** The body of the line loop of the older `populateChords`. */
  method LegacyReadLine(line: string) returns (r: Option<ChordData>)
    requires WellFormedLine(line)
    ensures r == LegacyParseLine(line)
  {
    if line == [] || line[0] == '#' {
      return None;
    }
    var tokens := Split(line, ',');
    var data := ChordData(LegacyNoteAndOctave(tokens[0]), false, []);
    if |tokens| == 2 {
      var chord := tokens[1];
      if chord == "SKIP" {
        data := data.(skip := true);
      } else {
        var notes := LegacyCreateChord(chord);
        data := data.(notes := notes);
      }
    }
    return Some(data);
  }

  lemma LegacyFileStep(lines: seq<string>, i: nat)
    requires WellFormed(lines) && i < |lines|
    ensures WellFormed(lines[..i]) && WellFormed(lines[..i + 1]) && WellFormedLine(lines[i])
    ensures var prev, entry := LegacyChordFile(lines[..i]), LegacyParseLine(lines[i]);
      LegacyChordFile(lines[..i + 1]) == if entry.Some? then prev + [entry.value] else prev
  {
    assert lines[..i + 1][..i] == lines[..i];
    var upto := lines[..i + 1];
    forall j | 0 <= j < |upto| ensures WellFormedLine(upto[j]) { assert upto[j] == lines[j]; }
  }

  method LegacyPopulateChords(lines: seq<string>) returns (chords: seq<ChordData>)
    requires WellFormed(lines)
    ensures chords == LegacyChordFile(lines)
  {
    chords := [SENTINEL];
    var i := 0;
    while i < |lines|
      invariant 0 <= i <= |lines|
      invariant chords == LegacyChordFile(lines[..i])
    {
      LegacyFileStep(lines, i);
      var entry := LegacyReadLine(lines[i]);
      if entry.Some? {
        chords := chords + [entry.value];
      }
      i := i + 1;
    }
    assert lines[..i] == lines;
  }

  /** `execute`: the command moved to channel 2, velocity 64. */
  method LegacyExecute(time: Frame, data: ChordData, cmd: Byte) returns (w: seq<Written>)
    requires cmd < 255
    ensures w == Voicing(data.notes, cmd + 1, 64, time)
  {
    w := [];
    for i := 0 to |data.notes|
      invariant w == Voicing(data.notes[..i], cmd + 1, 64, time)
    {
      w := w + [Written(time, [cmd + 1, data.notes[i], 64])];
    }
    assert data.notes[..|data.notes|] == data.notes;
  }

  /** One event of `process`: any note-on of the awaited trigger counts,
      whatever its velocity. */
  function LegacyCue(chords: seq<ChordData>, c: Cursor, e: RawEvent): (r: (Cursor, seq<Written>))
    requires CursorValid(chords, c) && ValidEvent(e)
    ensures CursorValid(chords, r.0)
    ensures c.next == |chords| ==> r == (c, [])
    ensures r.0.next == c.next + 1 <==> c.next < |chords| && IsNoteOn(e) && e.data[1] == chords[c.next].trigger
    ensures r.0.next == c.next || r.0.next == c.next + 1
    ensures r.0.next == c.next ==> r == (c, [])
    ensures r.0.next == c.next + 1 && chords[c.next].skip ==> r == (Cursor(c.next + 1, c.previous), [])
    ensures r.0.next == c.next + 1 && !chords[c.next].skip ==>
      && r.0 == Cursor(c.next + 1, c.next)
      && r.1 == Voicing(chords[c.previous].notes, NOTE_OFF + 1, 64, e.time)
              + Voicing(chords[c.next].notes, NOTE_ON + 1, 64, e.time)
  {
    if c.next == |chords| then (c, [])
    else if IsNoteOn(e) && e.data[1] == chords[c.next].trigger then
      var next := chords[c.next];
      if next.skip then (Cursor(c.next + 1, c.previous), [])
      else
        (Cursor(c.next + 1, c.next),
         Voicing(chords[c.previous].notes, NOTE_OFF + 1, 64, e.time) + Voicing(next.notes, NOTE_ON + 1, 64, e.time))
    else (c, [])
  }

  function LegacyRun(chords: seq<ChordData>, c: Cursor, events: seq<RawEvent>): (r: (Cursor, seq<Written>))
    requires CursorValid(chords, c) && ValidEvents(events)
    ensures CursorValid(chords, r.0)
    ensures c.next <= r.0.next <= c.next + |events|
    ensures r.0.next == c.next ==> r == (c, [])
    decreases |events|
  {
    if events == [] then (c, [])
    else
      var prev := LegacyRun(chords, c, events[..|events| - 1]);
      var last := LegacyCue(chords, prev.0, events[|events| - 1]);
      assert last.0.next == c.next ==> prev == (c, []) && last == (c, []) && prev.1 + last.1 == [];
      (last.0, prev.1 + last.1)
  }

  /** A block with one more event plays that event from where the block
      left off. */
  lemma LegacyRunStep(chords: seq<ChordData>, c: Cursor, init: seq<RawEvent>, e: RawEvent)
    requires CursorValid(chords, c) && ValidEvents(init) && ValidEvent(e)
    ensures ValidEvents(init + [e])
    ensures LegacyRun(chords, c, init + [e])
         == (LegacyCue(chords, LegacyRun(chords, c, init).0, e).0,
             LegacyRun(chords, c, init).1 + LegacyCue(chords, LegacyRun(chords, c, init).0, e).1)
  {
    assert ValidEvents(init + [e]) by {
      forall i | 0 <= i < |init + [e]| ensures (init + [e])[i] == if i < |init| then init[i] else e {}
    }
    assert (init + [e])[..|init + [e]| - 1] == init;
  }

  /** A block split in two plays as its first part followed by its second
      part: the output is the outputs of the events in input order. */
  lemma {:induction false} LegacyRunConcat(chords: seq<ChordData>, c: Cursor, a: seq<RawEvent>, b: seq<RawEvent>)
    requires CursorValid(chords, c) && ValidEvents(a) && ValidEvents(b)
    ensures ValidEvents(a + b)
    ensures var first := LegacyRun(chords, c, a);
      var second := LegacyRun(chords, first.0, b);
      LegacyRun(chords, c, a + b) == (second.0, first.1 + second.1)
    decreases |b|
  {
    var first := LegacyRun(chords, c, a);
    if b == [] {
      assert a + b == a;
      assert first.1 + [] == first.1;
    } else {
      var b', e := b[..|b| - 1], b[|b| - 1];
      assert ValidEvents(b') && ValidEvent(e);
      AppendLast([], b);
      AppendLast(a, b);
      LegacyRunConcat(chords, c, a, b');
      LegacyRunStep(chords, first.0, b', e);
      LegacyRunStep(chords, c, a + b', e);
      var mid := LegacyRun(chords, first.0, b');
      AppendAssoc(first.1, mid.1, LegacyCue(chords, mid.0, e).1);
    }
  }

  lemma {:induction false} LegacyFinishedIgnoresRest(chords: seq<ChordData>, c: Cursor, a: seq<RawEvent>, b: seq<RawEvent>)
    requires CursorValid(chords, c) && ValidEvents(a) && ValidEvents(b)
    requires LegacyRun(chords, c, a).0.next == |chords|
    ensures ValidEvents(a + b)
    ensures LegacyRun(chords, c, a + b) == LegacyRun(chords, c, a)
    decreases |b|
  {
    assert ValidEvents(a + b) by {
      forall i | 0 <= i < |a + b| ensures (a + b)[i] == if i < |a| then a[i] else b[i - |a|] {}
    }
    if b == [] {
      assert a + b == a;
    } else {
      var b' := b[..|b| - 1];
      assert (a + b)[..|a + b| - 1] == a + b';
      LegacyFinishedIgnoresRest(chords, c, a, b');
      var p := LegacyRun(chords, c, a + b');
      var last := LegacyCue(chords, p.0, (a + b)[|a + b| - 1]);
      assert last == (p.0, []);
      assert p.1 + last.1 == p.1;
    }
  }

  /** A file whose first two entries share trigger 60. */
  const RepeatedTrigger: seq<ChordData> :=
    [SENTINEL, ChordData(60, false, [48, 52, 55]), ChordData(60, false, [53, 57, 60])]

  /** A key press followed by its release sent as a note-on with velocity 0. */
  const PressAndRelease: seq<RawEvent> := [RawEvent(0, [NOTE_ON, 60, 100]), RawEvent(10, [NOTE_ON, 60, 0])]

  /** The release plays the second chord as well: one key press walks two
      entries. The newer player stays on the second entry. */
  lemma ReleaseCountsAsPress()
    ensures ValidEvents(PressAndRelease)
    ensures LegacyRun(RepeatedTrigger, Cursor(1, 0), PressAndRelease).0 == Cursor(3, 2)
    ensures Run(RepeatedTrigger, 0, Cursor(1, 0), PressAndRelease).0 == Cursor(2, 1)
  {
    var events := PressAndRelease;
    assert ValidEvent(events[0]) && ValidEvent(events[1]);
    assert events[..1][..0] == [];
    assert events[..|events| - 1] == events[..1];
    assert LegacyRun(RepeatedTrigger, Cursor(1, 0), events[..1]).0 == Cursor(2, 1);
    assert Run(RepeatedTrigger, 0, Cursor(1, 0), events[..1]).0 == Cursor(2, 1);
  }

  /** `ChordPlayerHandler` of the older version. */
  class LegacyChordPlayer {
    const chords: seq<ChordData>
    var next: nat
    var previous: nat

    ghost predicate Valid()
      reads this
    {
      |chords| >= 1 && CursorValid(chords, Cursor(next, previous))
    }

    /** Reads the file, then awaits the first entry. */
    constructor (lines: seq<string>)
      requires WellFormed(lines)
      ensures Valid() && chords == LegacyChordFile(lines) && next == 1 && previous == 0
    {
      var file := LegacyPopulateChords(lines);
      chords := file;
      previous := 0;
      next := 1;
    }

    method Process(events: seq<RawEvent>) returns (out: seq<Written>)
      requires Valid() && ValidEvents(events)
      modifies this
      ensures Valid()
      ensures (Cursor(next, previous), out) == LegacyRun(chords, Cursor(old(next), old(previous)), events)
    {
      out := [];
      ghost var start := Cursor(next, previous);
      var i := 0;
      while i < |events|
        invariant 0 <= i <= |events| && Valid()
        invariant (Cursor(next, previous), out) == LegacyRun(chords, start, events[..i])
      {
        if next == |chords| {
          LegacyFinishedIgnoresRest(chords, start, events[..i], events[i..]);
          assert events[..i] + events[i..] == events;
          break;
        }
        var e := events[i];
        assert events[..i + 1][..i] == events[..i];
        ghost var step := LegacyCue(chords, Cursor(next, previous), e);
        ghost var before := out;
        if Command(e) == NOTE_ON {
          var note := e.data[1];
          if note == chords[next].trigger {
            if !chords[next].skip {
              var off := LegacyExecute(e.time, chords[previous], NOTE_OFF);
              var on := LegacyExecute(e.time, chords[next], NOTE_ON);
              out := out + (off + on);
              previous := next;
            }
            next := next + 1;
          }
        }
        assert before + [] == before;
        assert (Cursor(next, previous), out) == (step.0, before + step.1);
        i := i + 1;
      }
      if i == |events| {
        assert events[..i] == events;
      }
    }
  }
}
