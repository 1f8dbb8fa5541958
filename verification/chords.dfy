/** The chord player (chords/ChordPlayerHandler.cpp): a file maps trigger
    notes to chords; each press of the expected trigger silences the chord
    that is sounding and plays the next one. */
module Chords {
  import opened Results
  import opened Midi

  /** Pitch class of each note letter. */
  const LETTERS: map<char, int> := map['A' := 9, 'B' := 11, 'C' := 0, 'D' := 2, 'E' := 4, 'F' := 5, 'G' := 7]
  /** Semitone shift of each alteration. */
  const ALTERATIONS: map<string, int> := map["bb" := -2, "b" := -1, "" := 0, "#" := 1, "##" := 2]
  /** Intervals of each chord kind, from its root. */
  const MODES: map<string, seq<int>> :=
    map["maj" := [0, 4, 7], "dom7" := [0, 4, 7, 10], "min" := [0, 3, 7], "min7" := [0, 3, 7, 10], "sus4" := [0, 5, 7]]

  /** Root note of the chords: `C` with no alteration is MIDI 48. */
  const CHORD_ROOT: int := 48

  // ---------------------------------------------------------------------
  // Spelling: the strings the two regular expressions accept

  /** A letter and an alteration, such as `F#` or `Bbb`. */
  datatype Pitch = Pitch(letter: char, alt: string)

  predicate ValidPitch(p: Pitch) {
    p.letter in LETTERS && p.alt in ALTERATIONS
  }

  function SpellPitch(p: Pitch): string {
    [p.letter] + p.alt
  }

  /** A trigger note: a letter, an optional alteration and an octave digit
      from 0 to 8, with nothing before or after. */
  datatype NoteSpelling = NoteSpelling(pitch: Pitch, octave: nat)

  predicate ValidNote(n: NoteSpelling) {
    ValidPitch(n.pitch) && n.octave <= 8
  }

  function Digit(d: nat): char
    requires d <= 9
  {
    ('0' as int + d) as char
  }

  function SpellNote(n: NoteSpelling): string
    requires n.octave <= 8
  {
    SpellPitch(n.pitch) + [Digit(n.octave)]
  }

  /** A chord: a root pitch, a chord kind, and optionally `/` and a bass
      pitch, with nothing before or after. */
  datatype ChordSpelling = ChordSpelling(root: Pitch, mode: string, bass: Option<Pitch>)

  predicate ValidChord(c: ChordSpelling) {
    ValidPitch(c.root) && c.mode in MODES && (c.bass.Some? ==> ValidPitch(c.bass.value))
  }

  function SpellChord(c: ChordSpelling): string {
    SpellPitch(c.root) + c.mode + KindTail(c.bass)
  }

  // ---------------------------------------------------------------------
  // Parsing

  /** Length of the alteration that starts `s`. An alteration is never
      followed by `#` or `b` in either expression, so the longest one is
      the only one that can lead to a match. */
  function AltLength(s: string): (n: nat)
    ensures n <= |s| && n <= 2 && s[..n] in ALTERATIONS
  {
    if |s| >= 2 && (s[..2] == "##" || s[..2] == "bb") then 2
    else if |s| >= 1 && s[0] == '#' then assert s[..1] == "#"; 1
    else if |s| >= 1 && s[0] == 'b' then assert s[..1] == "b"; 1
    else assert s[..0] == ""; 0
  }

  /** The pitch group pair at the start of `s` and what follows it. */
  function ParsePitch(s: string): (r: Option<(Pitch, string)>)
    ensures r.Some? ==> ValidPitch(r.value.0) && s == SpellPitch(r.value.0) + r.value.1
  {
    if |s| == 0 || s[0] !in LETTERS then None
    else
      var n := AltLength(s[1..]);
      assert s == [s[0]] + s[1..][..n] + s[1..][n..];
      Some((Pitch(s[0], s[1..][..n]), s[1..][n..]))
  }

  /** What may follow an alteration in either expression. */
  predicate FollowsAlteration(rest: string) {
    rest == [] || (rest[0] != '#' && rest[0] != 'b')
  }

  lemma ParseSpelledPitch(p: Pitch, rest: string)
    requires ValidPitch(p) && FollowsAlteration(rest)
    ensures ParsePitch(SpellPitch(p) + rest) == Some((p, rest))
  {
    var s := SpellPitch(p) + rest;
    assert s[0] == p.letter;
    assert s[1..] == p.alt + rest;
    assert p.alt == "" || p.alt == "#" || p.alt == "##" || p.alt == "b" || p.alt == "bb";
    var n := AltLength(p.alt + rest);
    assert (p.alt + rest)[..|p.alt|] == p.alt;
    if |p.alt| == 2 {
      assert n == 2;
    } else if |p.alt| == 1 {
      assert n == 1;
    } else {
      assert n == 0;
    }
    assert (p.alt + rest)[n..] == rest;
  }

  /** A pitch and one octave digit 0-8, nothing after. */
  function ParseNote(s: string): (r: Option<NoteSpelling>)
    ensures r.Some? ==> ValidNote(r.value) && |s| >= 2 && s[|s| - 1] == Digit(r.value.octave)
  {
    match ParsePitch(s)
    case None => None
    case Some((p, rest)) =>
      if |rest| == 1 && '0' <= rest[0] <= '8' then Some(NoteSpelling(p, rest[0] as int - '0' as int))
      else None
  }

  /** The note parser accepts exactly the spelled notes, and reads back the
      letter, alteration and octave they were spelled from. */
  lemma NoteParsing(s: string, n: NoteSpelling)
    ensures ParseNote(s) == Some(n) <==> ValidNote(n) && s == SpellNote(n)
  {
    if ValidNote(n) && s == SpellNote(n) {
      ParseSpelledPitch(n.pitch, [Digit(n.octave)]);
    }
    if ParseNote(s) == Some(n) {
      var rest := ParsePitch(s).value.1;
      assert rest == [Digit(n.octave)];
    }
  }

  /** Length of the chord kind that starts `s`, 0 when none does. */
  function ModeLength(s: string): (n: nat)
    ensures n <= |s| && (n > 0 ==> s[..n] in MODES)
  {
    if |s| >= 4 && s[..4] in MODES then 4
    else if |s| >= 3 && s[..3] in MODES then 3
    else 0
  }

  lemma ModeFollowedBySlash(mode: string, tail: string)
    requires mode in MODES && (tail == [] || tail[0] == '/')
    ensures ModeLength(mode + tail) == |mode|
    ensures FollowsAlteration(mode + tail)
  {
    var s := mode + tail;
    assert s[..|mode|] == mode;
    assert mode == "maj" || mode == "dom7" || mode == "min" || mode == "min7" || mode == "sus4";
    if |mode| == 3 && |s| >= 4 {
      assert s[..4] == mode + [s[3]];
      assert s[3] == '/';
    }
  }

  /** The part of a chord after its root: the kind and the optional bass. */
  function ParseKind(r1: string): (r: Option<(string, Option<Pitch>)>)
  {
    var m := ModeLength(r1);
    if m == 0 then None
    else if m == |r1| then Some((r1[..m], None))
    else if r1[m] != '/' then None
    else
      match ParsePitch(r1[m + 1..])
      case None => None
      case Some((bass, r2)) => if r2 == [] then Some((r1[..m], Some(bass))) else None
  }

  /** A root pitch, a chord kind and an optional `/` and bass pitch. */
  function ParseChord(s: string): (r: Option<ChordSpelling>)
    ensures r.Some? ==> ValidChord(r.value)
  {
    match ParsePitch(s)
    case None => None
    case Some((root, r1)) =>
      match ParseKind(r1)
      case None => None
      case Some((mode, bass)) => Some(ChordSpelling(root, mode, bass))
  }

  /** The spelling of a chord after its root. */
  function KindTail(bass: Option<Pitch>): string {
    if bass.Some? then "/" + SpellPitch(bass.value) else ""
  }

  lemma SpelledKindParses(mode: string, bass: Option<Pitch>)
    requires mode in MODES && (bass.Some? ==> ValidPitch(bass.value))
    ensures ParseKind(mode + KindTail(bass)) == Some((mode, bass))
  {
    if bass.Some? {
      assert mode + KindTail(bass) == mode + "/" + SpellPitch(bass.value);
      SpelledBassParses(mode, bass.value);
    } else {
      ModeFollowedBySlash(mode, []);
      assert mode + KindTail(bass) == mode + [];
      assert mode[..|mode|] == mode;
    }
  }

  lemma SpelledBassParses(mode: string, bass: Pitch)
    requires mode in MODES && ValidPitch(bass)
    ensures ParseKind(mode + "/" + SpellPitch(bass)) == Some((mode, Some(bass)))
  {
    var tail := "/" + SpellPitch(bass);
    var r1 := mode + tail;
    assert mode + "/" + SpellPitch(bass) == r1;
    ModeFollowedBySlash(mode, tail);
    var m := |mode|;
    assert ModeLength(r1) == m && m < |r1| && r1[m] == '/';
    assert r1[..m] == mode;
    assert r1[m + 1..] == SpellPitch(bass) + [];
    ParseSpelledPitch(bass, []);
    assert ParsePitch(r1[m + 1..]) == Some((bass, []));
  }

  lemma SpelledChordParses(c: ChordSpelling)
    requires ValidChord(c)
    ensures ParseChord(SpellChord(c)) == Some(c)
  {
    var r1 := c.mode + KindTail(c.bass);
    assert SpellChord(c) == SpellPitch(c.root) + r1;
    ModeFollowedBySlash(c.mode, KindTail(c.bass));
    ParseSpelledPitch(c.root, r1);
    SpelledKindParses(c.mode, c.bass);
  }

  lemma ParsedKindIsSpelled(r1: string)
    requires ParseKind(r1).Some?
    ensures ParseKind(r1).value.0 in MODES
    ensures ParseKind(r1).value.1.Some? ==> ValidPitch(ParseKind(r1).value.1.value)
    ensures r1 == ParseKind(r1).value.0 + KindTail(ParseKind(r1).value.1)
  {
    var m := ModeLength(r1);
    assert r1 == r1[..m] + r1[m..];
    if m < |r1| {
      var bass := ParsePitch(r1[m + 1..]).value.0;
      assert r1[m + 1..] == SpellPitch(bass);
      assert r1[m..] == "/" + SpellPitch(bass);
    }
  }

  lemma ParsedChordIsSpelled(s: string)
    requires ParseChord(s).Some?
    ensures ValidChord(ParseChord(s).value) && s == SpellChord(ParseChord(s).value)
  {
    var pr := ParsePitch(s).value;
    var kr := ParseKind(pr.1).value;
    var c := ChordSpelling(pr.0, kr.0, kr.1);
    assert ParseChord(s) == Some(c);
    assert ValidChord(c) && s == SpellChord(c) by {
      ParsedKindIsSpelled(pr.1);
      assert s == SpellPitch(pr.0) + (kr.0 + KindTail(kr.1));
      assert SpellChord(c) == SpellPitch(pr.0) + kr.0 + KindTail(kr.1);
    }
  }

  /** The chord parser accepts exactly the spelled chords, and reads back
      root, kind and bass. */
  lemma ChordParsing(s: string, c: ChordSpelling)
    ensures ParseChord(s) == Some(c) <==> ValidChord(c) && s == SpellChord(c)
  {
    if ValidChord(c) && s == SpellChord(c) {
      SpelledChordParses(c);
    }
    if ParseChord(s) == Some(c) {
      ParsedChordIsSpelled(s);
    }
  }

  // ---------------------------------------------------------------------
  // Notes of a trigger and of a chord

  /** `getRootNote`: `root` moved by the letter's pitch class and the
      alteration. */
  function RootNote(p: Pitch, root: int): (r: int)
    requires ValidPitch(p)
    ensures root - 2 <= r <= root + 13
  {
    assert p.letter in {'A', 'B', 'C', 'D', 'E', 'F', 'G'};
    assert p.alt in {"bb", "b", "", "#", "##"};
    root + LETTERS[p.letter] + ALTERATIONS[p.alt]
  }

  /** `getNoteAndOctave`: the MIDI note of a trigger, C3 being middle C
      (MIDI 60); anything else is a parse error. */
  function NoteAndOctave(s: string): (r: Result<Byte>)
    ensures r.Ok? <==> ParseNote(s).Some?
    ensures r.Ok? ==> 22 <= r.value <= 133
    ensures r.Err? ==> r.error == "Failed to parse: " + s
  {
    match ParseNote(s)
    case None => Err("Failed to parse: " + s)
    case Some(n) =>
      NoteParsing(s, n);
      Ok(RootNote(n.pitch, (n.octave + 2) * 12))
  }

  /** A spelled trigger reads back as its pitch in its octave. */
  lemma SpelledNoteValue(n: NoteSpelling)
    requires ValidNote(n)
    ensures NoteAndOctave(SpellNote(n)) == Ok(RootNote(n.pitch, (n.octave + 2) * 12))
  {
    NoteParsing(SpellNote(n), n);
  }

  /** C natural in any octave is a valid trigger spelled `C` and its digit,
      sitting on the octave's base note. */
  lemma NaturalC(octave: nat, base: int)
    requires octave <= 8
    ensures ValidNote(NoteSpelling(Pitch('C', ""), octave))
    ensures SpellNote(NoteSpelling(Pitch('C', ""), octave)) == ['C', Digit(octave)]
    ensures RootNote(Pitch('C', ""), base) == base
  {
    assert 'C' in LETTERS && "" in ALTERATIONS;
    assert LETTERS['C'] == 0 && ALTERATIONS[""] == 0;
  }

  lemma MiddleC()
    ensures NoteAndOctave("C3") == Ok(60)
  {
    NaturalC(3, 60);
    SpelledNoteValue(NoteSpelling(Pitch('C', ""), 3));
    assert ['C', Digit(3)] == "C3";
  }

  /** Raising the octave digit raises the trigger by twelve semitones. */
  lemma OctaveUp(n: NoteSpelling)
    requires ValidNote(n) && n.octave < 8
    ensures NoteAndOctave(SpellNote(n)).Ok?
    ensures NoteAndOctave(SpellNote(NoteSpelling(n.pitch, n.octave + 1))).Ok?
    ensures NoteAndOctave(SpellNote(NoteSpelling(n.pitch, n.octave + 1))).value
         == NoteAndOctave(SpellNote(n)).value + 12
  {
    SpelledNoteValue(n);
    SpelledNoteValue(NoteSpelling(n.pitch, n.octave + 1));
  }

  /** `getAllNotes`: appends the intervals of `mode` above `pos`. */
  method AllNotes(pos: int, mode: string, notes: seq<int>) returns (r: seq<int>)
    requires mode in MODES
    ensures |r| == |notes| + |MODES[mode]|
    ensures r[..|notes|] == notes
    ensures forall i :: 0 <= i < |MODES[mode]| ==> r[|notes| + i] == pos + MODES[mode][i]
  {
    var offsets := MODES[mode];
    r := notes;
    for i := 0 to |offsets|
      invariant |r| == |notes| + i
      invariant r[..|notes|] == notes
      invariant forall j :: 0 <= j < i ==> r[|notes| + j] == pos + offsets[j]
    {
      r := r + [pos + offsets[i]];
    }
  }

  /** The note in the octave below `top` with the pitch class of `note`. */
  function BassBelow(top: int, note: int): (r: int)
    ensures top - 12 <= r < top && (r - note) % 12 == 0
  {
    top - 12 + (note - top) % 12
  }

  lemma OneNotePerOctave(x: int, y: int, lo: int)
    requires lo <= x < lo + 12 && lo <= y < lo + 12 && (x - y) % 12 == 0
    ensures x == y
  {
  }

  /** Every chord kind has three or four intervals, within an octave. */
  lemma IntervalsInOctave(mode: string)
    requires mode in MODES
    ensures 3 <= |MODES[mode]| <= 4
    ensures forall i :: 0 <= i < |MODES[mode]| ==> 0 <= MODES[mode][i] <= 10
  {
    if mode == "maj" {} else if mode == "dom7" {} else if mode == "min" {} else if mode == "min7" {}
    else {
      assert mode in {"maj", "dom7", "min", "min7", "sus4"};
      assert mode == "sus4";
    }
  }

  /** Notes of a chord: the intervals of its kind above its root (between
      MIDI 46 and 61), preceded, when there is a bass, by the bass's pitch
      class in the octave just below the root. */
  function ChordNotes(c: ChordSpelling): (notes: seq<int>)
    requires ValidChord(c)
    ensures |notes| == |MODES[c.mode]| + (if c.bass.Some? then 1 else 0)
    ensures forall i :: 0 <= i < |notes| ==> 34 <= notes[i] <= 71
    ensures c.bass.None? ==> forall i :: 0 <= i < |notes| ==> notes[i] == RootNote(c.root, CHORD_ROOT) + MODES[c.mode][i]
    ensures c.bass.Some? ==>
      && (forall i :: 1 <= i < |notes| ==> notes[i] == RootNote(c.root, CHORD_ROOT) + MODES[c.mode][i - 1])
      && RootNote(c.root, CHORD_ROOT) - 12 <= notes[0] < RootNote(c.root, CHORD_ROOT)
      && (notes[0] - RootNote(c.bass.value, CHORD_ROOT)) % 12 == 0
  {
    var pos1 := RootNote(c.root, CHORD_ROOT);
    IntervalsInOctave(c.mode);
    var triad := Above(pos1, MODES[c.mode]);
    if c.bass.None? then triad
    else [BassBelow(pos1, RootNote(c.bass.value, CHORD_ROOT))] + triad
  }

  /** The notes at the given intervals above `pos1`. */
  function Above(pos1: int, offsets: seq<int>): (notes: seq<int>)
    ensures |notes| == |offsets|
    ensures forall i :: 0 <= i < |notes| ==> notes[i] == pos1 + offsets[i]
  {
    seq(|offsets|, i requires 0 <= i < |offsets| => pos1 + offsets[i])
  }

  /** The bass is the lowest note of a chord, strictly below all others. */
  lemma BassIsLowest(c: ChordSpelling)
    requires ValidChord(c) && c.bass.Some?
    ensures forall i :: 1 <= i < |ChordNotes(c)| ==> ChordNotes(c)[0] < ChordNotes(c)[i]
  {
    var offsets := MODES[c.mode];
    assert c.mode in {"maj", "dom7", "min", "min7", "sus4"};
    assert forall i :: 0 <= i < |offsets| ==> 0 <= offsets[i];
  }

  lemma WithBass(c: ChordSpelling)
    requires ValidChord(c) && c.bass.Some?
    ensures ChordNotes(c)
         == [BassBelow(RootNote(c.root, CHORD_ROOT), RootNote(c.bass.value, CHORD_ROOT))] + ChordNotes(c.(bass := None))
  {
  }

  lemma Triad(c: ChordSpelling, notes: seq<int>)
    requires ValidChord(c) && c.bass.None? && |notes| == |MODES[c.mode]|
    requires forall i :: 0 <= i < |notes| ==> notes[i] == RootNote(c.root, CHORD_ROOT) + MODES[c.mode][i]
    ensures notes == ChordNotes(c)
  {
  }

  /** The loop of `createChord` that brings the bass below the root. */
  method BassNote(pos1: int, note2: int) returns (pos2: int)
    requires note2 + 12 >= pos1 - 12
    ensures pos2 == BassBelow(pos1, note2)
  {
    pos2 := note2 + 12;
    while pos2 >= pos1
      invariant pos2 >= pos1 - 12
      invariant (pos2 - note2) % 12 == 0
      decreases pos2 - pos1 + 12
    {
      pos2 := pos2 - 12;
    }
    OneNotePerOctave(pos2, BassBelow(pos1, note2), pos1 - 12);
  }

  /** `createChord`: the notes of a chord string, or a parse error. */
  method CreateChord(s: string) returns (r: Result<seq<Byte>>)
    ensures r.Ok? <==> ParseChord(s).Some?
    ensures r.Ok? ==> r.value == ChordNotes(ParseChord(s).value)
    ensures r.Err? ==> r.error == "Failed to parse: " + s
  {
    var parsed := ParseChord(s);
    if parsed.None? {
      return Err("Failed to parse: " + s);
    }
    var c := parsed.value;
    ParsedChordIsSpelled(s);
    var pos1 := RootNote(c.root, CHORD_ROOT);
    var notes := AllNotes(pos1, c.mode, []);
    Triad(c.(bass := None), notes);
    if c.bass.Some? {
      var pos2 := BassNote(pos1, RootNote(c.bass.value, CHORD_ROOT));
      WithBass(c);
      notes := [pos2] + notes;
    }
    var bytes: seq<Byte> := notes;
    return Ok(bytes);
  }

  // ---------------------------------------------------------------------
  // The chord file

  /** Position of the first `c` in `s`. */
  function IndexOf(s: string, c: char): (k: nat)
    requires c in s
    ensures k < |s| && s[k] == c && c !in s[..k]
  {
    if s[0] == c then 0
    else
      assert c in s[1..] by { assert s == [s[0]] + s[1..]; }
      var k := IndexOf(s[1..], c);
      assert s[..k + 1] == [s[0]] + s[1..][..k];
      k + 1
  }

  /** `boost::split` on one separator character: the pieces between
      separators, empty ones included. */
  function Split(s: string, sep: char): (r: seq<string>)
    ensures |r| == multiset(s)[sep] + 1
    ensures forall i :: 0 <= i < |r| ==> sep !in r[i]
    decreases |s|
  {
    if sep !in s then [s]
    else
      var k := IndexOf(s, sep);
      assert s == s[..k] + [sep] + s[k + 1..];
      assert multiset(s) == multiset(s[..k]) + multiset{sep} + multiset(s[k + 1..]);
      assert multiset(s[..k])[sep] == 0;
      [s[..k]] + Split(s[k + 1..], sep)
  }

  function Join(pieces: seq<string>, sep: char): string
    requires |pieces| >= 1
  {
    if |pieces| == 1 then pieces[0] else pieces[0] + [sep] + Join(pieces[1..], sep)
  }

  /** Splitting loses nothing: joining the pieces gives the line back. */
  lemma {:induction false} JoinSplit(s: string, sep: char)
    ensures Join(Split(s, sep), sep) == s
    decreases |s|
  {
    if sep in s {
      var k := IndexOf(s, sep);
      var rest := Split(s[k + 1..], sep);
      JoinSplit(s[k + 1..], sep);
      assert Split(s, sep)[1..] == rest;
      assert s == s[..k] + [sep] + s[k + 1..];
    }
  }

  /** `ChordData`: a trigger, whether the entry only advances the cursor, and
      the chord's notes. */
  datatype ChordData = ChordData(trigger: Byte, skip: bool, notes: seq<Byte>)

  /** The first entry, never matched: a trigger of -1 read as a byte. */
  const SENTINEL: ChordData := ChordData(255, false, [])

  predicate IsBlank(line: string) {
    line == [] || line[0] == '#'
  }

  /** A line of exactly two fields whose second is `SKIP`. */
  predicate IsSkipLine(line: string) {
    var tokens := Split(line, ',');
    |tokens| == 2 && tokens[1] == "SKIP"
  }

  /** A line of exactly two fields whose second is a chord to be read:
      neither empty nor `SKIP`. */
  predicate HasChordField(line: string) {
    var tokens := Split(line, ',');
    |tokens| == 2 && tokens[1] != "" && tokens[1] != "SKIP"
  }

  /** One line of the file: nothing for an empty or comment line, otherwise
      an entry whose trigger is the first comma-separated field; a second
      and last field is `SKIP`, empty, or a chord. Any other number of
      fields gives an entry without notes. */
  function ParseLine(line: string): (r: Result<Option<ChordData>>)
    ensures IsBlank(line) ==> r == Ok(None)
    ensures r.Ok? ==> (r.value.None? <==> IsBlank(line))
    ensures r.Ok? && r.value.Some? ==> NoteAndOctave(Split(line, ',')[0]) == Ok(r.value.value.trigger)
  {
    if IsBlank(line) then Ok(None)
    else
      var tokens := Split(line, ',');
      var trigger :- NoteAndOctave(tokens[0]);
      if |tokens| != 2 || tokens[1] == "" then Ok(Some(ChordData(trigger, false, [])))
      else if tokens[1] == "SKIP" then Ok(Some(ChordData(trigger, true, [])))
      else
        match ParseChord(tokens[1])
        case None => Err("Failed to parse: " + tokens[1])
        case Some(c) =>
          ParsedChordIsSpelled(tokens[1]);
          Ok(Some(ChordData(trigger, false, ChordNotes(c))))
  }

  /** The rule for the fields of a non-blank line: the line reads iff its
      trigger does and, when the second of two fields is a chord, that chord
      does; the error names the field that failed; the entry skips iff the
      second of two fields is `SKIP`, and has the chord's notes when it is a
      chord and no notes otherwise. */
  lemma ParseLineFields(line: string)
    requires !IsBlank(line)
    ensures var tokens, r := Split(line, ','), ParseLine(line);
      && (r.Ok? <==> NoteAndOctave(tokens[0]).Ok? && (HasChordField(line) ==> ParseChord(tokens[1]).Some?))
      && (r.Ok? ==> r.value.Some? && (r.value.value.skip <==> IsSkipLine(line)))
      && (r.Ok? ==> r.value.value.notes == if HasChordField(line) then ChordNotes(ParseChord(tokens[1]).value) else [])
      && (r.Err? ==> r.error == "Failed to parse: " + if NoteAndOctave(tokens[0]).Err? then tokens[0] else tokens[1])
  {
  }

  function CountEntries(lines: seq<string>): nat
  {
    if lines == [] then 0
    else CountEntries(lines[..|lines| - 1]) + (if IsBlank(lines[|lines| - 1]) then 0 else 1)
  }

  /** `populateChords` over the lines of the file: the sentinel, then one
      entry per non-blank line, or the first error. */
  function ChordFile(lines: seq<string>): (r: Result<seq<ChordData>>)
    ensures r.Ok? ==> |r.value| == 1 + CountEntries(lines) && r.value[0] == SENTINEL
    decreases |lines|
  {
    if lines == [] then Ok([SENTINEL])
    else
      var prev :- ChordFile(lines[..|lines| - 1]);
      var entry :- ParseLine(lines[|lines| - 1]);
      Ok(if entry.Some? then prev + [entry.value] else prev)
  }

  /** The file reads exactly when every line does. */
  lemma {:induction false} ChordFileOk(lines: seq<string>)
    ensures ChordFile(lines).Ok? <==> forall i :: 0 <= i < |lines| ==> ParseLine(lines[i]).Ok?
    decreases |lines|
  {
    if lines != [] {
      var n := |lines| - 1;
      var init := lines[..n];
      ChordFileOk(init);
      assert forall i :: 0 <= i < n ==> init[i] == lines[i];
      ChordFileOkStep(lines);
      assert (forall i :: 0 <= i < |lines| ==> ParseLine(lines[i]).Ok?) <==>
        (forall i :: 0 <= i < n ==> ParseLine(init[i]).Ok?) && ParseLine(lines[n]).Ok?;
    }
  }

  /** One more line reads without error exactly when the earlier lines and it do. */
  lemma ChordFileOkStep(lines: seq<string>)
    requires |lines| > 0
    ensures ChordFile(lines).Ok? <==>
      ChordFile(lines[..|lines| - 1]).Ok? && ParseLine(lines[|lines| - 1]).Ok?
  {
  }

  /** Reading one more line keeps the entries read so far. */
  lemma ChordFileGrows(lines: seq<string>)
    requires |lines| > 0 && ChordFile(lines).Ok?
    ensures ChordFile(lines[..|lines| - 1]).Ok?
    ensures ChordFile(lines[..|lines| - 1]).value <= ChordFile(lines).value
  {
  }

  /** The last line, when not blank, gives the last entry. */
  lemma LastLineEntry(lines: seq<string>)
    requires |lines| > 0 && ChordFile(lines).Ok? && !IsBlank(lines[|lines| - 1])
    ensures ParseLine(lines[|lines| - 1]).Ok? && CountEntries(lines) >= 1
    ensures ChordFile(lines).value[CountEntries(lines)] == ParseLine(lines[|lines| - 1]).value.value
  {
  }

  /** The entries read from the first `j` lines begin the entries of the file. */
  lemma {:induction false} FilePrefix(lines: seq<string>, j: nat)
    requires ChordFile(lines).Ok? && j <= |lines|
    ensures ChordFile(lines[..j]).Ok? && ChordFile(lines[..j]).value <= ChordFile(lines).value
    decreases |lines|
  {
    if j < |lines| {
      var init := lines[..|lines| - 1];
      ChordFileGrows(lines);
      FilePrefix(init, j);
      assert init[..j] == lines[..j];
    } else {
      assert lines[..j] == lines;
    }
  }

  /** The entry of a non-blank line is the one at its rank among the
      non-blank lines, counted after the sentinel. */
  lemma {:induction false} EntryOfLine(lines: seq<string>, i: nat)
    requires ChordFile(lines).Ok? && i < |lines| && !IsBlank(lines[i])
    ensures ParseLine(lines[i]).Ok? && 1 <= CountEntries(lines[..i + 1]) <= CountEntries(lines)
    ensures ChordFile(lines).value[CountEntries(lines[..i + 1])] == ParseLine(lines[i]).value.value
  {
    var upTo := lines[..i + 1];
    FilePrefix(lines, i + 1);
    assert upTo[|upTo| - 1] == lines[i];
    LastLineEntry(upTo);
    var all, prefix, k := ChordFile(lines).value, ChordFile(upTo).value, CountEntries(upTo);
    assert |prefix| == 1 + k && |all| == 1 + CountEntries(lines) && |prefix| <= |all|;
    PrefixIndex(all, prefix, k);
  }

  /** Every non-blank line of a file that reads has its entry at its rank. */
  lemma ChordFileEntries(lines: seq<string>)
    requires ChordFile(lines).Ok?
    ensures forall i :: 0 <= i < |lines| && !IsBlank(lines[i]) ==>
      && ParseLine(lines[i]).Ok?
      && 1 <= CountEntries(lines[..i + 1]) <= CountEntries(lines)
      && ChordFile(lines).value[CountEntries(lines[..i + 1])] == ParseLine(lines[i]).value.value
  {
    forall i | 0 <= i < |lines| && !IsBlank(lines[i])
      ensures ParseLine(lines[i]).Ok? && 1 <= CountEntries(lines[..i + 1]) <= CountEntries(lines)
      ensures ChordFile(lines).value[CountEntries(lines[..i + 1])] == ParseLine(lines[i]).value.value
    {
      EntryOfLine(lines, i);
    }
  }

  /** A line that fails to parse fails the whole file. */
  lemma {:induction false} FirstErrorWins(lines: seq<string>, k: nat)
    requires k <= |lines| && ChordFile(lines[..k]).Err?
    ensures ChordFile(lines) == ChordFile(lines[..k])
    decreases |lines| - k
  {
    if k < |lines| {
      assert lines[..k + 1][..k] == lines[..k];
      FirstErrorWins(lines, k + 1);
    } else {
      assert lines[..k] == lines;
    }
  }

  /** The body of the line loop of `populateChords`. */
  method ReadLine(line: string) returns (r: Result<Option<ChordData>>)
    ensures r == ParseLine(line)
  {
    if line == [] || line[0] == '#' {
      return Ok(None);
    }
    var tokens := Split(line, ',');
    var trigger := NoteAndOctave(tokens[0]);
    if trigger.Err? {
      return Err(trigger.error);
    }
    var data := ChordData(trigger.value, false, []);
    if |tokens| == 2 {
      var chord := tokens[1];
      if chord == "SKIP" {
        data := data.(skip := true);
      } else if chord != [] {
        var notes := CreateChord(chord);
        if notes.Err? {
          return Err(notes.error);
        }
        data := data.(notes := notes.value);
      }
    }
    return Ok(Some(data));
  }

  lemma ChordFileStep(lines: seq<string>, i: nat)
    requires i < |lines| && ChordFile(lines[..i]).Ok?
    ensures ParseLine(lines[i]).Err? ==> ChordFile(lines[..i + 1]) == Err(ParseLine(lines[i]).error)
    ensures ParseLine(lines[i]).Ok? ==>
      var prev, entry := ChordFile(lines[..i]).value, ParseLine(lines[i]).value;
      ChordFile(lines[..i + 1]) == Ok(if entry.Some? then prev + [entry.value] else prev)
  {
    assert lines[..i + 1][..i] == lines[..i];
  }

  method PopulateChords(lines: seq<string>) returns (r: Result<seq<ChordData>>)
    ensures r == ChordFile(lines)
  {
    var chords := [SENTINEL];
    var i := 0;
    while i < |lines|
      invariant 0 <= i <= |lines|
      invariant ChordFile(lines[..i]) == Ok(chords)
    {
      ChordFileStep(lines, i);
      var entry := ReadLine(lines[i]);
      if entry.Err? {
        FirstErrorWins(lines, i + 1);
        return Err(entry.error);
      }
      if entry.value.Some? {
        chords := chords + [entry.value.value];
      }
      i := i + 1;
    }
    assert lines[..i] == lines;
    return Ok(chords);
  }

  // ---------------------------------------------------------------------
  // Playing

  /** The velocity written: the configured one kept to 7 bits, or the
      input's when the configured one is 0. */
  function ActualVelocity(velocity: int, input: Byte): (v: Byte)
    ensures velocity == 0 ==> v == input
    ensures velocity != 0 ==> v < 128 && (v - velocity) % 128 == 0
  {
    if velocity == 0 then input else velocity % 128
  }

  /** One 3-byte message per note, all at `time`. */
  function Voicing(notes: seq<Byte>, cmd: Byte, velocity: Byte, time: Frame): (r: seq<Written>)
    ensures |r| == |notes|
    ensures forall i :: 0 <= i < |r| ==> r[i].offset == time && r[i].data == [cmd, notes[i], velocity]
  {
    seq(|notes|, i requires 0 <= i < |notes| => Written(time, [cmd, notes[i], velocity]))
  }

  /** `execute`: plays or silences the notes of an entry. */
  method Execute(velocity: int, time: Frame, inputVelocity: Byte, data: ChordData, cmd: Byte)
    returns (w: seq<Written>)
    ensures w == Voicing(data.notes, cmd, ActualVelocity(velocity, inputVelocity), time)
  {
    var v := if velocity == 0 then inputVelocity else velocity % 128;
    w := [];
    for i := 0 to |data.notes|
      invariant w == Voicing(data.notes[..i], cmd, v, time)
    {
      w := w + [Written(time, [cmd, data.notes[i], v])];
    }
    assert data.notes[..|data.notes|] == data.notes;
  }

  /** Position in the file: the entry whose trigger is awaited and the
      entry that is sounding. */
  datatype Cursor = Cursor(next: nat, previous: nat)

  predicate CursorValid(chords: seq<ChordData>, c: Cursor) {
    c.previous < c.next <= |chords|
  }

  /** One event of the rolling branch of `process`. */
  function Cue(chords: seq<ChordData>, velocity: int, c: Cursor, e: RawEvent): (r: (Cursor, seq<Written>))
    requires CursorValid(chords, c) && ValidEvent(e)
    ensures CursorValid(chords, r.0)
    ensures r.0.next == c.next || r.0.next == c.next + 1
    ensures c.next == |chords| ==> r == (c, [])
    ensures r.0.next == c.next + 1 <==>
      c.next < |chords| && IsNoteOn(e) && e.data[2] > 0 && e.data[1] == chords[c.next].trigger
    ensures r.0.next == c.next ==> r == (c, [])
    ensures r.0.next == c.next + 1 && chords[c.next].skip ==> r == (Cursor(c.next + 1, c.previous), [])
    ensures r.0.next == c.next + 1 && !chords[c.next].skip ==>
      && r.0 == Cursor(c.next + 1, c.next)
      && r.1 == Voicing(chords[c.previous].notes, NOTE_OFF, ActualVelocity(velocity, e.data[2]), e.time)
              + Voicing(chords[c.next].notes, NOTE_ON, ActualVelocity(velocity, e.data[2]), e.time)
  {
    if c.next == |chords| then (c, [])
    else if IsNoteOn(e) && e.data[2] > 0 && e.data[1] == chords[c.next].trigger then
      var next := chords[c.next];
      if next.skip then (Cursor(c.next + 1, c.previous), [])
      else
        var v := ActualVelocity(velocity, e.data[2]);
        (Cursor(c.next + 1, c.next),
         Voicing(chords[c.previous].notes, NOTE_OFF, v, e.time) + Voicing(next.notes, NOTE_ON, v, e.time))
    else (c, [])
  }

  /** The rolling branch of `process` over a whole block. */
  function Run(chords: seq<ChordData>, velocity: int, c: Cursor, events: seq<RawEvent>): (r: (Cursor, seq<Written>))
    requires CursorValid(chords, c) && ValidEvents(events)
    ensures CursorValid(chords, r.0)
    ensures c.next <= r.0.next <= c.next + |events|
    ensures r.0.next == c.next ==> r == (c, [])
    decreases |events|
  {
    if events == [] then (c, [])
    else
      var prev := Run(chords, velocity, c, events[..|events| - 1]);
      var last := Cue(chords, velocity, prev.0, events[|events| - 1]);
      assert last.0.next == c.next ==> prev == (c, []) && last == (c, []) && prev.1 + last.1 == [];
      (last.0, prev.1 + last.1)
  }

  /** A block with one more event plays that event from where the block
      left off. */
  lemma RunStep(chords: seq<ChordData>, velocity: int, c: Cursor, init: seq<RawEvent>, e: RawEvent)
    requires CursorValid(chords, c) && ValidEvents(init) && ValidEvent(e)
    ensures ValidEvents(init + [e])
    ensures Run(chords, velocity, c, init + [e])
         == (Cue(chords, velocity, Run(chords, velocity, c, init).0, e).0,
             Run(chords, velocity, c, init).1 + Cue(chords, velocity, Run(chords, velocity, c, init).0, e).1)
  {
    assert ValidEvents(init + [e]) by {
      forall i | 0 <= i < |init + [e]| ensures (init + [e])[i] == if i < |init| then init[i] else e {}
    }
    assert (init + [e])[..|init + [e]| - 1] == init;
  }

  /** A block split in two plays as its first part followed by its second
      part from where the first left off: the output is the outputs of the
      events, one after another, in input order. */
  lemma {:induction false} RunConcat(chords: seq<ChordData>, velocity: int, c: Cursor, a: seq<RawEvent>, b: seq<RawEvent>)
    requires CursorValid(chords, c) && ValidEvents(a) && ValidEvents(b)
    ensures ValidEvents(a + b)
    ensures var first := Run(chords, velocity, c, a);
      var second := Run(chords, velocity, first.0, b);
      Run(chords, velocity, c, a + b) == (second.0, first.1 + second.1)
    decreases |b|
  {
    var first := Run(chords, velocity, c, a);
    if b == [] {
      assert a + b == a;
      assert first.1 + [] == first.1;
    } else {
      var b', e := b[..|b| - 1], b[|b| - 1];
      assert ValidEvents(b') && ValidEvent(e);
      AppendLast([], b);
      AppendLast(a, b);
      RunConcat(chords, velocity, c, a, b');
      RunStep(chords, velocity, first.0, b', e);
      RunStep(chords, velocity, c, a + b', e);
      var mid := Run(chords, velocity, first.0, b');
      AppendAssoc(first.1, mid.1, Cue(chords, velocity, mid.0, e).1);
    }
  }

  /** Once the last entry has been played the loop stops: later events
      change nothing and write nothing. */
  lemma {:induction false} FinishedIgnoresRest(chords: seq<ChordData>, velocity: int, c: Cursor, a: seq<RawEvent>, b: seq<RawEvent>)
    requires CursorValid(chords, c) && ValidEvents(a) && ValidEvents(b)
    requires Run(chords, velocity, c, a).0.next == |chords|
    ensures ValidEvents(a + b)
    ensures Run(chords, velocity, c, a + b) == Run(chords, velocity, c, a)
    decreases |b|
  {
    assert ValidEvents(a + b) by {
      forall i | 0 <= i < |a + b| ensures (a + b)[i] == if i < |a| then a[i] else b[i - |a|] {}
    }
    if b == [] {
      assert a + b == a;
    } else {
      var b' := b[..|b| - 1];
      assert (a + b)[..|a + b| - 1] == a + b';
      FinishedIgnoresRest(chords, velocity, c, a, b');
      var p := Run(chords, velocity, c, a + b');
      var last := Cue(chords, velocity, p.0, (a + b)[|a + b| - 1]);
      assert last == (p.0, []);
      assert p.1 + last.1 == p.1;
    }
  }

  /** A press of the awaited trigger. */
  function Press(chords: seq<ChordData>, k: nat): (e: RawEvent)
    requires k < |chords| && chords[k].trigger < 128
    ensures ValidEvent(e) && IsNoteOn(e) && e.data[1] == chords[k].trigger && e.data[2] > 0
  {
    RawEvent(0, [NOTE_ON, chords[k].trigger, 100])
  }

  /** Pressing the triggers of the entries in file order walks through the
      whole file, one entry per press. */
  lemma {:induction false} PressesWalkTheFile(chords: seq<ChordData>, velocity: int, c: Cursor, n: nat)
    requires CursorValid(chords, c) && c.next + n <= |chords|
    requires forall k :: c.next <= k < |chords| ==> chords[k].trigger < 128
    ensures ValidEvents(seq(n, i requires 0 <= i < n => Press(chords, c.next + i)))
    ensures Run(chords, velocity, c, seq(n, i requires 0 <= i < n => Press(chords, c.next + i))).0.next == c.next + n
    decreases n
  {
    var events := seq(n, i requires 0 <= i < n => Press(chords, c.next + i));
    assert ValidEvents(events) by {
      forall i | 0 <= i < n ensures ValidEvent(events[i]) {
        assert events[i] == Press(chords, c.next + i);
      }
    }
    if n > 0 {
      var init, e := seq(n - 1, i requires 0 <= i < n - 1 => Press(chords, c.next + i)), Press(chords, c.next + n - 1);
      assert events == init + [e] && ValidEvent(e) by {
        assert events[n - 1] == e;
      }
      PressesWalkTheFile(chords, velocity, c, n - 1);
      RunStep(chords, velocity, c, init, e);
      var p := Run(chords, velocity, c, init);
      assert Cue(chords, velocity, p.0, e).0.next == c.next + n;
    }
  }

  /** `process` for one block: a stop silences the sounding entry (at time 0,
      with 80 standing for the input velocity) and rewinds to the first
      entry; a rolling transport follows the triggers. */
  function Block(chords: seq<ChordData>, velocity: int, previousState: TransportState, c: Cursor,
                 state: TransportState, events: seq<RawEvent>): (r: (Cursor, seq<Written>))
    requires CursorValid(chords, c) && ValidEvents(events) && |chords| >= 1
    ensures CursorValid(chords, r.0)
    ensures state == Stopped && previousState != Stopped ==>
      r == (Cursor(1, 0), Voicing(chords[c.previous].notes, NOTE_OFF, ActualVelocity(velocity, 80), 0))
    ensures state == Rolling ==> r == Run(chords, velocity, c, events)
    ensures state != Rolling && !(state == Stopped && previousState != Stopped) ==> r == (c, [])
  {
    match state
    case Stopped =>
      if previousState != Stopped then
        (Cursor(1, 0), Voicing(chords[c.previous].notes, NOTE_OFF, ActualVelocity(velocity, 80), 0))
      else (c, [])
    case Rolling => Run(chords, velocity, c, events)
    case _ => (c, [])
  }

  /** `ChordPlayerHandler`. The entries are read once, by the constructor. */
  class ChordPlayer {
    const chords: seq<ChordData>
    const velocity: int
    var previousState: TransportState
    var next: nat
    var previous: nat

    ghost predicate Valid()
      reads this
    {
      |chords| >= 1 && CursorValid(chords, Cursor(next, previous))
    }

    constructor (chords: seq<ChordData>, velocity: int)
      requires |chords| >= 1
      ensures Valid()
      ensures this.chords == chords && this.velocity == velocity
      ensures previousState == Stopped && next == 1 && previous == 0
    {
      this.chords := chords;
      this.velocity := velocity;
      previousState := Stopped;
      next := 1;
      previous := 0;
    }

    /** `reset`: the sentinel is sounding and the first entry awaited. */
    method Reset()
      requires |chords| >= 1
      modifies this
      ensures Valid() && next == 1 && previous == 0
      ensures previousState == old(previousState)
    {
      previous := 0;
      next := 1;
    }

    method Process(state: TransportState, events: seq<RawEvent>) returns (out: seq<Written>)
      requires Valid() && ValidEvents(events)
      modifies this
      ensures Valid()
      ensures (Cursor(next, previous), out)
           == Block(chords, velocity, old(previousState), Cursor(old(next), old(previous)), state, events)
      ensures previousState == state
    {
      out := [];
      if state == Stopped {
        if previousState != state {
          out := Execute(velocity, 0, 80, chords[previous], NOTE_OFF);
          Reset();
        }
      } else if state == Rolling {
        ghost var start := Cursor(next, previous);
        var i := 0;
        while i < |events|
          invariant 0 <= i <= |events| && Valid()
          invariant (Cursor(next, previous), out) == Run(chords, velocity, start, events[..i])
        {
          if next == |chords| {
            FinishedIgnoresRest(chords, velocity, start, events[..i], events[i..]);
            assert events[..i] + events[i..] == events;
            break;
          }
          var e := events[i];
          assert events[..i + 1][..i] == events[..i];
          ghost var step := Cue(chords, velocity, Cursor(next, previous), e);
          ghost var before := out;
          if Command(e) == NOTE_ON {
            var v := e.data[2];
            if v > 0 {
              var note := e.data[1];
              if note == chords[next].trigger {
                if !chords[next].skip {
                  var off := Execute(velocity, e.time, v, chords[previous], NOTE_OFF);
                  var on := Execute(velocity, e.time, v, chords[next], NOTE_ON);
                  out := out + (off + on);
                  previous := next;
                }
                next := next + 1;
              }
            }
          }
          assert before + [] == before;
          assert (Cursor(next, previous), out) == (step.0, before + step.1);
          i := i + 1;
        }
        if i == |events| {
          assert events[..i] == events;
        }
      }
      previousState := state;
    }
  }

  /** The constructor's reading of the file: a player at the first entry,
      or the error that `populateChords` throws. */
  method Open(lines: seq<string>, velocity: int) returns (r: Result<ChordPlayer>)
    ensures r.Ok? <==> ChordFile(lines).Ok?
    ensures r.Err? ==> r.error == ChordFile(lines).error
    ensures r.Ok? ==> fresh(r.value) && r.value.Valid() && r.value.chords == ChordFile(lines).value
    ensures r.Ok? ==> r.value.next == 1 && r.value.previous == 0 && r.value.previousState == Stopped
  {
    var chords := PopulateChords(lines);
    if chords.Err? {
      return Err(chords.error);
    }
    var player := new ChordPlayer(chords.value, velocity);
    return Ok(player);
  }
}
