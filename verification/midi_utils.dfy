/** Note naming (MidiUtils.cpp): a MIDI note printed as a pitch name and an
    octave number, C3 being middle C. */
module MidiUtils {
  import opened Midi
  import opened Results
  import Decimal
  import Chords

  /** `NoteNamePreference`. */
  datatype Preference = Sharp | Flat | Best

  const SHARP_NAMES: seq<string> := ["C", "C#", "D", "D#", "E", "F", "F#", "G", "G#", "A", "A#", "B"]
  const FLAT_NAMES: seq<string> := ["C", "Db", "D", "Eb", "E", "F", "Gb", "G", "Ab", "A", "Bb", "B"]
  const BEST_NAMES: seq<string> := ["C", "C#", "D", "Eb", "E", "F", "F#", "G", "G#", "A", "Bb", "B"]

  /** The name table the preference selects. */
  function Names(preference: Preference): (t: seq<string>)
    ensures |t| == 12
  {
    match preference
    case Sharp => SHARP_NAMES
    case Flat => FLAT_NAMES
    case Best => BEST_NAMES
  }

  /** `streamNoteName`: the name of the pitch class followed by the octave,
      where notes 0 to 11 are octave -2. */
  function NoteName(note: Byte, preference: Preference): (r: string)
    ensures Names(preference)[note % 12] <= r
    ensures |r| > |Names(preference)[note % 12]|
    ensures note < 24 <==> r[|Names(preference)[note % 12]|] == '-'
  {
    Names(preference)[note % 12] + Decimal.IntString(note / 12 - 2)
  }

  /** Pitch classes with a single name read the same in every table. */
  lemma NaturalsAgree(note: Byte, p: Preference, q: Preference)
    requires note % 12 in {0, 2, 4, 5, 7, 9, 11}
    ensures NoteName(note, p) == NoteName(note, q)
  {
  }

  /** The third table takes the sharp of C, F and G and the flat of E and B. */
  lemma BestSpelling(note: Byte)
    ensures note % 12 in {1, 6, 8} ==> NoteName(note, Best) == NoteName(note, Sharp)
    ensures note % 12 in {3, 10} ==> NoteName(note, Best) == NoteName(note, Flat)
  {
  }

  /** The lowest octave is printed as -2, after the name. */
  lemma LowestOctave(note: Byte, p: Preference)
    requires note < 12
    ensures NoteName(note, p) == Names(p)[note] + "-2"
  {
    assert note % 12 == note && note / 12 - 2 == -2;
    assert Decimal.IntString(-2) == "-" + Decimal.Digits(2);
    assert Decimal.Digits(2) == "2";
  }

  lemma MiddleCName(p: Preference)
    ensures NoteName(60, p) == "C3"
  {
    assert Decimal.Digits(3) == "3";
  }

  /** Every entry of every table spells a pitch of that pitch class. */
  lemma {:induction false} TableSpellsClass(p: Preference, k: nat)
    requires k < 12
    ensures |Names(p)[k]| > 0
    ensures var name := Names(p)[k];
      var pitch := Chords.Pitch(name[0], name[1..]);
      && Chords.ValidPitch(pitch)
      && Chords.RootNote(pitch, 0) == k
      && name == Chords.SpellPitch(pitch)
  {
    var name := Names(p)[k];
    if k == 0 {} else if k == 1 {} else if k == 2 {} else if k == 3 {} else if k == 4 {}
    else if k == 5 {} else if k == 6 {} else if k == 7 {} else if k == 8 {} else if k == 9 {}
    else if k == 10 {} else {}
    assert [name[0]] + name[1..] == name;
  }

  /** The spelling a note from 24 on is printed as: its table entry as a
      pitch, in octave `note / 12 - 2`. */
  function Spelling(note: Byte, p: Preference): (n: Chords.NoteSpelling)
    requires 24 <= note <= 127
    ensures Chords.ValidNote(n)
    ensures NoteName(note, p) == Chords.SpellNote(n)
    ensures Chords.RootNote(n.pitch, (n.octave + 2) * 12) == note
  {
    var k := note % 12;
    var octave := note / 12 - 2;
    TableSpellsClass(p, k);
    var name := Names(p)[k];
    var pitch := Chords.Pitch(name[0], name[1..]);
    assert Decimal.IntString(octave) == [Chords.Digit(octave)];
    Chords.NoteSpelling(pitch, octave)
  }

  /** Printing a note from 24 on and reading the name back with the chord
      file's trigger parser gives the note again, whatever the table. */
  lemma {:induction false} NameRoundTrip(note: Byte, p: Preference)
    requires 24 <= note <= 127
    ensures Chords.NoteAndOctave(NoteName(note, p)) == Ok(note)
  {
    Chords.SpelledNoteValue(Spelling(note, p));
  }
}
