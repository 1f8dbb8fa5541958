/** The melody player (player/PlayerHandler.cpp): a melody of chords is
    turned once into a time-sorted list of note events, which is replayed
    against the transport position block by block. */
module Player {
  import opened Midi
  import opened MidiEvents
  import opened TimeOrder
  import opened Drain

  /** `Player::Chord`: MIDI note numbers and a duration in beats. */
  datatype Chord = Chord(notes: seq<nat>, duration: nat)

  /** `Player::Melody`: one chord per beat position, the tempo in beats
      per minute, the fraction of a chord that sounds, and a cycle of
      velocities indexed by beat. */
  datatype Melody = Melody(chords: seq<Chord>, tempo: nat, legatoCoeff: real, velocity: seq<nat>)

  /** `getVelocity`: the velocity list is a cycle indexed by beat (an
      empty list is a division by zero in the source). */
  function GetVelocity(beat: nat, velocity: seq<nat>): (r: nat)
    requires |velocity| > 0
    ensures r in velocity
    ensures beat < |velocity| ==> r == velocity[beat]
  {
    velocity[beat % |velocity|]
  }

  /** The velocity pattern repeats with the length of the list. */
  lemma VelocityCycles(beat: nat, velocity: seq<nat>)
    requires |velocity| > 0
    ensures GetVelocity(beat + |velocity|, velocity) == GetVelocity(beat, velocity)
  {
    var n := |velocity|;
    ModUnique(beat + n, n, beat / n + 1, beat % n);
  }

  /** The remainder is the one of any quotient-remainder decomposition. */
  lemma ModUnique(x: nat, n: nat, q: int, r: int)
    requires 0 <= r < n && x == q * n + r
    ensures x % n == r
  {
    var k := q - x / n;
    assert k * n == x % n - r;
    MultipleBound(k, n);
  }

  lemma MultipleBound(k: int, n: int)
    requires n >= 0
    ensures k > 0 ==> k * n >= n
    ensures k < 0 ==> k * n <= -n
  {
  }

  lemma MulLeft(x: nat, y: nat, c: nat)
    requires x <= y
    ensures x * c <= y * c
  {
  }

  lemma MulCancel(x: int, y: int, t: nat)
    requires t > 0 && x * t < y * t
    ensures x < y
  {
  }

  /** What `processMelody` needs: as soon as one chord is played, a
      non-zero tempo and a non-empty velocity list (both are divisors), and
      a legato coefficient that keeps the note-off time non-negative. */
  predicate Playable(m: Melody, firstBeat: nat) {
    && m.legatoCoeff >= 0.0
    && (|m.chords| > firstBeat ==> m.tempo > 0 && |m.velocity| > 0)
  }

  /** The frame of a beat: `beats * 60 * sampleRate / tempo`, rounded down. */
  function FrameOf(beats: nat, sampleRate: nat, tempo: nat): (r: nat)
    requires tempo > 0
    ensures r * tempo <= beats * 60 * sampleRate < (r + 1) * tempo
  {
    beats * 60 * sampleRate / tempo
  }

  /** Later beats never start earlier. */
  lemma FrameOfMonotonic(a: nat, b: nat, sampleRate: nat, tempo: nat)
    requires tempo > 0 && a <= b
    ensures FrameOf(a, sampleRate, tempo) <= FrameOf(b, sampleRate, tempo)
  {
    var fa, fb := FrameOf(a, sampleRate, tempo), FrameOf(b, sampleRate, tempo);
    MulLeft(a, b, 60 * sampleRate);
    assert a * 60 * sampleRate == a * (60 * sampleRate) && b * 60 * sampleRate == b * (60 * sampleRate);
    MulCancel(fa, fb + 1, tempo);
  }

  /** The note-off time: `start + (end - start) * legatoCoeff`, converted
      back from `double` by truncation. */
  function AdjustedEnd(start: nat, end: nat, legatoCoeff: real): (r: nat)
    requires start <= end && legatoCoeff >= 0.0
    ensures start <= r
    ensures legatoCoeff <= 1.0 ==> r <= end
  {
    var x := start as real + (end - start) as real * legatoCoeff;
    ScaleBounds((end - start) as real, legatoCoeff);
    Trunc(x)
  }

  lemma ScaleBounds(d: real, c: real)
    requires d >= 0.0 && c >= 0.0
    ensures d * c >= 0.0
    ensures c <= 1.0 ==> d * c <= d
  {
    if c <= 1.0 {
      assert d * c + d * (1.0 - c) == d;
      assert d * (1.0 - c) >= 0.0;
    }
  }

  /** The events of one chord: for each note in order, a note-on at `start`
      and a note-off at `stop`, with the chord's velocity. The frame times
      are narrowed to `jack_nframes_t` and the note and velocity to bytes. */
  function NoteEvents(notes: seq<nat>, start: nat, stop: nat, velocity: nat): (r: seq<MidiEvent>)
    ensures |r| == 2 * |notes|
    ensures forall i :: 0 <= i < |r| ==>
      |r[i].data| == 3 && r[i].data[0] in {NOTE_ON, NOTE_OFF} && r[i].data[2] == ToByte(velocity)
    ensures forall i :: 0 <= i < |notes| ==>
      && r[2 * i] == NoteEvent(Wrap(start), NOTE_ON, ToByte(notes[i]), ToByte(velocity))
      && r[2 * i + 1] == NoteEvent(Wrap(stop), NOTE_OFF, ToByte(notes[i]), ToByte(velocity))
    decreases |notes|
  {
    if notes == [] then []
    else
      var n := notes[|notes| - 1];
      NoteEvents(notes[..|notes| - 1], start, stop, velocity)
        + [NoteEvent(Wrap(start), NOTE_ON, ToByte(n), ToByte(velocity)),
           NoteEvent(Wrap(stop), NOTE_OFF, ToByte(n), ToByte(velocity))]
  }

  /** Start and note-off frame of the chord at `beat`, counted from
      `firstBeat`. */
  function Span(m: Melody, sampleRate: nat, firstBeat: nat, beat: nat): (r: (nat, nat))
    requires Playable(m, firstBeat) && firstBeat <= beat < |m.chords|
    ensures r.0 <= r.1
    ensures m.legatoCoeff <= 1.0 ==>
      r.1 <= FrameOf(beat - firstBeat + m.chords[beat].duration, sampleRate, m.tempo)
  {
    var adjBeat := beat - firstBeat;
    var start := FrameOf(adjBeat, sampleRate, m.tempo);
    var end := FrameOf(adjBeat + m.chords[beat].duration, sampleRate, m.tempo);
    FrameOfMonotonic(adjBeat, adjBeat + m.chords[beat].duration, sampleRate, m.tempo);
    (start, AdjustedEnd(start, end, m.legatoCoeff))
  }

  /** The events of the chord at `beat`: none before `firstBeat`. */
  function ChordEvents(m: Melody, sampleRate: nat, firstBeat: nat, beat: nat): (r: seq<MidiEvent>)
    requires Playable(m, firstBeat) && beat < |m.chords|
    ensures beat < firstBeat ==> r == []
    ensures beat >= firstBeat ==> |r| == 2 * |m.chords[beat].notes|
    ensures forall i :: 0 <= i < |r| ==>
      |r[i].data| == 3 && r[i].data[0] in {NOTE_ON, NOTE_OFF} && r[i].data[2] == ToByte(GetVelocity(beat, m.velocity))
  {
    if beat < firstBeat then []
    else
      var span := Span(m, sampleRate, firstBeat, beat);
      NoteEvents(m.chords[beat].notes, span.0, span.1, GetVelocity(beat, m.velocity))
  }

  /** Every event is a three-byte note-on or note-off. */
  predicate NoteMessages(events: seq<MidiEvent>) {
    forall i :: 0 <= i < |events| ==> |events[i].data| == 3 && events[i].data[0] in {NOTE_ON, NOTE_OFF}
  }

  /** The event list before sorting, for the first `n` chords. */
  function Unsorted(m: Melody, sampleRate: nat, firstBeat: nat, n: nat): (r: seq<MidiEvent>)
    requires Playable(m, firstBeat) && n <= |m.chords|
    ensures NoteMessages(r)
  {
    if n == 0 then []
    else Unsorted(m, sampleRate, firstBeat, n - 1) + ChordEvents(m, sampleRate, firstBeat, n - 1)
  }

  /** Number of notes of the chords at positions `firstBeat` and later. */
  function NotesFrom(chords: seq<Chord>, firstBeat: nat): nat
    decreases |chords|
  {
    if chords == [] then 0
    else
      NotesFrom(chords[..|chords| - 1], firstBeat)
        + if |chords| - 1 >= firstBeat then |chords[|chords| - 1].notes| else 0
  }

  /** Each counted note gives exactly one note-on and one note-off. */
  lemma {:induction false} EventCount(m: Melody, sampleRate: nat, firstBeat: nat, n: nat)
    requires Playable(m, firstBeat) && n <= |m.chords|
    ensures |Unsorted(m, sampleRate, firstBeat, n)| == 2 * NotesFrom(m.chords[..n], firstBeat)
  {
    if n > 0 {
      EventCount(m, sampleRate, firstBeat, n - 1);
      assert m.chords[..n][..n - 1] == m.chords[..n - 1];
    }
  }

  /** Chords before `firstBeat` produce nothing. */
  lemma {:induction false} EarlyChordsAreSilent(m: Melody, sampleRate: nat, firstBeat: nat, n: nat)
    requires Playable(m, firstBeat) && n <= |m.chords| && n <= firstBeat
    ensures Unsorted(m, sampleRate, firstBeat, n) == []
  {
    if n > 0 {
      EarlyChordsAreSilent(m, sampleRate, firstBeat, n - 1);
    }
  }

  /** The inner loop of `processMelody`: a note-on and a note-off per note
      of the chord, appended in note order. */
  method AppendChord(events: seq<MidiEvent>, notes: seq<nat>, start: nat, stop: nat, velocity: nat)
    returns (r: seq<MidiEvent>)
    ensures r == events + NoteEvents(notes, start, stop, velocity)
  {
    r := events;
    var j := 0;
    while j < |notes|
      invariant 0 <= j <= |notes|
      invariant r == events + NoteEvents(notes[..j], start, stop, velocity)
    {
      var note := notes[j];
      assert notes[..j + 1][..j] == notes[..j];
      r := r + [NoteEvent(Wrap(start), NOTE_ON, ToByte(note), ToByte(velocity)),
                NoteEvent(Wrap(stop), NOTE_OFF, ToByte(note), ToByte(velocity))];
      j := j + 1;
    }
    assert notes[..j] == notes;
  }

  /** The body of the outer loop of `processMelody`: a chord from
      `firstBeat` on adds its notes at its start and note-off frames. */
  method AppendChordAt(melody: Melody, sampleRate: nat, firstBeat: nat, beat: nat, events: seq<MidiEvent>)
    returns (r: seq<MidiEvent>)
    requires Playable(melody, firstBeat) && beat < |melody.chords|
    ensures r == events + ChordEvents(melody, sampleRate, firstBeat, beat)
  {
    r := events;
    var chord := melody.chords[beat];
    if beat >= firstBeat {
      var adjBeat := beat - firstBeat;
      var velocity := GetVelocity(beat, melody.velocity);
      var start := FrameOf(adjBeat, sampleRate, melody.tempo);
      var end := FrameOf(adjBeat + chord.duration, sampleRate, melody.tempo);
      FrameOfMonotonic(adjBeat, adjBeat + chord.duration, sampleRate, melody.tempo);
      var adjustedEnd := AdjustedEnd(start, end, melody.legatoCoeff);
      assert (start, adjustedEnd) == Span(melody, sampleRate, firstBeat, beat);
      r := AppendChord(r, chord.notes, start, adjustedEnd, velocity);
    }
  }

  /** `processMelody`: the list is rebuilt from scratch, chord by chord and
      note by note, then sorted by time. */
  method ProcessMelody(melody: Melody, sampleRate: nat, firstBeat: nat) returns (events: seq<MidiEvent>)
    requires Playable(melody, firstBeat)
    ensures events == SortByTime(Unsorted(melody, sampleRate, firstBeat, |melody.chords|))
    ensures Sorted(events)
    ensures multiset(events) == multiset(Unsorted(melody, sampleRate, firstBeat, |melody.chords|))
  {
    events := [];
    var beat := 0;
    while beat < |melody.chords|
      invariant 0 <= beat <= |melody.chords|
      invariant events == Unsorted(melody, sampleRate, firstBeat, beat)
    {
      events := AppendChordAt(melody, sampleRate, firstBeat, beat, events);
      beat := beat + 1;
    }
    ghost var all := events;
    events := SortByTime(events);
    assert all == Unsorted(melody, sampleRate, firstBeat, |melody.chords|);
  }

  /** Whether the replay loop writes `e`: its time, moved to the current
      transport origin `startFrame`, lies in the block. */
  predicate Due(e: MidiEvent, startFrame: Frame, framesAtStart: Frame, lastFrame: Frame) {
    InWindow(Wrap(startFrame + e.time), framesAtStart, lastFrame)
  }

  /** Number of consecutive events from `position` that are due. */
  function Cued(master: seq<MidiEvent>, position: nat, startFrame: Frame, framesAtStart: Frame,
                lastFrame: Frame): (k: nat)
    requires position <= |master|
    ensures position + k <= |master|
    ensures forall i :: position <= i < position + k ==> Due(master[i], startFrame, framesAtStart, lastFrame)
    ensures position + k < |master| ==> !Due(master[position + k], startFrame, framesAtStart, lastFrame)
    decreases |master| - position
  {
    if position < |master| && Due(master[position], startFrame, framesAtStart, lastFrame) then
      1 + Cued(master, position + 1, startFrame, framesAtStart, lastFrame)
    else 0
  }

  /** The written form of replayed events: offsets relative to the
      transport position `posFrame`. */
  function Replayed(events: seq<MidiEvent>, posFrame: Frame): (r: seq<Output>)
    ensures |r| == |events|
  {
    seq(|events|, i requires 0 <= i < |events| => Write(Written(Wrap(events[i].time - posFrame), events[i].data)))
  }

  lemma ReplayedStep(master: seq<MidiEvent>, position: nat, next: nat, posFrame: Frame)
    requires position <= next < |master|
    ensures Replayed(master[position..next + 1], posFrame)
         == Replayed(master[position..next], posFrame) + [Write(Written(Wrap(master[next].time - posFrame), master[next].data))]
  {
    assert master[position..next + 1] == master[position..next] + [master[next]];
  }

  /** A due event is written inside the block: its offset from the
      transport position is less than `nframes`. */
  lemma DueOffset(e: MidiEvent, framesAtStart: Frame, posFrame: Frame, nframes: Frame)
    requires Due(e, Wrap(framesAtStart - posFrame), framesAtStart, Wrap(framesAtStart + nframes))
    ensures Wrap(e.time - posFrame) < nframes
  {
    var t := Wrap(Wrap(framesAtStart - posFrame) + e.time);
    WindowOffset(t, framesAtStart, nframes);
    assert (t - framesAtStart - (e.time - posFrame)) % FRAMES == 0;
    var d := t - framesAtStart;
    assert 0 <= d < FRAMES;
    assert Wrap(e.time - posFrame) == d by {
      assert e.time - posFrame == d - (t - framesAtStart - (e.time - posFrame));
      ShiftWrap(d, t - framesAtStart - (e.time - posFrame));
    }
  }

  lemma ShiftWrap(d: int, m: int)
    requires 0 <= d < FRAMES && m % FRAMES == 0
    ensures Wrap(d - m) == d
  {
    var j := m / FRAMES;
    assert m == j * FRAMES;
    assert d - m == d + (-j) * FRAMES;
  }

  /** The replay loop of `process` while rolling: from `position`, write
      the events whose time, moved to the transport origin
      `framesAtStart - posFrame`, lies in the block. Returns what is written
      and the new position; each written offset lies inside the block. */
  method Replay(master: seq<MidiEvent>, position: nat, framesAtStart: Frame, posFrame: Frame, nframes: Frame)
    returns (out: seq<Output>, next: nat)
    requires position <= |master|
    ensures next == position + Cued(master, position, Wrap(framesAtStart - posFrame), framesAtStart,
                                    Wrap(framesAtStart + nframes))
    ensures out == Replayed(master[position..next], posFrame)
    ensures forall i :: 0 <= i < |out| ==> out[i].Write? && out[i].event.offset < nframes
  {
    var lastFrame := Wrap(framesAtStart + nframes);
    var startFrame := Wrap(framesAtStart - posFrame);
    out, next := [], position;
    while next < |master| && Due(master[next], startFrame, framesAtStart, lastFrame)
      invariant position <= next <= position + Cued(master, position, startFrame, framesAtStart, lastFrame)
      invariant out == Replayed(master[position..next], posFrame)
      invariant forall i :: 0 <= i < |out| ==> out[i].Write? && out[i].event.offset < nframes
      decreases |master| - next
    {
      var event := master[next];
      DueOffset(event, framesAtStart, posFrame, nframes);
      var newOffset := Wrap(event.time - posFrame);
      ReplayedStep(master, position, next, posFrame);
      out := out + [Write(Written(newOffset, event.data))];
      next := next + 1;
    }
  }

  /** `PlayerHandler`. */
  class PlayerHandler {
    const firstBeat: nat
    /** `m_master`, sorted by time. */
    const master: seq<MidiEvent>
    /** `m_position`: index of the next event to replay. */
    var position: nat
    var previousState: TransportState

    ghost predicate Valid()
      reads this
    {
      position <= |master| && Sorted(master)
    }

    /** The constructor: the melody (loaded from a file, which is not part
        of this model) is converted at the sample rate of the base class. */
    constructor (melody: Melody, sampleRate: Frame, firstBeat: nat)
      requires Playable(melody, firstBeat)
      ensures Valid()
      ensures this.firstBeat == firstBeat
      ensures master == SortByTime(Unsorted(melody, sampleRate, firstBeat, |melody.chords|))
      ensures position == 0 && previousState == Stopped
    {
      var events := ProcessMelody(melody, sampleRate, firstBeat);
      this.firstBeat := firstBeat;
      master := events;
      position := 0;
      previousState := Stopped;
    }

    /** `process`. Entering Stopped turns all notes off at time 0 and
        rewinds; while rolling, the events due in the block are written in
        order, offset from the transport position `posFrame`, and the cursor
        moves past them; other states write nothing. */
    method Process(state: TransportState, framesAtStart: Frame, posFrame: Frame, nframes: Frame)
      returns (out: seq<Output>)
      requires Valid()
      modifies this
      ensures Valid() && previousState == state
      ensures state == Stopped && old(previousState) != Stopped ==> out == [AllNotesOff(0)] && position == 0
      ensures state == Rolling ==>
        var k := Cued(master, old(position), Wrap(framesAtStart - posFrame), framesAtStart,
                      Wrap(framesAtStart + nframes));
        && position == old(position) + k
        && out == Replayed(master[old(position)..position], posFrame)
      ensures state == Rolling ==> forall i :: 0 <= i < |out| ==> out[i].Write? && out[i].event.offset < nframes
      ensures (state == Stopped && old(previousState) == Stopped) || state !in {Stopped, Rolling} ==>
        out == [] && position == old(position)
    {
      out := [];
      match state {
        case Stopped =>
          if previousState != state {
            out := [AllNotesOff(0)];
            position := 0;
          }
        case Rolling =>
          out, position := Replay(master, position, framesAtStart, posFrame, nframes);
        case _ =>
      }
      previousState := state;
    }
  }
}
