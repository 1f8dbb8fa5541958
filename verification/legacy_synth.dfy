/** The older synthesiser (SynthesiserHandler.cpp): 128 voice slots with a
    linear envelope smoothed by a low-pass average, driven frame by frame by
    the note events of the block. The audio samples themselves (sines,
    `pow` and the harmonic sum) are not part of this model; the slots, their
    envelope and the event schedule are. */
module LegacySynth {
  import opened Results
  import opened Midi

  /** `Status`. */
  datatype Status = Attack | Sustain | Decay | Off | Empty

  /** `Wave`. */
  datatype Wave = Sine | Sawtooth | Triangle | Square

  /** `Harmonic`: frequency multiple, relative amplitude, phase and shape. */
  datatype Harmonic = Harmonic(mult: real, amplitude: real, phase: real, wave: Wave)

  /** `Note`: one voice slot. Its base frequency (a power of two) is not
      part of this model. */
  datatype Note = Note(n: Byte, t0: Frame, volume: real, status: Status, current: real, amplitude: real)

  /** The harmonics the constructor installs. */
  const HARMONICS: seq<Harmonic> := [
    Harmonic(1.0, 1.00, 0.0, Sine),
    Harmonic(1.0, 1.00, 0.25, Triangle),
    Harmonic(2.0, 0.30, 0.0, Sine),
    Harmonic(2.0, 0.30, 0.0, Triangle),
    Harmonic(3.0, 0.15, 0.0, Sine),
    Harmonic(3.0, 0.15, 0.0, Triangle),
    Harmonic(4.0, 0.05, 0.0, Sine),
    Harmonic(4.0, 0.05, 0.0, Triangle),
    Harmonic(8.0, 0.01, 0.0, Sine),
    Harmonic(8.0, 0.01, 0.0, Triangle)
  ]

  // The parameters the constructor installs.
  const VOLUME: real := 0.1
  const ATTACK_TIME: real := 0.05
  const SUSTAIN_TIME: real := 5.0
  const DECAY_TIME: real := 0.1
  const AVERAGE_SIZE: real := 10.0

  /** Below this smoothed amplitude a released voice frees its slot. */
  const SILENCE: real := 0.00000001

  const SLOTS: nat := 128

  // Wave shapes of period 1

  /** `sawtooth`: `2 (x - floor(x + 1/2))`. */
  function SawtoothWave(x: real): (r: real)
    ensures -1.0 <= r < 1.0
  {
    2.0 * (x - (0.5 + x).Floor as real)
  }

  lemma SawtoothPeriod(x: real)
    ensures SawtoothWave(x + 1.0) == SawtoothWave(x)
  {
    assert (0.5 + (x + 1.0)).Floor == (0.5 + x).Floor + 1;
  }

  /** `triangle`: `2 |sawtooth(x)| - 1`. */
  function TriangleWave(x: real): (r: real)
    ensures -1.0 <= r <= 1.0
  {
    var s := SawtoothWave(x);
    2.0 * (if s < 0.0 then -s else s) - 1.0
  }

  /** `square`: +1 on the second half of each period, -1 elsewhere. */
  function SquareWave(x: real): (r: real)
    ensures r == 1.0 || r == -1.0
    ensures r == 1.0 <==> x - x.Floor as real > 0.5
  {
    if x - x.Floor as real > 0.5 then 1.0 else -1.0
  }

  lemma SquarePeriod(x: real)
    ensures SquareWave(x + 1.0) == SquareWave(x)
  {
    assert (x + 1.0).Floor == x.Floor + 1;
  }

  // Note volume

  /** Sum of the harmonics' amplitudes. */
  function TotalAmplitude(hs: seq<Harmonic>): real
    decreases |hs|
  {
    if hs == [] then 0.0 else TotalAmplitude(hs[..|hs| - 1]) + hs[|hs| - 1].amplitude
  }

  /** Harmonics with positive amplitudes have a positive total. */
  lemma {:induction false} PositiveTotal(hs: seq<Harmonic>)
    requires forall i :: 0 <= i < |hs| ==> hs[i].amplitude > 0.0
    ensures |hs| > 0 ==> TotalAmplitude(hs) > 0.0
    decreases |hs|
  {
    if |hs| > 0 {
      PositiveTotal(hs[..|hs| - 1]);
    }
  }

  /** The first loop of `addNote`. */
  method SumAmplitudes(hs: seq<Harmonic>) returns (total: real)
    ensures total == TotalAmplitude(hs)
  {
    total := 0.0;
    for i := 0 to |hs|
      invariant total == TotalAmplitude(hs[..i])
    {
      assert hs[..i + 1][..i] == hs[..i];
      total := total + hs[i].amplitude;
    }
    assert hs[..|hs|] == hs;
  }

  /** The volume `addNote` gives a new voice: the configured volume shared
      out over the harmonics; none when there are no harmonics. */
  function NoteVolume(hs: seq<Harmonic>): (r: Option<real>)
    requires |hs| > 0 ==> TotalAmplitude(hs) != 0.0
    ensures r.None? <==> hs == []
    ensures r.Some? ==> r.value * TotalAmplitude(hs) == VOLUME
  {
    if hs == [] then None else Some(VOLUME / TotalAmplitude(hs))
  }

  // The envelope

  /** Per-frame envelope increments, set by `sampleRate`. */
  datatype Rates = Rates(attack: real, sustain: real, decay: real)

  predicate NonNegative(r: Rates) {
    r.attack >= 0.0 && r.sustain >= 0.0 && r.decay >= 0.0
  }

  predicate InUnit(x: real) {
    0.0 <= x <= 1.0
  }

  /** A voice whose linear and smoothed envelopes lie in [0, 1]. */
  predicate Settled(note: Note) {
    InUnit(note.current) && InUnit(note.amplitude)
  }

  predicate AllSettled(s: seq<Note>) {
    forall i :: 0 <= i < |s| ==> Settled(s[i])
  }

  /** The `switch` on the status, without the smoothing. */
  function Envelope(note: Note, r: Rates): (s: Note)
    requires note.status != Empty
    ensures s.n == note.n && s.t0 == note.t0 && s.volume == note.volume && s.amplitude == note.amplitude
    ensures note.status == Attack ==> s.status in {Attack, Sustain} && (s.status == Sustain ==> s.current == 1.0)
    ensures note.status == Attack ==>
      (s.status == Sustain <==> note.current + r.attack >= 1.0) &&
      (s.status == Attack ==> s.current == note.current + r.attack)
    ensures note.status in {Sustain, Decay} ==> s.status in {note.status, Off} && (s.status == Off ==> s.current == 0.0)
    ensures note.status == Sustain ==>
      (s.status == Off <==> note.current - r.sustain <= 0.0) &&
      (s.status == Sustain ==> s.current == note.current - r.sustain)
    ensures note.status == Decay ==>
      (s.status == Off <==> note.current - r.decay <= 0.0) &&
      (s.status == Decay ==> s.current == note.current - r.decay)
    ensures note.status == Off ==> s.current == note.current
    ensures note.status == Off ==> (s.status == Empty <==> note.amplitude <= SILENCE) && s.status in {Off, Empty}
    ensures NonNegative(r) && InUnit(note.current) ==> InUnit(s.current)
  {
    match note.status
    case Attack =>
      var c := note.current + r.attack;
      if c >= 1.0 then note.(current := 1.0, status := Sustain) else note.(current := c)
    case Sustain =>
      var c := note.current - r.sustain;
      if c <= 0.0 then note.(current := 0.0, status := Off) else note.(current := c)
    case Decay =>
      var c := note.current - r.decay;
      if c <= 0.0 then note.(current := 0.0, status := Off) else note.(current := c)
    case Off =>
      if note.amplitude <= SILENCE then note.(status := Empty) else note
  }

  /** One frame of one slot: an empty slot is skipped; any other slot steps
      its envelope, then moves its smoothed amplitude towards the linear
      one by a running average over `averageSize + 1` frames. */
  function StepNote(note: Note, r: Rates, averageSize: real): (s: Note)
    requires averageSize >= 0.0
    ensures note.status == Empty ==> s == note
    ensures s.n == note.n && s.t0 == note.t0 && s.volume == note.volume
    ensures note.status != Empty ==>
      s.amplitude * (averageSize + 1.0) == note.amplitude * averageSize + s.current
    ensures NonNegative(r) && Settled(note) ==> Settled(s)
  {
    if note.status == Empty then note
    else
      var e := Envelope(note, r);
      e.(amplitude := Average(e.amplitude, e.current, averageSize))
  }

  /** The running average `(a * w + c) / (w + 1)`: a weighted mean, so it
      lies in [0, 1] when both values do. */
  function Average(a: real, c: real, w: real): (r: real)
    requires w >= 0.0
    ensures r * (w + 1.0) == a * w + c
    ensures InUnit(a) && InUnit(c) ==> InUnit(r)
  {
    var x := a * w + c;
    if InUnit(a) && InUnit(c) then
      ProductBounds(a, w);
      QuotientInUnit(x, w + 1.0);
      x / (w + 1.0)
    else x / (w + 1.0)
  }

  lemma ProductBounds(a: real, w: real)
    requires InUnit(a) && w >= 0.0
    ensures 0.0 <= a * w <= w
  {
    assert a * w >= 0.0;
    assert (1.0 - a) * w >= 0.0;
    assert w - a * w == (1.0 - a) * w;
  }

  lemma QuotientInUnit(x: real, d: real)
    requires d > 0.0 && 0.0 <= x <= d
    ensures InUnit(x / d)
  {
    var q := x / d;
    assert q * d == x;
  }

  /** The per-frame loop over all slots. */
  function StepAll(s: seq<Note>, r: Rates, averageSize: real): (t: seq<Note>)
    requires averageSize >= 0.0
    ensures |t| == |s|
    ensures forall i :: 0 <= i < |s| ==> t[i] == StepNote(s[i], r, averageSize)
  {
    seq(|s|, i requires 0 <= i < |s| => StepNote(s[i], r, averageSize))
  }

  /** A step keeps every envelope in [0, 1] when the increments are not
      negative. */
  lemma StepAllKeepsSettled(s: seq<Note>, r: Rates, averageSize: real)
    requires averageSize >= 0.0 && NonNegative(r) && AllSettled(s)
    ensures AllSettled(StepAll(s, r, averageSize))
  {
    var t := StepAll(s, r, averageSize);
    forall i | 0 <= i < |t| ensures Settled(t[i]) {
      assert Settled(s[i]);
    }
  }

  // Voice allocation

  /** The lowest-indexed empty slot, or `|s|` when every slot is in use. */
  function FirstEmpty(s: seq<Note>): (k: nat)
    ensures k <= |s|
    ensures forall i :: 0 <= i < k ==> s[i].status != Empty
    ensures k < |s| ==> s[k].status == Empty
    decreases |s|
  {
    if s == [] then 0
    else if s[0].status == Empty then 0
    else 1 + FirstEmpty(s[1..])
  }

  /** A voice that starts sounding: attack from silence. */
  function Started(n: Byte, time: Frame, volume: real): Note {
    Note(n, time, volume, Attack, 0.0, 0.0)
  }

  /** `addNote`: the lowest-indexed empty slot starts the note; with no
      free slot or no harmonics nothing changes. */
  function AddSlot(s: seq<Note>, n: Byte, time: Frame, volume: Option<real>): (r: seq<Note>)
    ensures |r| == |s|
    ensures forall i :: 0 <= i < |s| && i != FirstEmpty(s) ==> r[i] == s[i]
    ensures volume.Some? && FirstEmpty(s) < |s| ==> r[FirstEmpty(s)] == Started(n, time, volume.value)
    ensures volume.None? ==> r == s
  {
    var k := FirstEmpty(s);
    if volume.Some? && k < |s| then s[k := Started(n, time, volume.value)] else s
  }

  /** `removeNote`: every slot playing `n`, whatever its status, decays;
      nothing else changes. */
  function RemoveSlots(s: seq<Note>, n: Byte): (r: seq<Note>)
    ensures |r| == |s|
    ensures forall i :: 0 <= i < |s| ==> r[i] == if s[i].n == n then s[i].(status := Decay) else s[i]
    decreases |s|
  {
    if s == [] then []
    else
      var last := s[|s| - 1];
      RemoveSlots(s[..|s| - 1], n) + [if last.n == n then last.(status := Decay) else last]
  }

  lemma AddSlotKeepsSettled(s: seq<Note>, n: Byte, time: Frame, volume: Option<real>)
    requires AllSettled(s)
    ensures AllSettled(AddSlot(s, n, time, volume))
  {
    var r := AddSlot(s, n, time, volume);
    forall i | 0 <= i < |r| ensures Settled(r[i]) {
      assert Settled(s[i]);
    }
  }

  lemma RemoveSlotsKeepsSettled(s: seq<Note>, n: Byte)
    requires AllSettled(s)
    ensures AllSettled(RemoveSlots(s, n))
  {
    var r := RemoveSlots(s, n);
    forall i | 0 <= i < |r| ensures Settled(r[i]) {
      assert Settled(s[i]);
    }
  }

  // The event schedule of `process`

  /** `eventIndex` after `i` frames of the loop as written: at frame `i` the
      pending event is applied only if its offset is exactly `i`. */
  function Cursor(events: seq<RawEvent>, i: nat): (c: nat)
    ensures c <= |events| && c <= i
  {
    if i == 0 then 0
    else
      var p := Cursor(events, i - 1);
      if p < |events| && events[p].time == i - 1 then p + 1 else p
  }

  /** The event applied at frame `i`, if any. */
  function AppliedAt(events: seq<RawEvent>, i: nat): (r: Option<RawEvent>)
    ensures r.Some? ==> r.value.time == i && r.value in events
  {
    var c := Cursor(events, i);
    if c < |events| && events[c].time == i then Some(events[c]) else None
  }

  /** A note event changes the slots; other events are read and skipped. */
  function ApplyEvent(s: seq<Note>, e: RawEvent, time: Frame, volume: Option<real>): (r: seq<Note>)
    requires ValidEvent(e)
    ensures |r| == |s|
    ensures !IsNoteOn(e) && !IsNoteOff(e) ==> r == s
    ensures IsNoteOn(e) || IsNoteOff(e) ==>
      forall i :: 0 <= i < |s| && s[i].n != e.data[1] && i != FirstEmpty(s) ==> r[i] == s[i]
  {
    if IsNoteOn(e) then AddSlot(s, e.data[1], time, volume)
    else if IsNoteOff(e) then RemoveSlots(s, e.data[1])
    else s
  }

  /** One frame at index `i` of a block: the event due at `i`, if any, then
      a step of every slot. */
  function RenderFrame(s: seq<Note>, events: seq<RawEvent>, framesAtStart: Frame, i: nat,
                       volume: Option<real>, r: Rates, averageSize: real): (t: seq<Note>)
    requires ValidEvents(events) && averageSize >= 0.0
    ensures |t| == |s|
  {
    var applied := AppliedAt(events, i);
    var after := if applied.Some? then ApplyEvent(s, applied.value, Wrap(framesAtStart + i), volume) else s;
    StepAll(after, r, averageSize)
  }

  /** The slots after `k` frames of a block starting at `framesAtStart`. */
  function Render(s: seq<Note>, events: seq<RawEvent>, framesAtStart: Frame, k: nat,
                  volume: Option<real>, r: Rates, averageSize: real): (t: seq<Note>)
    requires ValidEvents(events) && averageSize >= 0.0
    ensures |t| == |s|
  {
    if k == 0 then s
    else RenderFrame(Render(s, events, framesAtStart, k - 1, volume, r, averageSize), events, framesAtStart, k - 1,
                     volume, r, averageSize)
  }

  /** Whatever the events, a block keeps every envelope in [0, 1]. */
  lemma {:induction false} RenderKeepsSettled(s: seq<Note>, events: seq<RawEvent>, framesAtStart: Frame, k: nat,
                                              volume: Option<real>, r: Rates, averageSize: real)
    requires ValidEvents(events) && averageSize >= 0.0 && NonNegative(r) && AllSettled(s)
    ensures AllSettled(Render(s, events, framesAtStart, k, volume, r, averageSize))
  {
    if k > 0 {
      RenderKeepsSettled(s, events, framesAtStart, k - 1, volume, r, averageSize);
      var before := Render(s, events, framesAtStart, k - 1, volume, r, averageSize);
      var applied := AppliedAt(events, k - 1);
      assert Render(s, events, framesAtStart, k, volume, r, averageSize)
          == RenderFrame(before, events, framesAtStart, k - 1, volume, r, averageSize);
      if applied.Some? {
        var e := applied.value;
        if IsNoteOn(e) {
          AddSlotKeepsSettled(before, e.data[1], Wrap(framesAtStart + k - 1), volume);
        } else if IsNoteOff(e) {
          RemoveSlotsKeepsSettled(before, e.data[1]);
        }
        StepAllKeepsSettled(ApplyEvent(before, e, Wrap(framesAtStart + k - 1), volume), r, averageSize);
      } else {
        StepAllKeepsSettled(before, r, averageSize);
      }
    }
  }

  /** Once the pending event's offset is behind the frame counter, the loop
      as written never moves past it again. */
  lemma {:induction false} PassedEventBlocks(events: seq<RawEvent>, i: nat, k: nat)
    requires i <= k
    requires Cursor(events, i) < |events| && events[Cursor(events, i)].time < i
    ensures Cursor(events, k) == Cursor(events, i)
    decreases k - i
  {
    if i < k {
      assert Cursor(events, i + 1) == Cursor(events, i);
      PassedEventBlocks(events, i + 1, k);
    }
  }

  /** Two note-ons at the same offset, as a chord played on a keyboard
      delivers them. */
  const TWO_AT_ONCE: seq<RawEvent> := [RawEvent(0, [NOTE_ON, 60, 100]), RawEvent(0, [NOTE_ON, 64, 100])]

  /** In the loop as written the second note of `TWO_AT_ONCE` is never
      applied, however long the block: the cursor stays at 1. */
  lemma SecondNoteIsDropped(k: nat)
    requires k >= 1
    ensures Cursor(TWO_AT_ONCE, k) == 1
    ensures forall i :: 1 <= i <= k ==> AppliedAt(TWO_AT_ONCE, i) == None
  {
    assert Cursor(TWO_AT_ONCE, 1) == 1;
    PassedEventBlocks(TWO_AT_ONCE, 1, k);
    forall i | 1 <= i <= k ensures AppliedAt(TWO_AT_ONCE, i) == None {
      PassedEventBlocks(TWO_AT_ONCE, 1, i);
    }
  }

  // The corrected schedule: every event whose offset is the frame

  /** Number of consecutive events from `c` at offset `i`. */
  function Due(events: seq<RawEvent>, c: nat, i: nat): (d: nat)
    requires c <= |events|
    ensures c + d <= |events|
    ensures forall j :: c <= j < c + d ==> events[j].time == i
    ensures c + d < |events| ==> events[c + d].time != i
    decreases |events| - c
  {
    if c < |events| && events[c].time == i then 1 + Due(events, c + 1, i) else 0
  }

  /** `eventIndex` after `i` frames when each frame applies all its events. */
  function IntendedCursor(events: seq<RawEvent>, i: nat): (c: nat)
    ensures c <= |events|
  {
    if i == 0 then 0
    else
      var p := IntendedCursor(events, i - 1);
      p + Due(events, p, i - 1)
  }

  /** Number of leading events with an offset before `i`. */
  function Before(events: seq<RawEvent>, i: nat, c: nat): (b: nat)
    requires c <= |events|
    ensures c <= b <= |events|
    ensures forall j :: c <= j < b ==> events[j].time < i
    ensures b < |events| ==> events[b].time >= i
    decreases |events| - c
  {
    if c < |events| && events[c].time < i then Before(events, i, c + 1) else c
  }

  predicate TimeSorted(events: seq<RawEvent>) {
    forall i, j :: 0 <= i < j < |events| ==> events[i].time <= events[j].time
  }

  /** An index is the boundary before `i` when everything before it is
      earlier and the event at it is not. */
  lemma BoundaryIsUnique(events: seq<RawEvent>, i: nat, k: nat)
    requires k <= |events|
    requires forall j :: 0 <= j < k ==> events[j].time < i
    requires k < |events| ==> events[k].time >= i
    ensures k == Before(events, i, 0)
  {
  }

  /** With the events in time order (as JACK delivers them), the corrected
      loop has applied, after `i` frames, exactly the events with offsets
      below `i`. */
  lemma {:induction false} IntendedCursorCounts(events: seq<RawEvent>, i: nat)
    requires TimeSorted(events)
    ensures IntendedCursor(events, i) == Before(events, i, 0)
  {
    if i == 0 {
      BoundaryIsUnique(events, 0, 0);
    } else {
      IntendedCursorCounts(events, i - 1);
      DueReachesBoundary(events, i - 1);
    }
  }

  /** From the boundary before frame `i`, the events due at `i` lead to the
      boundary before frame `i + 1`. */
  lemma DueReachesBoundary(events: seq<RawEvent>, i: nat)
    requires TimeSorted(events)
    ensures var p := Before(events, i, 0);
      p + Due(events, p, i) == Before(events, i + 1, 0)
  {
    var p := Before(events, i, 0);
    var q := p + Due(events, p, i);
    forall j | 0 <= j < q ensures events[j].time < i + 1 {
      if j < p {
        assert events[j].time < i;
      } else {
        assert events[j].time == i;
      }
    }
    if q < |events| {
      DueStopsPastFrame(events, i, p);
    }
    BoundaryIsUnique(events, i + 1, q);
  }

  /** The first event after those due at `i`, from the boundary before `i`,
      lies after frame `i`. */
  lemma DueStopsPastFrame(events: seq<RawEvent>, i: nat, p: nat)
    requires TimeSorted(events) && p == Before(events, i, 0)
    requires p + Due(events, p, i) < |events|
    ensures events[p + Due(events, p, i)].time > i
  {
    var q := p + Due(events, p, i);
    assert events[q].time != i;
    assert events[p].time >= i;
    if p < q {
      assert events[p].time <= events[q].time;
    }
  }

  /** The corrected loop applies every event of a block whose offsets lie
      in the block. */
  lemma IntendedAppliesAll(events: seq<RawEvent>, nframes: nat)
    requires TimeSorted(events)
    requires forall j :: 0 <= j < |events| ==> events[j].time < nframes
    ensures IntendedCursor(events, nframes) == |events|
  {
    IntendedCursorCounts(events, nframes);
    BoundaryIsUnique(events, nframes, |events|);
  }

  /** `SynthesiserHandler` of the older version. */
  class LegacySynthHandler {
    /** `myNotes`, resized to 128 slots. */
    const notes: array<Note>
    /** `myHarmonics`. */
    const harmonics: seq<Harmonic>
    /** `myTime`: frames rendered so far. */
    var time: Frame
    /** `myAttackDelta`, `mySustainDelta`, `myDecayDelta`: 0 until
        `sampleRate` is called. */
    var rates: Rates
    /** `myTimeMultiplier`. */
    var timeMultiplier: real

    ghost predicate Valid()
      reads this`rates, notes
    {
      && notes.Length == SLOTS
      && AllSettled(notes[..])
      && NonNegative(rates)
      && (|harmonics| > 0 ==> TotalAmplitude(harmonics) != 0.0)
    }

    /** The constructor: the default harmonics and every slot empty. */
    constructor ()
      ensures Valid() && fresh(notes)
      ensures harmonics == HARMONICS && time == 0
      ensures forall i :: 0 <= i < SLOTS ==> notes[i] == Note(0, 0, 0.0, Empty, 0.0, 0.0)
    {
      var slots := new Note[SLOTS](_ => Note(0, 0, 0.0, Attack, 0.0, 0.0));
      for i := 0 to SLOTS
        invariant forall j :: 0 <= j < i ==> slots[j] == Note(0, 0, 0.0, Empty, 0.0, 0.0)
        invariant forall j :: i <= j < SLOTS ==> slots[j] == Note(0, 0, 0.0, Attack, 0.0, 0.0)
      {
        slots[i] := slots[i].(status := Empty);
      }
      notes := slots;
      harmonics := HARMONICS;
      PositiveTotal(HARMONICS);
      time := 0;
      rates := Rates(0.0, 0.0, 0.0);
      timeMultiplier := 0.0;
    }

    /** `sampleRate`: the increments that make attack, sustain and decay
        last their configured times, and the duration of a frame. */
    method SampleRate(nframes: Frame)
      requires Valid() && nframes > 0
      modifies this
      ensures Valid() && time == old(time)
      ensures rates == Rates(1.0 / ATTACK_TIME / nframes as real, 1.0 / SUSTAIN_TIME / nframes as real,
                             1.0 / DECAY_TIME / nframes as real)
      ensures rates.attack * ATTACK_TIME * nframes as real == 1.0
      ensures timeMultiplier * nframes as real == 1.0
    {
      rates := Rates(1.0 / ATTACK_TIME / nframes as real, 1.0 / SUSTAIN_TIME / nframes as real,
                     1.0 / DECAY_TIME / nframes as real);
      timeMultiplier := 1.0 / nframes as real;
    }

    /** `addNote`. */
    method AddNote(n: Byte, t: Frame)
      requires Valid()
      modifies notes
      ensures Valid()
      ensures notes[..] == AddSlot(old(notes[..]), n, t, NoteVolume(harmonics))
    {
      if |harmonics| == 0 {
        return;
      }
      var total := SumAmplitudes(harmonics);
      var volume := VOLUME / total;
      AddSlotKeepsSettled(notes[..], n, t, NoteVolume(harmonics));
      var i := 0;
      while i < notes.Length
        invariant 0 <= i <= notes.Length
        invariant notes[..] == old(notes[..])
        invariant forall j :: 0 <= j < i ==> notes[j].status != Empty
      {
        if notes[i].status == Empty {
          assert FirstEmpty(notes[..]) == i;
          notes[i] := Started(n, t, volume);
          return;
        }
        i := i + 1;
      }
      assert FirstEmpty(notes[..]) == notes.Length;
    }

    /** `removeNote`. */
    method RemoveNote(n: Byte)
      requires Valid()
      modifies notes
      ensures Valid()
      ensures notes[..] == RemoveSlots(old(notes[..]), n)
    {
      ghost var s := notes[..];
      RemoveSlotsKeepsSettled(s, n);
      for i := 0 to notes.Length
        invariant forall j :: 0 <= j < i ==> notes[j] == RemoveSlots(s, n)[j]
        invariant forall j :: i <= j < notes.Length ==> notes[j] == s[j]
      {
        if notes[i].n == n {
          notes[i] := notes[i].(status := Decay);
        }
      }
      assert notes[..] == RemoveSlots(s, n);
    }

    /** The slot loop of `process` for one frame. */
    method StepSlots()
      requires Valid()
      modifies notes
      ensures Valid()
      ensures notes[..] == StepAll(old(notes[..]), rates, AVERAGE_SIZE)
    {
      ghost var s := notes[..];
      StepAllKeepsSettled(s, rates, AVERAGE_SIZE);
      for i := 0 to notes.Length
        invariant forall j :: 0 <= j < i ==> notes[j] == StepNote(s[j], rates, AVERAGE_SIZE)
        invariant forall j :: i <= j < notes.Length ==> notes[j] == s[j]
      {
        notes[i] := StepNote(notes[i], rates, AVERAGE_SIZE);
      }
      assert notes[..] == StepAll(s, rates, AVERAGE_SIZE);
    }

    /** The body of the frame loop of `process`: the pending event is
        applied if its offset is the frame index, then every slot steps. */
    method RenderOneFrame(events: seq<RawEvent>, eventIndex: nat, i: nat, framesAtStart: Frame) returns (next: nat)
      requires Valid() && ValidEvents(events) && eventIndex == Cursor(events, i)
      modifies notes
      ensures Valid()
      ensures next == Cursor(events, i + 1)
      ensures notes[..] == RenderFrame(old(notes[..]), events, framesAtStart, i, NoteVolume(harmonics), rates, AVERAGE_SIZE)
    {
      var t := Wrap(framesAtStart + i);
      next := eventIndex;
      if eventIndex < |events| && events[eventIndex].time == i {
        var inEvent := events[eventIndex];
        var cmd := Command(inEvent);
        if cmd == NOTE_ON {
          AddNote(inEvent.data[1], t);
        } else if cmd == NOTE_OFF {
          RemoveNote(inEvent.data[1]);
        }
        next := eventIndex + 1;
      }
      StepSlots();
    }

    /** The frame loop of `process`: frame by frame, apply the event due
        at that frame, then step every slot. */
    method RenderBlock(nframes: Frame, events: seq<RawEvent>, framesAtStart: Frame)
      requires Valid() && ValidEvents(events)
      modifies notes
      ensures Valid()
      ensures notes[..] == Render(old(notes[..]), events, framesAtStart, nframes, NoteVolume(harmonics), rates, AVERAGE_SIZE)
    {
      var eventIndex := 0;
      ghost var start, volume := notes[..], NoteVolume(harmonics);
      for i := 0 to nframes
        invariant Valid()
        invariant eventIndex == Cursor(events, i)
        invariant notes[..] == Render(start, events, framesAtStart, i, volume, rates, AVERAGE_SIZE)
      {
        eventIndex := RenderOneFrame(events, eventIndex, i, framesAtStart);
      }
    }

    /** `process`: the frame loop, then the clock advances by the block
        length. */
    method Process(nframes: Frame, events: seq<RawEvent>)
      requires Valid() && ValidEvents(events)
      modifies this, notes
      ensures Valid() && rates == old(rates)
      ensures notes[..] == Render(old(notes[..]), events, old(time), nframes, NoteVolume(harmonics), rates, AVERAGE_SIZE)
      ensures time == Wrap(old(time) + nframes)
      ensures timeMultiplier == old(timeMultiplier)
    {
      RenderBlock(nframes, events, time);
      time := Wrap(time + nframes);
    }
  }
}
