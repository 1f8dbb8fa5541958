/** The echo handler (handlers/echo/EchoHandler.cpp): while the transport
    rolls, every note-on and note-off is queued again `lagFrames` later,
    transposed and with its velocity scaled, and replayed when its frame
    comes. */
module Echo {
  import opened Midi
  import opened MidiEvents
  import opened Drain

  /** A note moved by whole octaves into the MIDI range: unchanged when it
      is in range, otherwise the nearest note of the same pitch class. */
  function OctaveFold(note: int): (r: int)
    ensures 0 <= r < 128 && (r - note) % 12 == 0
    ensures 0 <= note < 128 ==> r == note
    ensures note < 0 ==> r < 12
    ensures note >= 128 ==> r >= 116
  {
    if note < 0 then note % 12
    else if note >= 128 then 116 + (note - 116) % 12
    else note
  }

  /** The scaled velocity truncates to a byte (the conversion is undefined
      otherwise). */
  predicate ScalesToByte(velocity: Byte, ratio: real) {
    -1.0 < velocity as real * ratio < 256.0
  }

  /** The velocity of an echo: the input velocity scaled by the ratio and
      converted to a byte, at most 127. */
  function EchoVelocity(velocity: Byte, ratio: real): (r: Byte)
    requires ScalesToByte(velocity, ratio)
    ensures r <= 127
    ensures r < 127 ==> r as real <= velocity as real * ratio < r as real + 1.0 || velocity as real * ratio < 1.0
    ensures ratio == 1.0 && velocity <= 127 ==> r == velocity
    ensures velocity as real * ratio < 1.0 ==> r == 0
  {
    var scaled := Trunc(velocity as real * ratio);
    if scaled < 127 then scaled else 127
  }

  /** What `createNewMidiEvent` builds from a note event. */
  function EchoOf(time: Frame, e: RawEvent, transposition: int, ratio: real): (r: MidiEvent)
    requires |e.data| >= 3 && ScalesToByte(e.data[2], ratio)
    ensures r.time == time && |r.data| == 3 && r.data[0] == e.data[0]
    ensures r.data[1] == OctaveFold(e.data[1] + transposition)
    ensures r.data[2] == EchoVelocity(e.data[2], ratio)
  {
    NoteEvent(time, e.data[0], OctaveFold(e.data[1] + transposition), EchoVelocity(e.data[2], ratio))
  }

  /** `createNewMidiEvent`. */
  method CreateNewMidiEvent(time: Frame, org: RawEvent, transposition: int, velocityRatio: real)
    returns (r: MidiEvent)
    requires |org.data| >= 3 && ScalesToByte(org.data[2], velocityRatio)
    ensures r == EchoOf(time, org, transposition, velocityRatio)
  {
    var note := org.data[1];
    note := note + transposition;
    ghost var base, k := note, 0;
    while note < 0
      invariant note == base + 12 * k
      invariant base < 0 ==> note < 12
      invariant 0 <= base ==> k == 0
      decreases -note
    {
      note, k := note + 12, k + 1;
    }
    while note >= 128
      invariant note >= 0 && note == base + 12 * k
      invariant base < 0 ==> note < 12
      invariant 0 <= base < 128 ==> k == 0
      invariant base >= 128 ==> note >= 116
      decreases note
    {
      note, k := note - 12, k - 1;
    }
    FoldIsUnique(note, k, base);
    var cmd := org.data[0];
    var velocity := Trunc(org.data[2] as real * velocityRatio);
    velocity := if 127 < velocity then 127 else velocity;
    r := MidiEvent(time, [cmd, note, velocity]);
  }

  /** A note in range that differs from `note` by whole octaves, and lies in
      the octave `OctaveFold` picks, is `OctaveFold(note)`. */
  lemma FoldIsUnique(x: int, k: int, note: int)
    requires x == note + 12 * k && 0 <= x < 128
    requires note < 0 ==> x < 12
    requires note >= 128 ==> x >= 116
    requires 0 <= note < 128 ==> x == note
    ensures x == OctaveFold(note)
  {
    var y := OctaveFold(note);
    assert y - note == 12 * ((y - note) / 12);
  }

  predicate IsNoteEvent(e: RawEvent) requires |e.data| > 0 {
    Command(e) == NOTE_ON || Command(e) == NOTE_OFF
  }

  /** What converting a scaled velocity to a byte needs: every note event's
      scaled velocity truncates to a byte. */
  predicate Echoable(e: RawEvent, ratio: real) {
    ValidEvent(e) && (IsNoteEvent(e) ==> ScalesToByte(e.data[2], ratio))
  }

  predicate Scalable(events: seq<RawEvent>, ratio: real) {
    forall i :: 0 <= i < |events| ==> Echoable(events[i], ratio)
  }

  /** How many of `events` are note-ons or note-offs. */
  function NoteCount(events: seq<RawEvent>): (n: nat)
    requires ValidEvents(events)
    ensures n <= |events|
    decreases |events|
  {
    if events == [] then 0
    else NoteCount(events[..|events| - 1]) + (if IsNoteEvent(events[|events| - 1]) then 1 else 0)
  }

  /** The echoes one block appends to the queue, in input order: one per
      note event, stamped `framesAtStart + time + lagFrames` in 32-bit
      arithmetic. */
  function Echoes(events: seq<RawEvent>, framesAtStart: Frame, lagFrames: Frame, transposition: int, ratio: real)
    : (r: seq<MidiEvent>)
    requires Scalable(events, ratio)
    ensures |r| <= |events|
    ensures |r| == NoteCount(events)
    ensures forall j :: 0 <= j < |r| ==> |r[j].data| == 3 && 0 <= r[j].data[1] < 128 && r[j].data[2] <= 127
    decreases |events|
  {
    if events == [] then []
    else
      var e := events[|events| - 1];
      var prev := Echoes(events[..|events| - 1], framesAtStart, lagFrames, transposition, ratio);
      if IsNoteEvent(e) then prev + [EchoOf(Wrap(framesAtStart + e.time + lagFrames), e, transposition, ratio)]
      else prev
  }

  /** The note event at index `i` is echoed at its rank among the note
      events: with its own bytes, at its time shifted by the lag. */
  lemma EchoOfEvent(events: seq<RawEvent>, framesAtStart: Frame, lagFrames: Frame,
                    transposition: int, ratio: real, i: nat)
    requires Scalable(events, ratio) && i < |events| && IsNoteEvent(events[i])
    ensures NoteCount(events[..i]) < |Echoes(events, framesAtStart, lagFrames, transposition, ratio)|
    ensures Echoes(events, framesAtStart, lagFrames, transposition, ratio)[NoteCount(events[..i])]
         == EchoOf(Wrap(framesAtStart + events[i].time + lagFrames), events[i], transposition, ratio)
  {
    EchoesPrefix(events, framesAtStart, lagFrames, transposition, ratio, i + 1);
    EchoesUpTo(events, framesAtStart, lagFrames, transposition, ratio, i);
    PrefixIndex(Echoes(events, framesAtStart, lagFrames, transposition, ratio),
                Echoes(events[..i + 1], framesAtStart, lagFrames, transposition, ratio), NoteCount(events[..i]));
  }

  /** The echoes of the events up to a note event end with its echo. */
  lemma EchoesUpTo(events: seq<RawEvent>, framesAtStart: Frame, lagFrames: Frame, transposition: int, ratio: real, i: nat)
    requires Scalable(events, ratio) && i < |events| && IsNoteEvent(events[i])
    ensures Scalable(events[..i + 1], ratio)
    ensures NoteCount(events[..i]) < |Echoes(events[..i + 1], framesAtStart, lagFrames, transposition, ratio)|
    ensures Echoes(events[..i + 1], framesAtStart, lagFrames, transposition, ratio)[NoteCount(events[..i])]
         == EchoOf(Wrap(framesAtStart + events[i].time + lagFrames), events[i], transposition, ratio)
  {
    var pre := events[..i + 1];
    assert Scalable(pre, ratio) by {
      forall j | 0 <= j < |pre| ensures Echoable(pre[j], ratio) { assert pre[j] == events[j]; }
    }
    assert pre[..i] == events[..i] && pre[i] == events[i];
    EchoesLast(pre, framesAtStart, lagFrames, transposition, ratio);
  }

  /** The echoes of the first `j` events begin the echoes of the block. */
  lemma {:induction false} EchoesPrefix(events: seq<RawEvent>, framesAtStart: Frame, lagFrames: Frame,
                                        transposition: int, ratio: real, j: nat)
    requires Scalable(events, ratio) && j <= |events|
    ensures Scalable(events[..j], ratio)
    ensures Echoes(events[..j], framesAtStart, lagFrames, transposition, ratio)
         <= Echoes(events, framesAtStart, lagFrames, transposition, ratio)
    decreases |events|
  {
    if j < |events| {
      var init := events[..|events| - 1];
      EchoesGrow(events, framesAtStart, lagFrames, transposition, ratio);
      EchoesPrefix(init, framesAtStart, lagFrames, transposition, ratio, j);
      assert init[..j] == events[..j];
    } else {
      assert events[..j] == events;
    }
  }

  /** The echoes of a block's events but the last begin the block's echoes. */
  lemma EchoesGrow(events: seq<RawEvent>, framesAtStart: Frame, lagFrames: Frame, transposition: int, ratio: real)
    requires Scalable(events, ratio) && |events| > 0
    ensures Scalable(events[..|events| - 1], ratio)
    ensures Echoes(events[..|events| - 1], framesAtStart, lagFrames, transposition, ratio)
         <= Echoes(events, framesAtStart, lagFrames, transposition, ratio)
  {
    EchoesLast(events, framesAtStart, lagFrames, transposition, ratio);
  }

  /** A block's echoes are those of its events but the last, then the last
      event's echo if it is a note event. */
  lemma EchoesLast(events: seq<RawEvent>, framesAtStart: Frame, lagFrames: Frame, transposition: int, ratio: real)
    requires Scalable(events, ratio) && |events| > 0
    ensures Scalable(events[..|events| - 1], ratio)
    ensures var e := events[|events| - 1];
      var prev := Echoes(events[..|events| - 1], framesAtStart, lagFrames, transposition, ratio);
      IsNoteEvent(e) ==>
        Echoes(events, framesAtStart, lagFrames, transposition, ratio) == prev + [EchoOf(Wrap(framesAtStart + e.time + lagFrames), e, transposition, ratio)]
    ensures var e := events[|events| - 1];
      !IsNoteEvent(e) ==>
        Echoes(events, framesAtStart, lagFrames, transposition, ratio) == Echoes(events[..|events| - 1], framesAtStart, lagFrames, transposition, ratio)
  {
    var n := |events| - 1;
    assert Scalable(events[..n], ratio) by {
      forall j | 0 <= j < n ensures Echoable(events[..n][j], ratio) { assert events[..n][j] == events[j]; }
    }
  }

  /** Exactly the note-ons and note-offs are echoed, in input order: there is
      one echo per note event, and the note event at index `i` gives the echo
      at its rank. */
  lemma EchoesSelectNotes(events: seq<RawEvent>, framesAtStart: Frame, lagFrames: Frame, transposition: int, ratio: real)
    requires Scalable(events, ratio)
    ensures |Echoes(events, framesAtStart, lagFrames, transposition, ratio)| == NoteCount(events)
    ensures forall i :: 0 <= i < |events| && IsNoteEvent(events[i]) ==>
      && NoteCount(events[..i]) < |Echoes(events, framesAtStart, lagFrames, transposition, ratio)|
      && Echoes(events, framesAtStart, lagFrames, transposition, ratio)[NoteCount(events[..i])]
         == EchoOf(Wrap(framesAtStart + events[i].time + lagFrames), events[i], transposition, ratio)
  {
    forall i | 0 <= i < |events| && IsNoteEvent(events[i])
      ensures NoteCount(events[..i]) < |Echoes(events, framesAtStart, lagFrames, transposition, ratio)|
      ensures Echoes(events, framesAtStart, lagFrames, transposition, ratio)[NoteCount(events[..i])]
           == EchoOf(Wrap(framesAtStart + events[i].time + lagFrames), events[i], transposition, ratio)
    {
      EchoOfEvent(events, framesAtStart, lagFrames, transposition, ratio, i);
    }
  }

  /** With no lag and no wrap-around, the echo of an event of the block falls
      inside the block. */
  lemma {:induction false} ZeroLagStaysInBlock(events: seq<RawEvent>, framesAtStart: Frame, nframes: Frame,
                                               transposition: int, ratio: real)
    requires Scalable(events, ratio) && framesAtStart + nframes < FRAMES
    requires forall i :: 0 <= i < |events| ==> events[i].time < nframes
    ensures forall j :: 0 <= j < |Echoes(events, framesAtStart, 0, transposition, ratio)| ==>
      InWindow(Echoes(events, framesAtStart, 0, transposition, ratio)[j].time, framesAtStart, framesAtStart + nframes)
    decreases |events|
  {
    if events != [] {
      var init := events[..|events| - 1];
      var e := events[|events| - 1];
      ZeroLagStaysInBlock(init, framesAtStart, nframes, transposition, ratio);
      var p := Echoes(init, framesAtStart, 0, transposition, ratio);
      var q := Echoes(events, framesAtStart, 0, transposition, ratio);
      assert forall j :: 0 <= j < |p| ==> InWindow(p[j].time, framesAtStart, framesAtStart + nframes);
      if IsNoteEvent(e) {
        var echo := EchoOf(Wrap(framesAtStart + e.time + 0), e, transposition, ratio);
        assert q == p + [echo];
        assert e.time < nframes;
        assert InWindow(echo.time, framesAtStart, framesAtStart + nframes);
        forall j | 0 <= j < |q| ensures InWindow(q[j].time, framesAtStart, framesAtStart + nframes) {
          if j < |p| { assert q[j] == p[j]; } else { assert q[j] == echo; }
        }
      }
    }
  }

  /** Hence with no lag an empty queue stays empty: every echo is written
      in the block of its note. */
  lemma ZeroLagWritesEverything(events: seq<RawEvent>, framesAtStart: Frame, nframes: Frame,
                                transposition: int, ratio: real)
    requires Scalable(events, ratio) && framesAtStart + nframes < FRAMES
    requires forall i :: 0 <= i < |events| ==> events[i].time < nframes
    ensures var q := Echoes(events, framesAtStart, 0, transposition, ratio);
      Ready(q, framesAtStart, Wrap(framesAtStart + nframes)) == |q|
  {
    ZeroLagStaysInBlock(events, framesAtStart, nframes, transposition, ratio);
  }

  /** `EchoHandler`. `m_previousState` is never assigned by the handler, so
      it keeps the value it starts with. */
  class EchoHandler {
    const transposition: int
    const velocityRatio: real
    const lagFrames: Frame
    const previousState: TransportState
    var queue: seq<MidiEvent>

    /** `m_lagFrames = lagSeconds * m_sampleRate`, converted to 32 bits. */
    constructor (lagSeconds: real, transposition: int, velocityRatio: real, sampleRate: Frame,
                 previousState: TransportState)
      requires -1.0 < lagSeconds * sampleRate as real < FRAMES as real
      ensures lagFrames == Trunc(lagSeconds * sampleRate as real)
      ensures this.transposition == transposition && this.velocityRatio == velocityRatio
      ensures this.previousState == previousState && queue == []
    {
      this.transposition := transposition;
      this.velocityRatio := velocityRatio;
      lagFrames := Trunc(lagSeconds * sampleRate as real);
      this.previousState := previousState;
      queue := [];
    }

    /** `process`: a stop (seen from a different previous state) silences
        everything and empties the queue; a rolling transport queues the
        block's echoes and writes the queued events that fall in the block. */
    method Process(state: TransportState, framesAtStart: Frame, nframes: Frame, events: seq<RawEvent>)
      returns (out: seq<Output>)
      requires Scalable(events, velocityRatio)
      modifies this
      ensures state == Stopped && previousState != Stopped ==> out == [AllNotesOff(0)] && queue == []
      ensures state == Rolling ==>
        var q := old(queue) + Echoes(events, framesAtStart, lagFrames, transposition, velocityRatio);
        var k := Ready(q, framesAtStart, Wrap(framesAtStart + nframes));
        queue == q[k..] && out == Writes(Emit(q[..k], framesAtStart))
      ensures state == Rolling ==> forall i :: 0 <= i < |out| ==> out[i].Write? && out[i].event.offset < nframes
      ensures !(state == Rolling || (state == Stopped && previousState != Stopped)) ==> out == [] && queue == old(queue)
    {
      out := [];
      if state == Stopped {
        if previousState != state {
          out := [AllNotesOff(0)];
          queue := [];
        }
      } else if state == Rolling {
        var i := 0;
        while i < |events|
          invariant 0 <= i <= |events|
          invariant queue == old(queue) + Echoes(events[..i], framesAtStart, lagFrames, transposition, velocityRatio)
        {
          var inEvent := events[i];
          assert events[..i + 1][..i] == events[..i];
          var cmd := Command(inEvent);
          if cmd == NOTE_ON || cmd == NOTE_OFF {
            var newTime := Wrap(framesAtStart + inEvent.time + lagFrames);
            var echo := CreateNewMidiEvent(newTime, inEvent, transposition, velocityRatio);
            queue := queue + [echo];
          }
          i := i + 1;
        }
        assert events[..i] == events;
        var written, rest := DrainWindow(queue, framesAtStart, nframes);
        out := Writes(written);
        queue := rest;
      }
    }
  }
}
