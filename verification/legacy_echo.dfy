/** The older echo handler (EchoHandler.cpp): no transport handling and no
    velocity scaling; the lag is converted to frames by `sampleRate`. */
module LegacyEcho {
  import opened Midi
  import opened MidiEvents
  import opened Drain
  import Echo

  /** What the older `createNewMidiEvent` builds: the velocity is kept. */
  function LegacyEchoOf(time: Frame, e: RawEvent, transposition: int): (r: MidiEvent)
    requires |e.data| >= 3
    ensures r.time == time && r.data == [e.data[0], Echo.OctaveFold(e.data[1] + transposition), e.data[2]]
  {
    NoteEvent(time, e.data[0], Echo.OctaveFold(e.data[1] + transposition), e.data[2])
  }

  /** `createNewMidiEvent` of the older version. */
  method CreateNewMidiEvent(time: Frame, org: RawEvent, transposition: int) returns (r: MidiEvent)
    requires |org.data| >= 3
    ensures r == LegacyEchoOf(time, org, transposition)
  {
    var note := org.data[1];
    note := note + transposition;
    ghost var base, k := note, 0;
    while note < 0
      invariant note == base + 12 * k
      invariant base < 0 ==> note < 12
      invariant 0 <= base ==> k == 0
      decreases -note
    {
      note, k := note + 12, k + 1;
    }
    while note >= 128
      invariant note >= 0 && note == base + 12 * k
      invariant base < 0 ==> note < 12
      invariant 0 <= base < 128 ==> k == 0
      invariant base >= 128 ==> note >= 116
      decreases note
    {
      note, k := note - 12, k - 1;
    }
    Echo.FoldIsUnique(note, k, base);
    r := MidiEvent(time, [org.data[0], note, org.data[2]]);
  }

  /** The echoes queued by the input loop, one per note event, in input order. */
  function LegacyEchoes(events: seq<RawEvent>, framesAtStart: Frame, lagFrames: Frame, transposition: int)
    : (r: seq<MidiEvent>)
    requires ValidEvents(events)
    ensures |r| == Echo.NoteCount(events)
    decreases |events|
  {
    if events == [] then []
    else
      var e := events[|events| - 1];
      var prev := LegacyEchoes(events[..|events| - 1], framesAtStart, lagFrames, transposition);
      if Echo.IsNoteEvent(e) then prev + [LegacyEchoOf(Wrap(framesAtStart + e.time + lagFrames), e, transposition)]
      else prev
  }

  /** The older handler queues exactly what the newer one queues with a
      velocity ratio of 1. */
  lemma {:induction false} SameAsUnitRatio(events: seq<RawEvent>, framesAtStart: Frame, lagFrames: Frame, transposition: int)
    requires ValidEvents(events)
    ensures Echo.Scalable(events, 1.0)
    ensures LegacyEchoes(events, framesAtStart, lagFrames, transposition)
         == Echo.Echoes(events, framesAtStart, lagFrames, transposition, 1.0)
    decreases |events|
  {
    assert Echo.Scalable(events, 1.0) by {
      forall i | 0 <= i < |events| ensures Echo.Echoable(events[i], 1.0) {
        assert ValidEvent(events[i]);
      }
    }
    if events != [] {
      SameAsUnitRatio(events[..|events| - 1], framesAtStart, lagFrames, transposition);
      var e := events[|events| - 1];
      if Echo.IsNoteEvent(e) {
        assert Echo.EchoVelocity(e.data[2], 1.0) == e.data[2];
      }
    }
  }

  /** `EchoHandler` of the older version. */
  class LegacyEchoHandler {
    const lagSeconds: real
    const transposition: int
    var lagFrames: Frame
    var queue: seq<MidiEvent>

    constructor (lagSeconds: real, transposition: int)
      ensures this.lagSeconds == lagSeconds && this.transposition == transposition
      ensures lagFrames == 0 && queue == []
    {
      this.lagSeconds := lagSeconds;
      this.transposition := transposition;
      lagFrames := 0;
      queue := [];
    }

    /** `sampleRate`: the lag in frames at the new rate, converted to 32 bits. */
    method SampleRate(nframes: Frame)
      requires -1.0 < lagSeconds * nframes as real < FRAMES as real
      modifies this
      ensures lagFrames == Trunc(lagSeconds * nframes as real)
      ensures queue == old(queue)
    {
      lagFrames := Trunc(lagSeconds * nframes as real);
    }

    /** `process`: queues the block's echoes, then writes the queued events
        that fall in the block. */
    method Process(framesAtStart: Frame, nframes: Frame, events: seq<RawEvent>) returns (out: seq<Written>)
      requires ValidEvents(events)
      modifies this
      ensures lagFrames == old(lagFrames)
      ensures var q := old(queue) + LegacyEchoes(events, framesAtStart, lagFrames, transposition);
        var k := Ready(q, framesAtStart, Wrap(framesAtStart + nframes));
        queue == q[k..] && out == Emit(q[..k], framesAtStart)
      ensures forall i :: 0 <= i < |out| ==> out[i].offset < nframes
    {
      var i := 0;
      while i < |events|
        invariant 0 <= i <= |events|
        invariant lagFrames == old(lagFrames)
        invariant queue == old(queue) + LegacyEchoes(events[..i], framesAtStart, lagFrames, transposition)
      {
        var inEvent := events[i];
        assert events[..i + 1][..i] == events[..i];
        var cmd := Command(inEvent);
        if cmd == 0x90 || cmd == 0x80 {
          var newTime := Wrap(framesAtStart + inEvent.time + lagFrames);
          var echo := CreateNewMidiEvent(newTime, inEvent, transposition);
          queue := queue + [echo];
        }
        i := i + 1;
      }
      assert events[..i] == events;
      out, queue := DrainWindow(queue, framesAtStart, nframes);
    }
  }
}
