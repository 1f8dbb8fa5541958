/** The legato handler (legato/SuperLegatoHandler.cpp): while the transport
    rolls, note releases are postponed by a fixed number of frames; all events
    go through a queue ordered by time and are written when their frame comes. */
module Legato {
  import opened Results
  import opened Midi
  import opened MidiEvents
  import opened TimeOrder
  import opened Drain

  /** The constructor's conversion of the delay: a negative delay is an
      error; otherwise `delayMilliseconds * sampleRate` in 32-bit unsigned
      arithmetic, divided by 1000. */
  function DelayFrames(delayMilliseconds: int, sampleRate: Frame): (r: Result<Frame>)
    ensures r.Err? <==> delayMilliseconds < 0
    ensures r.Err? ==> r.error == "Legato delay must be positive"
    ensures r.Ok? && delayMilliseconds * sampleRate < FRAMES ==>
      r.value * 1000 <= delayMilliseconds * sampleRate < (r.value + 1) * 1000
  {
    if delayMilliseconds < 0 then Err("Legato delay must be positive")
    else Ok(Wrap(delayMilliseconds * sampleRate) / 1000)
  }

  /** A note release: a note-off, or a note-on with velocity 0. */
  predicate IsRelease(e: RawEvent) requires ValidEvent(e) {
    IsNoteOff(e) || (IsNoteOn(e) && e.data[2] == 0)
  }

  /** What the handler needs of an input event: a valid message of at most
      four bytes (the `MidiEvent` constructor asserts the size). */
  predicate Storable(e: RawEvent) {
    ValidEvent(e) && |e.data| <= 4
  }

  predicate AllStorable(events: seq<RawEvent>) {
    forall i :: 0 <= i < |events| ==> Storable(events[i])
  }

  /** The delay a queued event receives: the configured one for a release
      while the transport rolls, none otherwise. */
  function Delay(state: TransportState, delayFrames: Frame, e: RawEvent): (r: Frame)
    requires ValidEvent(e)
    ensures r == 0 || r == delayFrames
    ensures state == Rolling && IsRelease(e) ==> r == delayFrames
    ensures r != 0 ==> state == Rolling && IsRelease(e)
  {
    if state == Rolling && IsRelease(e) then delayFrames else 0
  }

  /** The queued copy of an input event, stamped at its absolute frame plus
      its delay. */
  function Stamp(state: TransportState, delayFrames: Frame, framesAtStart: Frame, e: RawEvent): (r: MidiEvent)
    requires Storable(e)
    ensures r.data == e.data
    ensures state == Rolling && IsRelease(e) ==> r.time == Wrap(framesAtStart + e.time + delayFrames)
    ensures !(state == Rolling && IsRelease(e)) ==> r.time == Wrap(framesAtStart + e.time)
  {
    FromBuffer(Wrap(framesAtStart + e.time + Delay(state, delayFrames, e)), e.data, |e.data|)
  }

  /** The queue after the input loop: each stamped event inserted in order. */
  function InsertAll(q: seq<MidiEvent>, state: TransportState, delayFrames: Frame, framesAtStart: Frame,
                     events: seq<RawEvent>): (r: seq<MidiEvent>)
    requires AllStorable(events)
    ensures |r| == |q| + |events|
    ensures Sorted(q) ==> Sorted(r)
    decreases |events|
  {
    if events == [] then q
    else
      Insert(InsertAll(q, state, delayFrames, framesAtStart, events[..|events| - 1]),
             Stamp(state, delayFrames, framesAtStart, events[|events| - 1]))
  }

  lemma InsertAllStep(q: seq<MidiEvent>, state: TransportState, delayFrames: Frame, framesAtStart: Frame,
                      events: seq<RawEvent>, i: nat)
    requires AllStorable(events) && i < |events|
    ensures AllStorable(events[..i]) && AllStorable(events[..i + 1])
    ensures InsertAll(q, state, delayFrames, framesAtStart, events[..i + 1])
         == Insert(InsertAll(q, state, delayFrames, framesAtStart, events[..i]), Stamp(state, delayFrames, framesAtStart, events[i]))
  {
    assert events[..i + 1][..i] == events[..i];
  }

  function Stamped(state: TransportState, delayFrames: Frame, framesAtStart: Frame, events: seq<RawEvent>)
    : seq<MidiEvent>
    requires AllStorable(events)
  {
    seq(|events|, i requires 0 <= i < |events| => Stamp(state, delayFrames, framesAtStart, events[i]))
  }

  lemma StampedSnoc(state: TransportState, delayFrames: Frame, framesAtStart: Frame, events: seq<RawEvent>)
    requires AllStorable(events) && events != []
    ensures AllStorable(events[..|events| - 1])
    ensures Stamped(state, delayFrames, framesAtStart, events)
         == Stamped(state, delayFrames, framesAtStart, events[..|events| - 1])
            + [Stamp(state, delayFrames, framesAtStart, events[|events| - 1])]
  {
    var init := events[..|events| - 1];
    var a := Stamped(state, delayFrames, framesAtStart, events);
    var b := Stamped(state, delayFrames, framesAtStart, init) + [Stamp(state, delayFrames, framesAtStart, events[|events| - 1])];
    forall j | 0 <= j < |a| ensures a[j] == b[j] {
      if j < |init| { assert init[j] == events[j]; }
    }
  }

  /** Inserting loses and invents nothing: the queue afterwards holds the
      old queue and the stamped copy of every input event. */
  lemma {:induction false} InsertAllKeepsEvents(q: seq<MidiEvent>, state: TransportState, delayFrames: Frame,
                                                framesAtStart: Frame, events: seq<RawEvent>)
    requires AllStorable(events)
    ensures multiset(InsertAll(q, state, delayFrames, framesAtStart, events))
         == multiset(q) + multiset(Stamped(state, delayFrames, framesAtStart, events))
    decreases |events|
  {
    if events != [] {
      var init := events[..|events| - 1];
      var last := Stamp(state, delayFrames, framesAtStart, events[|events| - 1]);
      StampedSnoc(state, delayFrames, framesAtStart, events);
      InsertAllKeepsEvents(q, state, delayFrames, framesAtStart, init);
      var prev := InsertAll(q, state, delayFrames, framesAtStart, init);
      assert InsertAll(q, state, delayFrames, framesAtStart, events) == Insert(prev, last);
      assert multiset(Stamped(state, delayFrames, framesAtStart, events))
          == multiset(Stamped(state, delayFrames, framesAtStart, init)) + multiset{last};
    }
  }

  /** The queue is replayed in time order: the written offsets never go back. */
  lemma DrainedInOrder(q: seq<MidiEvent>, framesAtStart: Frame, k: nat)
    requires Sorted(q) && k <= |q|
    requires forall i :: 0 <= i < k ==> framesAtStart <= q[i].time
    ensures forall i, j :: 0 <= i < j < k ==>
      Emit(q[..k], framesAtStart)[i].offset <= Emit(q[..k], framesAtStart)[j].offset
  {
  }

  /** `SuperLegatoHandler`. */
  class LegatoHandler {
    const delayFrames: Frame
    /** `m_queue`, a multiset ordered by time. */
    var queue: seq<MidiEvent>

    ghost predicate Valid()
      reads this
    {
      Sorted(queue)
    }

    /** The constructor once the delay has been checked and converted. */
    constructor (delay: Result<Frame>)
      requires delay.Ok?
      ensures Valid() && delayFrames == delay.value && queue == []
    {
      delayFrames := delay.value;
      queue := [];
    }

    /** The body of the input loop of `process`: the delay and the stored
        event. */
    method StoredCopy(state: TransportState, framesAtStart: Frame, inEvent: RawEvent) returns (stored: MidiEvent)
      requires Storable(inEvent)
      ensures stored == Stamp(state, delayFrames, framesAtStart, inEvent)
    {
      var cmd := Command(inEvent);
      var delay := 0;
      if state == Rolling {
        if cmd == NOTE_OFF || (cmd == NOTE_ON && inEvent.data[2] == 0) {
          delay := delayFrames;
        }
      }
      var newTime := Wrap(framesAtStart + inEvent.time + delay);
      stored := FromBuffer(newTime, inEvent.data, |inEvent.data|);
    }

    /** The input loop of `process`. */
    method Enqueue(state: TransportState, framesAtStart: Frame, events: seq<RawEvent>)
      requires AllStorable(events)
      modifies this
      ensures queue == InsertAll(old(queue), state, delayFrames, framesAtStart, events)
    {
      var q := queue;
      var i := 0;
      while i < |events|
        invariant 0 <= i <= |events|
        invariant queue == old(queue)
        invariant q == InsertAll(queue, state, delayFrames, framesAtStart, events[..i])
      {
        var inEvent := events[i];
        InsertAllStep(queue, state, delayFrames, framesAtStart, events, i);
        var stored := StoredCopy(state, framesAtStart, inEvent);
        q := Insert(q, stored);
        i := i + 1;
      }
      assert events[..i] == events;
      queue := q;
    }

    /** `process`: every input event is queued (releases later while
        rolling), then the queued events that fall in the block are written
        in time order. */
    method Process(state: TransportState, framesAtStart: Frame, nframes: Frame, events: seq<RawEvent>)
      returns (out: seq<Written>)
      requires Valid() && AllStorable(events)
      modifies this
      ensures Valid()
      ensures var q := InsertAll(old(queue), state, delayFrames, framesAtStart, events);
        var k := Ready(q, framesAtStart, Wrap(framesAtStart + nframes));
        queue == q[k..] && out == Emit(q[..k], framesAtStart)
      ensures forall i :: 0 <= i < |out| ==> out[i].offset < nframes
      ensures forall i, j :: 0 <= i < j < |out| ==> out[i].offset <= out[j].offset
    {
      Enqueue(state, framesAtStart, events);
      ghost var q := queue;
      out, queue := DrainWindow(queue, framesAtStart, nframes);
      ghost var k := Ready(q, framesAtStart, Wrap(framesAtStart + nframes));
      DrainedInOrder(q, framesAtStart, k);
      assert Sorted(q[k..]);
    }
  }

  /** The constructor: throws on a negative delay. */
  method Open(delayMilliseconds: int, sampleRate: Frame) returns (r: Result<LegatoHandler>)
    ensures r.Err? <==> delayMilliseconds < 0
    ensures r.Ok? ==> fresh(r.value) && r.value.Valid() && r.value.queue == []
    ensures r.Ok? ==> r.value.delayFrames == DelayFrames(delayMilliseconds, sampleRate).value
  {
    var delay := DelayFrames(delayMilliseconds, sampleRate);
    if delay.Err? {
      return Err(delay.error);
    }
    var h := new LegatoHandler(delay);
    return Ok(h);
  }
}
