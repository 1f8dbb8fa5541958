/** The older legato handler (SuperLegatoHandler.cpp): note-offs are
    postponed by a fixed number of frames whatever the transport does, and
    the sostenuto pedal switches the handler into a pass-through. */
module LegacyLegato {
  import opened Midi
  import opened MidiEvents
  import opened TimeOrder
  import opened Drain
  import opened MidiPassThrough
  import Legato

  /** The sostenuto controller, which the input loop consumes. */
  predicate IsPedal(e: RawEvent) requires ValidEvent(e) {
    Filtered(e, true).0
  }

  /** The queued copy of an input event: only a status-0x80 note-off is
      delayed; a note-on with velocity 0 is not. */
  function LegacyStamp(delayFrames: Frame, framesAtStart: Frame, e: RawEvent): (r: MidiEvent)
    requires Legato.Storable(e)
    ensures r.data == e.data
    ensures IsNoteOff(e) ==> r.time == Wrap(framesAtStart + e.time + delayFrames)
    ensures !IsNoteOff(e) ==> r.time == Wrap(framesAtStart + e.time)
  {
    var delay := if Command(e) == NOTE_OFF then delayFrames else 0;
    FromBuffer(Wrap(framesAtStart + e.time + delay), e.data, |e.data|)
  }

  /** The stamped copies of the events that are not pedal messages, in
      input order. */
  function Kept(delayFrames: Frame, framesAtStart: Frame, events: seq<RawEvent>): (r: seq<MidiEvent>)
    requires Legato.AllStorable(events)
    ensures |r| <= |events|
    decreases |events|
  {
    if events == [] then []
    else
      var last := events[|events| - 1];
      var init := Kept(delayFrames, framesAtStart, events[..|events| - 1]);
      if IsPedal(last) then init else init + [LegacyStamp(delayFrames, framesAtStart, last)]
  }

  /** The input loop of `process`: the queue and the active flag after
      `events`, starting from `q` and `active`. */
  function Intake(q: seq<MidiEvent>, active: bool, delayFrames: Frame, framesAtStart: Frame,
                  events: seq<RawEvent>): (r: (seq<MidiEvent>, bool))
    requires Legato.AllStorable(events)
    ensures |r.0| == |q| + |Kept(delayFrames, framesAtStart, events)|
    ensures Sorted(q) ==> Sorted(r.0)
    decreases |events|
  {
    if events == [] then (q, active)
    else
      var last := events[|events| - 1];
      var prev := Intake(q, active, delayFrames, framesAtStart, events[..|events| - 1]);
      var f := Filtered(last, prev.1);
      if f.0 then (prev.0, f.1)
      else (Insert(prev.0, LegacyStamp(delayFrames, framesAtStart, last)), prev.1)
  }

  lemma IntakeStep(q: seq<MidiEvent>, active: bool, delayFrames: Frame, framesAtStart: Frame,
                   events: seq<RawEvent>, i: nat)
    requires Legato.AllStorable(events) && i < |events|
    ensures Legato.AllStorable(events[..i]) && Legato.AllStorable(events[..i + 1])
    ensures var prev := Intake(q, active, delayFrames, framesAtStart, events[..i]);
      var f := Filtered(events[i], prev.1);
      Intake(q, active, delayFrames, framesAtStart, events[..i + 1])
        == if f.0 then (prev.0, f.1)
           else (Insert(prev.0, LegacyStamp(delayFrames, framesAtStart, events[i])), prev.1)
  {
    assert events[..i + 1][..i] == events[..i];
  }

  /** Pedal messages are consumed, every other event is queued: the queue
      afterwards holds the old queue and the stamped copies of the others. */
  lemma {:induction false} IntakeKeepsEvents(q: seq<MidiEvent>, active: bool, delayFrames: Frame,
                                             framesAtStart: Frame, events: seq<RawEvent>)
    requires Legato.AllStorable(events)
    ensures multiset(Intake(q, active, delayFrames, framesAtStart, events).0)
         == multiset(q) + multiset(Kept(delayFrames, framesAtStart, events))
    decreases |events|
  {
    if events != [] {
      var init := events[..|events| - 1];
      IntakeKeepsEvents(q, active, delayFrames, framesAtStart, init);
    }
  }

  /** Without pedal messages in the block the active flag stays as it was. */
  lemma {:induction false} NoPedalKeepsActive(q: seq<MidiEvent>, active: bool, delayFrames: Frame,
                                              framesAtStart: Frame, events: seq<RawEvent>)
    requires Legato.AllStorable(events)
    requires forall i :: 0 <= i < |events| ==> !IsPedal(events[i])
    ensures Intake(q, active, delayFrames, framesAtStart, events).1 == active
    decreases |events|
  {
    if events != [] {
      var init := events[..|events| - 1];
      assert forall i :: 0 <= i < |init| ==> init[i] == events[i];
      NoPedalKeepsActive(q, active, delayFrames, framesAtStart, init);
    }
  }

  /** The last pedal message of the block decides the flag: pedal down
      (value 64 or more) makes the handler inactive. */
  lemma LastPedalDecides(q: seq<MidiEvent>, active: bool, delayFrames: Frame,
                         framesAtStart: Frame, events: seq<RawEvent>, p: nat)
    requires Legato.AllStorable(events) && p < |events| && IsPedal(events[p])
    requires forall i :: p < i < |events| ==> !IsPedal(events[i])
    ensures Intake(q, active, delayFrames, framesAtStart, events).1 <==> events[p].data[2] < 64
  {
    PedalDecidesPrefix(q, active, delayFrames, framesAtStart, events, p, |events|);
    assert events[..|events|] == events;
  }

  /** The same for every prefix of the block that reaches past the pedal
      message. */
  lemma {:induction false} PedalDecidesPrefix(q: seq<MidiEvent>, active: bool, delayFrames: Frame,
                                              framesAtStart: Frame, events: seq<RawEvent>, p: nat, m: nat)
    requires Legato.AllStorable(events) && p < m <= |events| && IsPedal(events[p])
    requires forall i :: p < i < |events| ==> !IsPedal(events[i])
    ensures Legato.AllStorable(events[..m])
    ensures Intake(q, active, delayFrames, framesAtStart, events[..m]).1 <==> events[p].data[2] < 64
    decreases m
  {
    FlagStep(q, active, delayFrames, framesAtStart, events, m - 1);
    if p < m - 1 {
      PedalDecidesPrefix(q, active, delayFrames, framesAtStart, events, p, m - 1);
    }
  }

  /** The flag after one more event: set by a pedal message, kept otherwise. */
  lemma FlagStep(q: seq<MidiEvent>, active: bool, delayFrames: Frame, framesAtStart: Frame,
                 events: seq<RawEvent>, i: nat)
    requires Legato.AllStorable(events) && i < |events|
    ensures Legato.AllStorable(events[..i]) && Legato.AllStorable(events[..i + 1])
    ensures Intake(q, active, delayFrames, framesAtStart, events[..i + 1]).1
         == if IsPedal(events[i]) then events[i].data[2] < 64
            else Intake(q, active, delayFrames, framesAtStart, events[..i]).1
  {
    IntakeStep(q, active, delayFrames, framesAtStart, events, i);
  }

  /** Unlike the newer handler, a note-on with velocity 0 keeps its time
      here, while the newer one delays it as a release when rolling. */
  lemma ZeroVelocityNoteOnNotDelayed(delayFrames: Frame, framesAtStart: Frame, e: RawEvent)
    requires Legato.Storable(e) && IsNoteOn(e) && e.data[2] == 0
    ensures LegacyStamp(delayFrames, framesAtStart, e).time == Wrap(framesAtStart + e.time)
    ensures Legato.Stamp(Rolling, delayFrames, framesAtStart, e).time
         == Wrap(framesAtStart + e.time + delayFrames)
  {
  }

  /** `SuperLegatoHandler` of the older version. */
  class LegacyLegatoHandler {
    const delayMilliseconds: int
    /** `m_delayFrames`: set by `sampleRate`, 0 before the first call. */
    var delayFrames: Frame
    /** `m_active`, cleared while the sostenuto pedal is down. */
    var active: bool
    var queue: seq<MidiEvent>

    ghost predicate Valid()
      reads this
    {
      delayMilliseconds >= 0 && Sorted(queue)
    }

    /** The constructor asserts a non-negative delay; the base class starts
        the handler active. */
    constructor (delayMilliseconds: int)
      requires delayMilliseconds >= 0
      ensures Valid()
      ensures this.delayMilliseconds == delayMilliseconds && active
      ensures delayFrames == 0 && queue == []
    {
      this.delayMilliseconds := delayMilliseconds;
      active := true;
      delayFrames := 0;
      queue := [];
    }

    /** `sampleRate`: the delay in frames, in 32-bit unsigned arithmetic. */
    method SampleRate(nframes: Frame)
      requires Valid()
      modifies this
      ensures Valid() && active == old(active) && queue == old(queue)
      ensures delayFrames == Wrap(delayMilliseconds * nframes) / 1000
      ensures delayMilliseconds * nframes < FRAMES ==>
        delayFrames * 1000 <= delayMilliseconds * nframes < (delayFrames + 1) * 1000
    {
      delayFrames := Wrap(delayMilliseconds * nframes) / 1000;
    }

    /** The body of the input loop: a pedal message updates the flag, any
        other event is inserted in the queue. */
    method Take(framesAtStart: Frame, inEvent: RawEvent)
      requires Legato.Storable(inEvent)
      modifies this
      ensures delayFrames == old(delayFrames)
      ensures var f := Filtered(inEvent, old(active));
        (queue, active) == if f.0 then (old(queue), f.1)
          else (Insert(old(queue), LegacyStamp(delayFrames, framesAtStart, inEvent)), old(active))
    {
      var pedal, newActive := Filtered(inEvent, active).0, Filtered(inEvent, active).1;
      if pedal {
        active := newActive;
        return;
      }
      var cmd := Command(inEvent);
      var delay := if cmd == NOTE_OFF then delayFrames else 0;
      var newTime := Wrap(framesAtStart + inEvent.time + delay);
      queue := Insert(queue, FromBuffer(newTime, inEvent.data, |inEvent.data|));
    }

    /** `process`. When inactive, the block goes to the pass-through, whose
        body is not part of this model: what it writes is the parameter
        `passOut` and the flag it leaves is `passActive`. Like every output
        buffer, `passOut` holds offsets inside the block in non-decreasing
        order, since `jack_midi_event_write` accepts nothing else. When active, pedal messages update the flag and
        every other event is queued (note-offs later); the queued events that
        fall in the block are written in time order, and the queue is
        emptied if the block ends inactive. */
    method Process(framesAtStart: Frame, nframes: Frame, events: seq<RawEvent>,
                   passOut: seq<Written>, passActive: bool)
      returns (out: seq<Written>)
      requires Valid() && Legato.AllStorable(events)
      requires forall i :: 0 <= i < |passOut| ==> passOut[i].offset < nframes
      requires forall i, j :: 0 <= i < j < |passOut| ==> passOut[i].offset <= passOut[j].offset
      modifies this
      ensures Valid() && delayFrames == old(delayFrames)
      ensures !old(active) ==> out == passOut && active == passActive && queue == old(queue)
      ensures old(active) ==>
        var r := Intake(old(queue), true, delayFrames, framesAtStart, events);
        var k := Ready(r.0, framesAtStart, Wrap(framesAtStart + nframes));
        && active == r.1
        && out == Emit(r.0[..k], framesAtStart)
        && queue == (if r.1 then r.0[k..] else [])
      ensures forall i :: 0 <= i < |out| ==> out[i].offset < nframes
      ensures forall i, j :: 0 <= i < j < |out| ==> out[i].offset <= out[j].offset
    {
      if !active {
        out := passOut;
        active := passActive;
        return;
      }
      var i := 0;
      while i < |events|
        invariant 0 <= i <= |events|
        invariant delayFrames == old(delayFrames) && delayMilliseconds >= 0
        invariant (queue, active) == Intake(old(queue), true, delayFrames, framesAtStart, events[..i])
      {
        IntakeStep(old(queue), true, delayFrames, framesAtStart, events, i);
        Take(framesAtStart, events[i]);
        i := i + 1;
      }
      assert events[..i] == events;
      ghost var q := queue;
      out, queue := DrainWindow(queue, framesAtStart, nframes);
      ghost var k := Ready(q, framesAtStart, Wrap(framesAtStart + nframes));
      Legato.DrainedInOrder(q, framesAtStart, k);
      if !active {
        queue := [];
      }
    }
  }
}
