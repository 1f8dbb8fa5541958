/** The older transport handler (transport/TransportHandler.cpp): the
    sostenuto pedal, read through the pass-through filter, stops and
    rewinds the JACK transport when pressed and starts it when released. */
module LegacyTransport {
  import opened Midi
  import opened MidiPassThrough
  import opened Transport

  /** One input event: the active flag after it and the transport calls it
      causes. */
  function Toggle(active: bool, e: RawEvent): (r: (bool, seq<Effect>))
    requires ValidEvent(e)
    ensures r.0 == active <==> r.1 == []
    ensures r.0 != active ==> IsSostenuto(e)
    ensures forall i :: 0 <= i < |r.1| ==> IsTransportCall(r.1[i])
  {
    var newActive := Filtered(e, active).1;
    if newActive != active then (newActive, if newActive then [Start] else [Stop, Locate(0)])
    else (active, [])
  }

  /** The flag and the transport calls after a block of events. */
  function Toggles(active: bool, events: seq<RawEvent>): (r: (bool, seq<Effect>))
    requires ValidEvents(events)
    ensures forall i :: 0 <= i < |r.1| ==> IsTransportCall(r.1[i])
    decreases |events|
  {
    if events == [] then (active, [])
    else
      var prev := Toggles(active, events[..|events| - 1]);
      var step := Toggle(prev.0, events[|events| - 1]);
      (step.0, prev.1 + step.1)
  }

  /** An event that leaves the flag as it was causes no call; becoming
      active starts the transport, becoming inactive stops it and rewinds
      to frame 0. */
  lemma CallsOnChange(active: bool, e: RawEvent)
    requires ValidEvent(e)
    ensures var r := Toggle(active, e);
      && (r.0 == active <==> r.1 == [])
      && (r.0 != active ==> r.1 == if r.0 then [Start] else [Stop, Locate(0)])
      && (r.0 != active ==> IsSostenuto(e))
  {
  }

  /** The flag after a block is the one the last sostenuto message set
      (active while the pedal is up). */
  lemma {:induction false} LastSostenutoDecides(active: bool, events: seq<RawEvent>, p: nat)
    requires ValidEvents(events) && p < |events| && IsSostenuto(events[p])
    requires forall i :: p < i < |events| ==> !IsSostenuto(events[i])
    ensures Toggles(active, events).0 <==> events[p].data[2] < 64
    decreases |events|
  {
    var init := events[..|events| - 1];
    assert forall i :: 0 <= i < |init| ==> init[i] == events[i];
    if p < |events| - 1 {
      LastSostenutoDecides(active, init, p);
    }
  }

  /** Without sostenuto messages nothing happens. */
  lemma {:induction false} NoSostenutoNoCalls(active: bool, events: seq<RawEvent>)
    requires ValidEvents(events)
    requires forall i :: 0 <= i < |events| ==> !IsSostenuto(events[i])
    ensures Toggles(active, events) == (active, [])
    decreases |events|
  {
    if events != [] {
      var init := events[..|events| - 1];
      assert forall i :: 0 <= i < |init| ==> init[i] == events[i];
      NoSostenutoNoCalls(active, init);
      var last := events[|events| - 1];
      assert !Filtered(last, active).0;
      assert Toggles(active, events).1 == Toggles(active, init).1 + [];
    }
  }

  lemma TogglesStep(active: bool, events: seq<RawEvent>, i: nat)
    requires ValidEvents(events) && i < |events|
    ensures ValidEvents(events[..i]) && ValidEvents(events[..i + 1])
    ensures var prev := Toggles(active, events[..i]);
      var step := Toggle(prev.0, events[i]);
      && Toggles(active, events[..i + 1]) == (step.0, prev.1 + step.1)
      && (step.1 == [] ==> Toggles(active, events[..i + 1]) == (step.0, prev.1))
  {
    assert events[..i + 1][..i] == events[..i];
    assert Toggles(active, events[..i]).1 + [] == Toggles(active, events[..i]).1;
  }

  /** Starting from a transport that runs exactly when the handler is
      active, the calls never start a running transport or stop a stopped
      one, and afterwards the transport runs exactly when the handler is
      active. */
  lemma {:induction false} CallsAlternate(active: bool, events: seq<RawEvent>)
    requires ValidEvents(events)
    ensures var r := Toggles(active, events);
      Alternating(active, r.1) && Running(active, r.1) == r.0
    decreases |events|
  {
    if events != [] {
      var init := events[..|events| - 1];
      CallsAlternate(active, init);
      var prev := Toggles(active, init);
      var step := Toggle(prev.0, events[|events| - 1]);
      assert Toggles(active, events) == (step.0, prev.1 + step.1);
      ToggleAlternates(prev.0, events[|events| - 1]);
      AppendCalls(active, prev.1, step.1);
    }
  }

  /** The calls of one event agree with the flag: they start a stopped
      transport or stop a running one, and leave it running iff active. */
  lemma ToggleAlternates(active: bool, e: RawEvent)
    requires ValidEvent(e)
    ensures var r := Toggle(active, e);
      Alternating(active, r.1) && Running(active, r.1) == r.0
  {
    var r := Toggle(active, e);
    if r.1 == [Stop, Locate(0)] {
      assert r.1[..1] == [Stop];
      assert [Stop][..0] == [];
    } else if r.1 == [Start] {
      assert r.1[..0] == [];
    }
  }

  /** `TransportHandler` of the older version. */
  class LegacyTransportHandler {
    /** `m_active` of the base class, which starts true. */
    var active: bool

    constructor ()
      ensures active
    {
      active := true;
    }

    /** `process`: each event goes through the pass-through filter, and a
        change of the flag drives the transport. */
    method Process(events: seq<RawEvent>) returns (effects: seq<Effect>)
      requires ValidEvents(events)
      modifies this
      ensures (active, effects) == Toggles(old(active), events)
    {
      effects := [];
      for i := 0 to |events|
        invariant (active, effects) == Toggles(old(active), events[..i])
      {
        TogglesStep(old(active), events, i);
        var newActive := Filtered(events[i], active).1;
        if newActive != active {
          if newActive {
            effects := effects + [Start];
          } else {
            effects := effects + [Stop, Locate(0)];
          }
          active := newActive;
        }
      }
      assert events[..|events|] == events;
    }
  }
}
