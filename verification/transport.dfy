/** The transport handler (handlers/transport/TransportHandler.cpp): the
    sostenuto pedal stops and rewinds the JACK transport when pressed and
    starts it when released; while it is down, a key present in the sound
    table selects that sound with a bank select and a program change. */
module Transport {
  import opened Midi
  import opened Sounds

  /** Bank select controllers, MSB and LSB (MIDI 1.0 controllers 0 and 32). */
  const CC_MSB: Byte := 0
  const CC_LSB: Byte := 32

  /** What a transport handler does, in order: the JACK transport calls
      (`jack_transport_stop`, `jack_transport_reposition` to a frame,
      `jack_transport_start`) and the events it writes. */
  datatype Effect = Stop | Locate(frame: Frame) | Start | Send(event: Written)

  predicate IsTransportCall(f: Effect) {
    f.Stop? || f.Locate? || f.Start?
  }

  /** Whether the transport runs after `calls`, from `running`. */
  function Running(running: bool, calls: seq<Effect>): bool
  {
    if calls == [] then running
    else
      var before := Running(running, calls[..|calls| - 1]);
      match calls[|calls| - 1]
      case Start => true
      case Stop => false
      case _ => before
  }

  /** No call of `calls` starts a running transport or stops a stopped one. */
  predicate Alternating(running: bool, calls: seq<Effect>)
  {
    if calls == [] then true
    else
      var init := calls[..|calls| - 1];
      && Alternating(running, init)
      && (calls[|calls| - 1].Start? ==> !Running(running, init))
      && (calls[|calls| - 1].Stop? ==> Running(running, init))
  }

  lemma {:induction false} AppendCalls(running: bool, a: seq<Effect>, b: seq<Effect>)
    ensures Running(running, a + b) == Running(Running(running, a), b)
    ensures Alternating(running, a + b) <==> Alternating(running, a) && Alternating(Running(running, a), b)
    decreases |b|
  {
    if b == [] {
      assert a + b == a;
    } else {
      var init := b[..|b| - 1];
      AppendCalls(running, a, init);
      assert (a + b)[..|a + b| - 1] == a + init;
    }
  }

  /** Bitwise or of two bytes. */
  function BitOr(a: Byte, b: Byte): Byte
  {
    ((a as bv8) | (b as bv8)) as int
  }

  /** `cmd | (channel - 1)` narrowed to a byte: the channel is 1-based, and
      channel 0 gives -1, which sets every bit. */
  function StatusByte(cmd: Byte, channel: Byte): Byte
  {
    BitOr(cmd, ToByte(channel - 1))
  }

  /** For channels 1 to 16 the status byte is the command with the 0-based
      channel in its low nibble. */
  lemma StatusOfChannel(cmd: Byte, channel: Byte)
    requires cmd in {CC, PC} && 1 <= channel <= 16
    ensures StatusByte(cmd, channel) == cmd + channel - 1
    ensures StatusByte(cmd, channel) / 16 * 16 == cmd
  {
    var k := channel - 1;
    assert ToByte(k) == k by { assert k % 256 == k; }
    OrIsAdd(cmd, k);
    var q := cmd / 16;
    assert cmd == 16 * q;
    assert (16 * q + k) / 16 == q;
  }

  /** Or-ing a channel into the empty low nibble of a command adds it. */
  lemma OrIsAdd(h: int, c: int)
    requires h == 0xB0 || h == 0xC0
    requires 0 <= c < 16
    ensures BitOr(h, c) == h + c
  {
    if h == 0xB0 {
      assert BitOr(0xB0, c) == 0xB0 + c;
    } else {
      assert BitOr(0xC0, c) == 0xC0 + c;
    }
  }

  /** The three messages that select `program`, all at `time`. */
  function ProgramChange(program: Program, channel: Byte, time: Frame): (r: seq<Effect>)
    ensures |r| == 3 && forall i :: 0 <= i < 3 ==> r[i].Send? && r[i].event.offset == time
    ensures |r[0].event.data| == |r[1].event.data| == 3 && |r[2].event.data| == 2
    ensures r[0].event.data[1..] == [CC_MSB, program.msb] && r[1].event.data[1..] == [CC_LSB, program.lsb]
    ensures r[2].event.data[1..] == [ToByte(program.number - 1)]
    ensures 1 <= channel <= 16 ==> forall i :: 0 <= i < 3 ==> OnChannel(r[i], channel)
  {
    var messages :=
      [ Send(Written(time, [StatusByte(CC, channel), CC_MSB, program.msb])),
        Send(Written(time, [StatusByte(CC, channel), CC_LSB, program.lsb])),
        Send(Written(time, [StatusByte(PC, channel), ToByte(program.number - 1)])) ];
    if 1 <= channel <= 16 then
      StatusOfChannel(CC, channel);
      StatusOfChannel(PC, channel);
      messages
    else messages
  }

  /** One input event: the pedal state after it and what it causes. */
  function React(pedalDown: bool, sounds: map<Byte, Program>, channel: Byte, e: RawEvent): (r: (bool, seq<Effect>))
    requires ValidEvent(e)
    ensures |r.1| <= 3
    ensures r.0 != pedalDown ==> IsSostenuto(e) && r.1 != [] && forall i :: 0 <= i < |r.1| ==> IsTransportCall(r.1[i])
    ensures r.0 == pedalDown ==> forall i :: 0 <= i < |r.1| ==> r.1[i].Send?
  {
    if Command(e) == CC then
      if e.data[1] == CC_SOSTENUTO && (e.data[2] >= 64) != pedalDown then
        var down := e.data[2] >= 64;
        (down, if down then [Stop, Locate(0)] else [Start])
      else (pedalDown, [])
    else if Command(e) == NOTE_ON && pedalDown && e.data[2] > 0 && e.data[1] in sounds then
      (pedalDown, ProgramChange(sounds[e.data[1]], channel, e.time))
    else (pedalDown, [])
  }

  /** The transport is called only when the pedal changes: pressing it stops
      and rewinds to frame 0, releasing it starts; a repeated value, another
      controller or any other event leaves the transport alone. */
  lemma TransportOnChange(pedalDown: bool, sounds: map<Byte, Program>, channel: Byte, e: RawEvent)
    requires ValidEvent(e)
    ensures var r := React(pedalDown, sounds, channel, e);
      var change := Command(e) == CC && e.data[1] == CC_SOSTENUTO && (e.data[2] >= 64) != pedalDown;
      && (change ==> r.0 == !pedalDown && r.1 == if r.0 then [Stop, Locate(0)] else [Start])
      && (!change ==> r.0 == pedalDown && forall i :: 0 <= i < |r.1| ==> !IsTransportCall(r.1[i]))
  {
  }

  /** A key press selects a sound exactly when the pedal is down, the
      velocity is positive and the key is in the table: three messages at
      the key's time, bank MSB, bank LSB and the 0-based program number. */
  lemma KeySelectsSound(pedalDown: bool, sounds: map<Byte, Program>, channel: Byte, e: RawEvent)
    requires ValidEvent(e) && IsNoteOn(e)
    ensures var r := React(pedalDown, sounds, channel, e);
      && r.0 == pedalDown
      && (|r.1| > 0 <==> pedalDown && e.data[2] > 0 && e.data[1] in sounds)
      && (|r.1| > 0 ==>
            var p := sounds[e.data[1]];
            && |r.1| == 3
            && (forall i :: 0 <= i < 3 ==> r.1[i].Send? && r.1[i].event.offset == e.time)
            && r.1[0].event.data[1..] == [CC_MSB, p.msb]
            && r.1[1].event.data[1..] == [CC_LSB, p.lsb]
            && (p.number >= 1 ==> r.1[2].event.data[1..] == [p.number - 1])
            && (p.number == 0 ==> r.1[2].event.data[1..] == [255]))
  {
    if |React(pedalDown, sounds, channel, e).1| > 0 {
      assert Command(e) != CC;
    }
  }

  /** The pedal state and everything caused by a block of events. */
  function Session(pedalDown: bool, sounds: map<Byte, Program>, channel: Byte, events: seq<RawEvent>)
    : (r: (bool, seq<Effect>))
    requires ValidEvents(events)
    ensures |r.1| <= 3 * |events|
    decreases |events|
  {
    if events == [] then (pedalDown, [])
    else
      var prev := Session(pedalDown, sounds, channel, events[..|events| - 1]);
      var step := React(prev.0, sounds, channel, events[|events| - 1]);
      (step.0, prev.1 + step.1)
  }

  lemma SessionStep(pedalDown: bool, sounds: map<Byte, Program>, channel: Byte, events: seq<RawEvent>, i: nat)
    requires ValidEvents(events) && i < |events|
    ensures ValidEvents(events[..i]) && ValidEvents(events[..i + 1])
    ensures var prev := Session(pedalDown, sounds, channel, events[..i]);
      var step := React(prev.0, sounds, channel, events[i]);
      && Session(pedalDown, sounds, channel, events[..i + 1]) == (step.0, prev.1 + step.1)
      && (step.1 == [] ==> Session(pedalDown, sounds, channel, events[..i + 1]) == (step.0, prev.1))
  {
    assert events[..i + 1][..i] == events[..i];
    assert Session(pedalDown, sounds, channel, events[..i]).1 + [] == Session(pedalDown, sounds, channel, events[..i]).1;
  }

  predicate IsSostenuto(e: RawEvent) requires ValidEvent(e) {
    Command(e) == CC && e.data[1] == CC_SOSTENUTO
  }

  /** The pedal state after a block is the one the last sostenuto message
      of the block set (value 64 or more is down). */
  lemma {:induction false} LastSostenutoDecides(pedalDown: bool, sounds: map<Byte, Program>, channel: Byte,
                                                events: seq<RawEvent>, p: nat)
    requires ValidEvents(events) && p < |events| && IsSostenuto(events[p])
    requires forall i :: p < i < |events| ==> !IsSostenuto(events[i])
    ensures Session(pedalDown, sounds, channel, events).0 <==> events[p].data[2] >= 64
    decreases |events|
  {
    var init := events[..|events| - 1];
    assert forall i :: 0 <= i < |init| ==> init[i] == events[i];
    if p < |events| - 1 {
      LastSostenutoDecides(pedalDown, sounds, channel, init, p);
    }
  }

  /** Without sostenuto messages the pedal state is kept. */
  lemma {:induction false} NoSostenutoKeepsPedal(pedalDown: bool, sounds: map<Byte, Program>, channel: Byte,
                                                 events: seq<RawEvent>)
    requires ValidEvents(events)
    requires forall i :: 0 <= i < |events| ==> !IsSostenuto(events[i])
    ensures Session(pedalDown, sounds, channel, events).0 == pedalDown
    decreases |events|
  {
    if events != [] {
      var init := events[..|events| - 1];
      assert forall i :: 0 <= i < |init| ==> init[i] == events[i];
      NoSostenutoKeepsPedal(pedalDown, sounds, channel, init);
    }
  }

  /** Written events leave the transport as it was. */
  lemma {:induction false} NoCallsNoChange(running: bool, calls: seq<Effect>)
    requires forall i :: 0 <= i < |calls| ==> calls[i].Send?
    ensures Alternating(running, calls) && Running(running, calls) == running
    decreases |calls|
  {
    if calls != [] {
      NoCallsNoChange(running, calls[..|calls| - 1]);
    }
  }

  /** One event keeps the transport in step with the pedal. */
  lemma ReactAlternates(pedalDown: bool, sounds: map<Byte, Program>, channel: Byte, e: RawEvent)
    requires ValidEvent(e)
    ensures var r := React(pedalDown, sounds, channel, e);
      Alternating(!pedalDown, r.1) && Running(!pedalDown, r.1) == !r.0
  {
    var r := React(pedalDown, sounds, channel, e);
    if |r.1| == 3 {
      NoCallsNoChange(!pedalDown, r.1);
    } else if |r.1| == 2 {
      assert r.1[..1] == [Stop];
      assert [Stop][..0] == [];
    } else if |r.1| == 1 {
      assert r.1[..0] == [];
    }
  }

  /** Starting from a transport that runs exactly when the pedal is up, no
      start or stop is redundant, and afterwards the transport runs exactly
      when the pedal is up. */
  lemma {:induction false} CallsAlternate(pedalDown: bool, sounds: map<Byte, Program>, channel: Byte,
                                          events: seq<RawEvent>)
    requires ValidEvents(events)
    ensures var r := Session(pedalDown, sounds, channel, events);
      Alternating(!pedalDown, r.1) && Running(!pedalDown, r.1) == !r.0
    decreases |events|
  {
    if events != [] {
      var init := events[..|events| - 1];
      CallsAlternate(pedalDown, sounds, channel, init);
      var prev := Session(pedalDown, sounds, channel, init);
      ReactAlternates(prev.0, sounds, channel, events[|events| - 1]);
      var step := React(prev.0, sounds, channel, events[|events| - 1]);
      AppendCalls(!pedalDown, prev.1, step.1);
    }
  }

  /** A transport call, or a bank select or program change on `channel`. */
  predicate OnChannel(f: Effect, channel: Byte) {
    f.Send? ==> |f.event.data| > 0 && (f.event.data[0] == CC + channel - 1 || f.event.data[0] == PC + channel - 1)
  }

  /** Nothing is forwarded: on channels 1 to 16, everything written is a
      bank select or a program change on the configured channel. */
  lemma {:induction false} OnlyProgramMessages(pedalDown: bool, sounds: map<Byte, Program>, channel: Byte,
                                               events: seq<RawEvent>)
    requires ValidEvents(events) && 1 <= channel <= 16
    ensures forall i :: 0 <= i < |Session(pedalDown, sounds, channel, events).1| ==>
      OnChannel(Session(pedalDown, sounds, channel, events).1[i], channel)
    decreases |events|
  {
    if events != [] {
      var init := events[..|events| - 1];
      OnlyProgramMessages(pedalDown, sounds, channel, init);
      StatusOfChannel(CC, channel);
      StatusOfChannel(PC, channel);
      var prev := Session(pedalDown, sounds, channel, init);
      var step := React(prev.0, sounds, channel, events[|events| - 1]);
      assert forall i :: 0 <= i < |step.1| ==> OnChannel(step.1[i], channel);
      var all := prev.1 + step.1;
      assert Session(pedalDown, sounds, channel, events).1 == all;
      forall i | 0 <= i < |all| ensures OnChannel(all[i], channel) {
        if i < |prev.1| {
          assert all[i] == prev.1[i];
        } else {
          assert all[i] == step.1[i - |prev.1|];
        }
      }
    }
  }

  /** `TransportHandler` of the newer version. The sound table and the
      channel come from the shared controls, whose code is not part of this
      model: they are parameters of `Process`. */
  class TransportHandler {
    /** `m_pedalDown`. */
    var pedalDown: bool

    constructor ()
      ensures !pedalDown
    {
      pedalDown := false;
    }

    /** `process`: the output buffer is cleared, then each event is handled
        in order. */
    method Process(events: seq<RawEvent>, sounds: map<Byte, Program>, channel: Byte) returns (effects: seq<Effect>)
      requires ValidEvents(events)
      modifies this
      ensures (pedalDown, effects) == Session(old(pedalDown), sounds, channel, events)
    {
      effects := [];
      for i := 0 to |events|
        invariant (pedalDown, effects) == Session(old(pedalDown), sounds, channel, events[..i])
      {
        SessionStep(old(pedalDown), sounds, channel, events, i);
        var inEvent := events[i];
        var cmd := Command(inEvent);
        if cmd == CC {
          if inEvent.data[1] == CC_SOSTENUTO {
            var newPedalDown := inEvent.data[2] >= 64;
            if newPedalDown != pedalDown {
              if newPedalDown {
                effects := effects + [Stop, Locate(0)];
              } else {
                effects := effects + [Start];
              }
              pedalDown := newPedalDown;
            }
          }
        } else if cmd == NOTE_ON {
          if pedalDown && inEvent.data[2] > 0 {
            var note := inEvent.data[1];
            if note in sounds {
              var program := sounds[note];
              effects := effects + ProgramChange(program, channel, inEvent.time);
            }
          }
        }
      }
      assert events[..|events|] == events;
    }
  }
}
