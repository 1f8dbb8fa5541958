/** Port naming (CommonControls.cpp): with simple names on, ports are
    called "midi input 1", "midi output 1", "audio input 1", ... in the order
    they are registered, one counter per kind. */
module CommonControls {
  import Decimal

  /** The port type strings the naming distinguishes (`JACK_DEFAULT_MIDI_TYPE`,
      `JACK_DEFAULT_AUDIO_TYPE`), and any other. */
  datatype PortType = MidiType | AudioType | OtherType

  /** `JackPortIsInput` and `JackPortIsOutput`. */
  const IS_INPUT: nat := 1
  const IS_OUTPUT: nat := 2

  /** The four counters `m_midiInputId`, `m_midiOutputId`, `m_audioInputId`,
      `m_audioOutputId`. */
  datatype Counters = Counters(midiInput: nat, midiOutput: nat, audioInput: nat, audioOutput: nat)

  /** The arguments of one `registerPort` call. */
  datatype Request = Request(name: string, portType: PortType, flags: nat)

  function Total(c: Counters): nat {
    c.midiInput + c.midiOutput + c.audioInput + c.audioOutput
  }

  /** `getPortName`: the name to register and the counters afterwards. The
      generated name is empty, and the requested one used, unless the flags
      are exactly input or exactly output of a MIDI or audio port. */
  function PortName(simpleNames: bool, c: Counters, r: Request): (p: (string, Counters))
    ensures Total(c) <= Total(p.1) <= Total(c) + 1
    ensures Total(p.1) == Total(c) ==> p == (r.name, c)
    ensures simpleNames && r.portType == MidiType && r.flags == IS_INPUT ==> p.1.midiInput == c.midiInput + 1
    ensures simpleNames && r.portType == MidiType && r.flags == IS_OUTPUT ==> p.1.midiOutput == c.midiOutput + 1
    ensures simpleNames && r.portType == AudioType && r.flags == IS_INPUT ==> p.1.audioInput == c.audioInput + 1
    ensures simpleNames && r.portType == AudioType && r.flags == IS_OUTPUT ==> p.1.audioOutput == c.audioOutput + 1
  {
    if !simpleNames then (r.name, c)
    else
      var generated :=
        if r.portType == MidiType && r.flags == IS_INPUT then
          ("midi input " + Decimal.Digits(c.midiInput + 1), c.(midiInput := c.midiInput + 1))
        else if r.portType == MidiType && r.flags == IS_OUTPUT then
          ("midi output " + Decimal.Digits(c.midiOutput + 1), c.(midiOutput := c.midiOutput + 1))
        else if r.portType == AudioType && r.flags == IS_INPUT then
          ("audio input " + Decimal.Digits(c.audioInput + 1), c.(audioInput := c.audioInput + 1))
        else if r.portType == AudioType && r.flags == IS_OUTPUT then
          ("audio output " + Decimal.Digits(c.audioOutput + 1), c.(audioOutput := c.audioOutput + 1))
        else ("", c);
      if generated.0 == "" then (r.name, c) else generated
  }

  /** The requested name is kept, and no counter moves, with simple names
      off, for another port type, or for flags other than exactly input or
      exactly output. */
  lemma RequestedNameKept(simpleNames: bool, c: Counters, r: Request)
    ensures !simpleNames || r.portType == OtherType || r.flags !in {IS_INPUT, IS_OUTPUT}
        ==> PortName(simpleNames, c, r) == (r.name, c)
    ensures simpleNames && r.portType != OtherType && r.flags in {IS_INPUT, IS_OUTPUT}
        ==> Total(PortName(simpleNames, c, r).1) == Total(c) + 1
  {
  }

  /** One call moves at most one counter, by one. */
  lemma OneCounterAtMost(simpleNames: bool, c: Counters, r: Request)
    ensures var c' := PortName(simpleNames, c, r).1;
      && c'.midiInput >= c.midiInput && c'.midiOutput >= c.midiOutput
      && c'.audioInput >= c.audioInput && c'.audioOutput >= c.audioOutput
      && Total(c) <= Total(c') <= Total(c) + 1
  {
  }

  predicate IsMidiInput(r: Request) {
    r.portType == MidiType && r.flags == IS_INPUT
  }

  /** Number of MIDI input requests in `rs`. */
  function MidiInputs(rs: seq<Request>): (n: nat)
    ensures n <= |rs|
  {
    if rs == [] then 0 else MidiInputs(rs[..|rs| - 1]) + (if IsMidiInput(rs[|rs| - 1]) then 1 else 0)
  }

  /** The names given to a series of registrations and the counters after it. */
  function RegisterAll(simpleNames: bool, c: Counters, rs: seq<Request>): (r: (seq<string>, Counters))
    ensures |r.0| == |rs|
  {
    if rs == [] then ([], c)
    else
      var prev := RegisterAll(simpleNames, c, rs[..|rs| - 1]);
      var next := PortName(simpleNames, prev.1, rs[|rs| - 1]);
      (prev.0 + [next.0], next.1)
  }

  /** With simple names the MIDI input counter counts the MIDI inputs
      registered so far. */
  lemma {:induction false} MidiInputCounted(c: Counters, rs: seq<Request>)
    ensures RegisterAll(true, c, rs).1.midiInput == c.midiInput + MidiInputs(rs)
  {
    if rs != [] {
      MidiInputCounted(c, rs[..|rs| - 1]);
    }
  }

  /** From fresh counters, the k-th MIDI input registered is called
      "midi input k". */
  lemma {:induction false} KthMidiInput(rs: seq<Request>, i: nat)
    requires i < |rs| && IsMidiInput(rs[i])
    ensures RegisterAll(true, Counters(0, 0, 0, 0), rs).0[i] == "midi input " + Decimal.Digits(MidiInputs(rs[..i + 1]))
  {
    var c := Counters(0, 0, 0, 0);
    var upTo := rs[..i + 1];
    RegisterPrefix(c, rs, i + 1);
    MidiInputCounted(c, rs[..i]);
    assert upTo[..i] == rs[..i] && upTo[i] == rs[i];
    var prev := RegisterAll(true, c, rs[..i]);
    assert RegisterAll(true, c, upTo).0[i] == PortName(true, prev.1, rs[i]).0;
    assert MidiInputs(upTo) == prev.1.midiInput + 1;
  }

  /** Registering a prefix names it as the whole series does. */
  lemma {:induction false} RegisterPrefix(c: Counters, rs: seq<Request>, k: nat)
    requires k <= |rs|
    ensures RegisterAll(true, c, rs[..k]).0 == RegisterAll(true, c, rs).0[..k]
    decreases |rs|
  {
    if k < |rs| {
      var init := rs[..|rs| - 1];
      RegisterPrefix(c, init, k);
      assert init[..k] == rs[..k];
    } else {
      assert rs[..k] == rs;
    }
  }

  /** `CommonControls`: the client handle is not part of this model. */
  class Controls {
    const simpleNames: bool
    var midiInputId: nat
    var midiOutputId: nat
    var audioInputId: nat
    var audioOutputId: nat

    function CountersNow(): Counters
      reads this
    {
      Counters(midiInputId, midiOutputId, audioInputId, audioOutputId)
    }

    constructor (simpleNames: bool)
      ensures this.simpleNames == simpleNames && CountersNow() == Counters(0, 0, 0, 0)
    {
      this.simpleNames := simpleNames;
      midiInputId, midiOutputId, audioInputId, audioOutputId := 0, 0, 0, 0;
    }

    /** `getPortName`, which pre-increments the counter of the port's kind. */
    method GetPortName(portName: string, portType: PortType, flags: nat) returns (name: string)
      modifies this
      ensures (name, CountersNow()) == PortName(simpleNames, old(CountersNow()), Request(portName, portType, flags))
    {
      if !simpleNames {
        return portName;
      }
      var buffer := "";
      if portType == MidiType {
        if flags == IS_INPUT {
          midiInputId := midiInputId + 1;
          buffer := "midi input " + Decimal.Digits(midiInputId);
        } else if flags == IS_OUTPUT {
          midiOutputId := midiOutputId + 1;
          buffer := "midi output " + Decimal.Digits(midiOutputId);
        }
      } else if portType == AudioType {
        if flags == IS_INPUT {
          audioInputId := audioInputId + 1;
          buffer := "audio input " + Decimal.Digits(audioInputId);
        } else if flags == IS_OUTPUT {
          audioOutputId := audioOutputId + 1;
          buffer := "audio output " + Decimal.Digits(audioOutputId);
        }
      }
      if buffer == "" {
        return portName;
      }
      return buffer;
    }
  }
}
