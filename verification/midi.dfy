/** MIDI and JACK vocabulary shared by all handlers: bytes, 32-bit frame
    counters, the events a JACK port buffer holds, and what a handler writes. */
module Midi {

  /** `jack_midi_data_t`, an unsigned 8-bit value. */
  type Byte = x: int | 0 <= x < 256

  /** Number of values of `jack_nframes_t`, an unsigned 32-bit counter. */
  const FRAMES: int := 0x1_0000_0000

  /** `jack_nframes_t`. */
  type Frame = x: int | 0 <= x < FRAMES

  /** Narrowing of an integer to `jack_nframes_t` (arithmetic modulo 2^32). */
  function Wrap(x: int): (r: Frame)
    ensures (r - x) % FRAMES == 0
  {
    x % FRAMES
  }

  /** Narrowing of an integer to `jack_midi_data_t` (arithmetic modulo 2^8). */
  function ToByte(x: int): (r: Byte)
    ensures (r - x) % 256 == 0
  {
    x % 256
  }

  /** C++ `%` on `int`: the remainder takes the sign of the dividend. */
  function CRem(a: int, b: int): (r: int)
    requires b > 0
    ensures -b < r < b
    ensures a >= 0 ==> r == a % b
    ensures a < 0 ==> r <= 0 && -r == (-a) % b
  {
    if a >= 0 then a % b else -((-a) % b)
  }

  /** C++ conversion of a `double` to an integer type: truncation toward
      zero (the conversion is undefined when the truncated value does not
      fit the target type). */
  function Trunc(x: real): (r: int)
    ensures x >= 0.0 ==> r as real <= x < r as real + 1.0
    ensures x < 0.0 ==> r as real - 1.0 < x <= r as real
  {
    if x >= 0.0 then x.Floor else -((-x).Floor)
  }

  // Status bytes and controller numbers (MidiCommands.h)
  const NOTE_ON: Byte := 0x90
  const NOTE_OFF: Byte := 0x80
  const CC: Byte := 0xB0
  const PC: Byte := 0xC0
  const CC_SUSTAIN: Byte := 64
  const CC_SOSTENUTO: Byte := 66

  /** One event of a JACK MIDI port buffer: its offset in the block and its bytes. */
  datatype RawEvent = RawEvent(time: Frame, data: seq<Byte>)

  /** `buffer[0] & 0xf0`: the status byte without its channel nibble. */
  function Command(e: RawEvent): (r: Byte)
    requires |e.data| > 0
    ensures r % 16 == 0 && r <= e.data[0] < r + 16
  {
    e.data[0] / 16 * 16
  }

  /** What JACK delivers: a non-empty message, and note and controller
      messages carry two data bytes below 128. */
  predicate ValidEvent(e: RawEvent) {
    && |e.data| > 0
    && (Command(e) in {NOTE_ON, NOTE_OFF, CC} ==> |e.data| >= 3 && e.data[1] < 128 && e.data[2] < 128)
  }

  predicate ValidEvents(events: seq<RawEvent>) {
    forall i :: 0 <= i < |events| ==> ValidEvent(events[i])
  }

  predicate IsNoteOn(e: RawEvent) requires |e.data| > 0 { Command(e) == NOTE_ON }
  predicate IsNoteOff(e: RawEvent) requires |e.data| > 0 { Command(e) == NOTE_OFF }

  /** `jack_transport_state_t`. */
  datatype TransportState = Stopped | Rolling | Looping | Starting | NetStarting

  /** One call of `jack_midi_event_write`: offset in the block and bytes. */
  datatype Written = Written(offset: Frame, data: seq<Byte>)

  /** What a handler with note bookkeeping puts in its output buffer:
      written events, and calls of the base class's `allNotesOff`, whose
      body is not part of this model. */
  datatype Output = Write(event: Written) | AllNotesOff(time: Byte)

  /** Written events as output entries, in order. */
  function Writes(w: seq<Written>): (r: seq<Output>)
  {
    seq(|w|, i requires 0 <= i < |w| => Write(w[i]))
  }

  /** Appending a non-empty sequence is appending all of it but its last
      element, then that element. */
  lemma AppendLast<T>(a: seq<T>, b: seq<T>)
    requires |b| > 0
    ensures a + b == (a + b[..|b| - 1]) + [b[|b| - 1]]
  {
    assert b == b[..|b| - 1] + [b[|b| - 1]];
  }

  lemma AppendAssoc<T>(x: seq<T>, y: seq<T>, z: seq<T>)
    ensures x + (y + z) == (x + y) + z
  {
  }

  /** An index below the length of a prefix reads the same in the whole. */
  lemma PrefixIndex<T>(all: seq<T>, prev: seq<T>, k: nat)
    requires prev <= all && k < |prev|
    ensures all[k] == prev[k]
  {
  }
}
