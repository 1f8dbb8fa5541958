/** The stored event of MidiEvent.cpp: a frame time and up to four bytes. */
module MidiEvents {
  import opened Midi

  /** `ASI::MidiEvent`: `m_time` and the `m_size` bytes `m_data[0..m_size)`
      that are later handed to `jack_midi_event_write`. */
  datatype MidiEvent = MidiEvent(time: Frame, data: seq<Byte>)

  /** `MidiEvent(time, data, size)`: the fall-through `switch` copies
      `data[3]`, `data[2]`, `data[1]`, `data[0]` from the case `size` down;
      a size above 4 fails the assertion of the `default` branch. */
  function FromBuffer(time: Frame, data: seq<Byte>, size: nat): (r: MidiEvent)
    requires size <= 4
    requires size <= |data|
    ensures r.time == time && |r.data| == size
    ensures r.data == data[..size]
  {
    match size
    case 4 => MidiEvent(time, [data[0], data[1], data[2], data[3]])
    case 3 => MidiEvent(time, [data[0], data[1], data[2]])
    case 2 => MidiEvent(time, [data[0], data[1]])
    case 1 => MidiEvent(time, [data[0]])
    case 0 => MidiEvent(time, [])
  }

  /** `MidiEvent(time, cmd, note, velocity)`: a three-byte message. */
  function NoteEvent(time: Frame, cmd: Byte, note: Byte, velocity: Byte): (r: MidiEvent)
    ensures r == FromBuffer(time, [cmd, note, velocity], 3)
  {
    MidiEvent(time, [cmd, note, velocity])
  }
}
