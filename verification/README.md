# asisynth handlers in Dafny

asisynth is a set of JACK MIDI processors. Each handler owns JACK ports. On
every period it reads the MIDI events of the block, rewrites, delays or
answers them, and writes MIDI, or audio for the synthesiser, to its output
port. This project models those handlers and the helpers they share. It
covers both generations of the code: the handlers under `chords/`, `mode/`,
`handlers/`, `legato/`, `player/`, `synth/` and `transport/`, and the older
handlers at the top of the tree (modules named `Legacy*`).

Module by module:

- **Shared modules**
  - `Results`: the `Result` and `Option` wrappers.
  - `Midi`: bytes, 32-bit frame arithmetic (`Wrap`), C++ narrowing, remainder and truncation, the command nibble, and raw input and written output events.
  - `MidiEvents`: the two `MidiEvent` constructors.
  - `TimeOrder`: the time-ordered multiset used as a queue, and `std::sort`.
  - `Drain`: the loop that writes the queued events falling inside the current block.
  - `MidiPassThrough`: the sostenuto filter.
  - `Decimal`: decimal printing of integers.
- **Handlers**
  - `Mode`, `LegacyMode`: major/minor transposition.
  - `Chords`, `LegacyChords`: the chord file parser and the chord player.
  - `Echo`, `LegacyEcho`: delayed, transposed copies of notes.
  - `Legato`, `LegacyLegato`: delayed note-offs.
  - `Player`: the melody player.
  - `Transport`, `LegacyTransport`: the sostenuto pedal as start/stop, and the keys that select piano sounds.
  - `LegacySynth`: the additive synthesiser: note slots, envelope, event cursor.
- **Supporting modules**
  - `SynthParams`, `LegacySynthParams`: reading synthesiser parameters.
  - `IirFilter`: the IIR filter.
  - `CommonControls`: port naming.
  - `MidiUtils`: note names.
  - `Sounds`: the piano sound table.

Handlers whose fields change from block to block are classes. Their
`Process` methods are proved against a specification function of the old
state and the block. The properties of each handler are lemmas about that
function.

The JACK calls are replaced by values:
- the transport state;
- the frame counter at the start of the block (`framesAtStart`);
- the block size (`nframes`);
- the list of input events;
- the list of written events, which is the return value.

## Model

| member | source | states |
|---|---|---|
| Midi.Wrap | legato/SuperLegatoHandler.cpp:58-64 | a frame sum is reduced modulo 2^32, as `jack_nframes_t` arithmetic does |
| Midi.ToByte | ModeHandler.cpp:31-32 | an `int` narrowed to `jack_midi_data_t` keeps its value modulo 256 |
| Midi.CRem | mode/ModeHandler.cpp:58 | C++ `%` truncates toward zero: the remainder has the sign of the dividend and equals the Euclidean one for non-negative operands |
| Midi.Trunc | handlers/echo/EchoHandler.cpp:40 | a double converted to an integer is truncated toward zero |
| Midi.Command | MidiPassThrough.cpp:9 | `buffer[0] & 0xf0` is the largest multiple of 16 not above the status byte |
| MidiEvents.FromBuffer | MidiEvent.cpp:8-21 | the stored event keeps the time and the first `size` bytes of the buffer (at most four) |
| MidiEvents.NoteEvent | MidiEvent.cpp:23-29 | the three-byte constructor builds the same event as the buffer constructor on `[cmd, note, velocity]` |
| MidiPassThrough.Filtered | MidiPassThrough.cpp:7-30 | an event is consumed iff it is a sostenuto controller; the flag becomes `value < 64` when consumed and is unchanged otherwise |
| MidiPassThrough.FilteredIsIdempotent | MidiPassThrough.cpp:7-30 | filtering the same event twice leaves the flag as filtering it once |
| TimeOrder.Insert | legato/SuperLegatoHandler.cpp:60-61 | inserting into the time-ordered multiset adds exactly the new event and keeps the queue sorted |
| TimeOrder.SortByTime | player/PlayerHandler.cpp:42 | the sorted events are a permutation of the input, in non-decreasing time |
| Drain.Ready | legato/SuperLegatoHandler.cpp:67 | the number of queue-head events inside `[framesAtStart, lastFrame)`; the next one is outside |
| Drain.Emit | legato/SuperLegatoHandler.cpp:69-72 | each written event has offset `time - framesAtStart` and the event's bytes |
| Drain.WindowOffset | legato/SuperLegatoHandler.cpp:64-71 | an event inside the window of a block is written at an offset below `nframes` |
| Drain.DrainWindow | legato/SuperLegatoHandler.cpp:64-74 | the loop writes exactly the ready prefix of the queue and leaves the rest; every offset is inside the block |
| Drain.WrappedBlockDrainsNothing | legato/SuperLegatoHandler.cpp:64-67 | when `framesAtStart + nframes` wraps past 2^32 the window is empty and nothing is written |
| Decimal.Digits | MidiUtils.cpp:29 | the decimal digits of a natural: non-empty, digits only, no leading zero |
| Decimal.DigitsRoundTrip | MidiUtils.cpp:29 | reading the printed digits gives the number back |
| Decimal.IntString | MidiUtils.cpp:29 | the printed integer starts with `-` exactly when it is negative |
| MidiUtils.NoteName | MidiUtils.cpp:11-30 | the name starts with the pitch-class entry of the chosen table and is followed by the octave, which has a minus sign exactly for notes below 24 (octaves -2 and -1) |
| MidiUtils.Spelling | MidiUtils.cpp:11-30 | for notes 24-127 the printed name is the spelling of a valid trigger whose pitch in its octave is the note |
| MidiUtils.NaturalsAgree | MidiUtils.cpp:7-9 | notes of the seven natural pitch classes have the same name in the three tables |
| MidiUtils.BestSpelling | MidiUtils.cpp:9 | the BEST table spells C#, F#, G# as sharps and Eb, Bb as flats |
| MidiUtils.LowestOctave | MidiUtils.cpp:14-29 | notes 0-11 are printed with octave -2 |
| MidiUtils.MiddleCName | MidiUtils.cpp:13-29 | note 60 is named `C3` |
| MidiUtils.TableSpellsClass | MidiUtils.cpp:7-9 | every table entry is a pitch name whose pitch class is its index |
| MidiUtils.NameRoundTrip | MidiUtils.cpp:11-30 | for notes 24-127 the printed name parses back (as in chords/ChordPlayerHandler.cpp:36-60) to the same note, for every table |
| CommonControls.PortName | CommonControls.cpp:14-55 | either no counter moves and the requested name is returned, or exactly one counter goes up by one; with simple names on, a MIDI input, MIDI output, audio input or audio output port moves its own counter |
| CommonControls.RequestedNameKept | CommonControls.cpp:13-54 | the requested name and counters are kept when simple names are off, for other port types, or for flags that are neither input nor output; otherwise one counter goes up by one |
| CommonControls.OneCounterAtMost | CommonControls.cpp:24-45 | a request changes at most one of the four counters |
| CommonControls.MidiInputCounted | CommonControls.cpp:24-34 | after a sequence of requests the MIDI input counter equals the number of MIDI input requests |
| CommonControls.KthMidiInput | CommonControls.cpp:24-34 | from zero counters the k-th MIDI input port is named `midi input ` followed by its 1-based rank |
| CommonControls.MidiInputs | CommonControls.cpp:24-34 | the number of MIDI input requests in a sequence, at most its length |
| CommonControls.RegisterAll | CommonControls.cpp:13-54 | successive `getPortName` calls give one name per request |
| CommonControls.RegisterPrefix | CommonControls.cpp:13-54 | the names given to the first k requests do not depend on later requests |
| CommonControls.Controls.constructor | CommonControls.cpp:8-11 | all four counters start at zero |
| CommonControls.Controls.GetPortName | CommonControls.cpp:13-54 | the returned name and new counters are those of `PortName` from the old counters |
| Sounds.Kdp90Keys | sounds/Sounds.cpp:9-23 | the key set of the KDP90 table |
| Sounds.Kdp90Size | sounds/Sounds.cpp:9-23 | the table has 15 entries |
| Sounds.Kdp90Programs | sounds/Sounds.cpp:9-23 | every key of the table is in 21-45 and every program number is positive |
| Sounds.PianoSounds | sounds/Sounds.cpp:35-38 | `kdp90` yields the table (keys 21-45, key 23 is program 1/95/16); any other name fails as `map::at` does |
| Transport.StatusOfChannel | handlers/transport/TransportHandler.cpp:83-96 | `cmd \| (channel - 1)` is `cmd + channel - 1` for channels 1-16 |
| Transport.ProgramChange | handlers/transport/TransportHandler.cpp:81-96 | three written messages at the key's time: bank MSB (controller 0), bank LSB (controller 32), then program `number - 1` as a byte; on channels 1-16 all on the configured channel |
| Transport.React | handlers/transport/TransportHandler.cpp:39-100 | at most three effects; the pedal changes only on a sostenuto message, and then only transport calls follow; otherwise only MIDI is written |
| Transport.TransportOnChange | handlers/transport/TransportHandler.cpp:43-72 | a sostenuto message produces transport calls only when it changes the pedal: stop and locate(0) on press, start on release |
| Transport.KeySelectsSound | handlers/transport/TransportHandler.cpp:73-100 | a note-on of a mapped key while the pedal is down writes bank MSB, bank LSB and program change at the event's time on the configured channel, with program `number - 1` as a byte; anything else writes nothing |
| Transport.Session | handlers/transport/TransportHandler.cpp:34-102 | the events of a block handled in order: at most three effects per input event |
| Transport.LastSostenutoDecides | handlers/transport/TransportHandler.cpp:43-72 | after a block the pedal is down iff the last sostenuto message had value 64 or more |
| Transport.NoSostenutoKeepsPedal | handlers/transport/TransportHandler.cpp:34-100 | a block without sostenuto messages leaves the pedal flag alone |
| Transport.NoCallsNoChange | handlers/transport/TransportHandler.cpp:43-72 | effects that hold no transport call keep the transport's running state unchanged, and trivially alternate |
| Transport.ReactAlternates | handlers/transport/TransportHandler.cpp:54-67 | one event's transport calls are a stop-locate pair or a start, matching the pedal change |
| Transport.CallsAlternate | handlers/transport/TransportHandler.cpp:21-104 | over a block the transport calls alternate between stop and start, and the last call tells the final pedal state |
| Transport.OnlyProgramMessages | handlers/transport/TransportHandler.cpp:83-96 | every MIDI message the handler writes is a bank select or program change on the configured channel |
| Transport.TransportHandler.constructor | handlers/transport/TransportHandler.cpp:13-19 | the pedal starts up |
| Transport.TransportHandler.Process | handlers/transport/TransportHandler.cpp:21-104 | the new pedal flag and the effects are those of `Session` from the old flag |
| LegacyTransport.Toggle | transport/TransportHandler.cpp:25-49 | the flag changes exactly when calls are made, only on a sostenuto message, and every effect is a transport call |
| LegacyTransport.Toggles | transport/TransportHandler.cpp:17-51 | every effect of the older handler is a transport call; it writes no MIDI |
| LegacyTransport.CallsOnChange | transport/TransportHandler.cpp:28-49 | a sostenuto message calls the transport only when it changes the active flag: start when it becomes active, stop then locate(0) when it becomes inactive |
| LegacyTransport.LastSostenutoDecides | transport/TransportHandler.cpp:28-48 | after a block the handler is active iff the last sostenuto message had value below 64 |
| LegacyTransport.NoSostenutoNoCalls | transport/TransportHandler.cpp:28-29 | a block without sostenuto messages makes no calls and keeps the flag |
| LegacyTransport.CallsAlternate | transport/TransportHandler.cpp:17-51 | over a block the calls alternate and the last one tells the final flag |
| LegacyTransport.LegacyTransportHandler.constructor | transport/TransportHandler.cpp:11-15 | the handler starts active (`m_active(true)`) |
| LegacyTransport.LegacyTransportHandler.Process | transport/TransportHandler.cpp:17-51 | the new flag and the calls are those of `Toggles` from the old flag |
| Mode.TableMatchesShift | mode/ModeHandler.cpp:15-17 | the major-to-minor table lowers E, A and B by a semitone, keeps the other naturals, and has no entry for pitch classes 3 and 8 |
| Mode.Transpose | mode/ModeHandler.cpp:23-49 | the result is SKIP or a MIDI note, equal to the note or one below; the skip quirk gives SKIP on pitch classes 3 and 8; it agrees with the reference `ScaleShift` |
| Mode.EventStep | mode/ModeHandler.cpp:112-162 | one event keeps the 128-entry memory well formed; a non-note event is written unchanged at its time and leaves the memory alone; a note event writes at most one event and changes only its own key's entry |
| Mode.Run | mode/ModeHandler.cpp:107-164 | a block keeps the memory well formed |
| Mode.ModeHandler.constructor | mode/ModeHandler.cpp:57-94 | the offset is `offset % 12` with C++ sign, the conversion is chosen from the target, the quirk maps below/skip/above to -1/0/1, and every key starts not mapped |
| Mode.ModeHandler.Rewrite | mode/ModeHandler.cpp:112-162 | one event updates the memory and writes exactly what `EventStep` gives |
| Mode.ModeHandler.Process | mode/ModeHandler.cpp:96-165 | the written events and the new memory are those of `Run` |
| Mode.NoteOnStoresMapping | mode/ModeHandler.cpp:127-136 | a note-on with velocity > 0 stores its transposed note while rolling; otherwise the note passes through and the memory is unchanged |
| Mode.SecondNoteOffPlaysOriginal | mode/ModeHandler.cpp:137-145 | a release clears the key's memory, so a second release of the same key passes the original note |
| Mode.RunKeepsOtherKeys | mode/ModeHandler.cpp:107-164 | events about other keys leave a key's memory entry unchanged |
| Mode.NoteOffReleasesMappedNote | mode/ModeHandler.cpp:127-155 | a release after a mapped note-on sounds the note that the note-on played, whatever happens in between on other keys |
| Mode.NonNoteEventsPassThrough | mode/ModeHandler.cpp:107-162 | a block without note events is written unchanged, event for event, and the memory is kept |
| Mode.RunOutputBound | mode/ModeHandler.cpp:147-162 | a block writes at most one event per input event |
| LegacyMode.Transpose | ModeHandler.cpp:14-34 | `ok` iff the pitch class is not 3 or 8; the note is narrowed to a byte and is the input note or one below, modulo 256 |
| LegacyMode.Rewrite | ModeHandler.cpp:78-102 | non-note events pass unchanged; a note event is written iff `ok`, with status and velocity kept and the note `transpose` returns |
| LegacyMode.RewriteAll | ModeHandler.cpp:69-104 | the events of a block rewritten in order: at most one written event per input event |
| LegacyMode.RewriteAllSplits | ModeHandler.cpp:60-107 | the older handler has no memory: rewriting two blocks back to back is rewriting each |
| LegacyMode.LegacyModeHandler.constructor | ModeHandler.cpp:40-58 | the offset is `offset % 12` with C++ sign |
| LegacyMode.LegacyModeHandler.Process | ModeHandler.cpp:60-107 | the written events are those of `RewriteAll` |
| Chords.ParsePitch | chords/ChordPlayerHandler.cpp:26-34 | a parsed pitch is a letter with alteration, and the input is its spelling followed by the rest |
| Chords.ParseSpelledPitch | chords/ChordPlayerHandler.cpp:26-34 | a spelled pitch parses back to itself |
| Chords.ParseNote | chords/ChordPlayerHandler.cpp:38-41 | an accepted note has a valid pitch and an octave 0-8, and the string ends with that octave's digit |
| Chords.NoteParsing | chords/ChordPlayerHandler.cpp:38-47 | a string matches the note pattern iff it is the spelling of a valid note |
| Chords.ModeFollowedBySlash | chords/ChordPlayerHandler.cpp:73 | a mode name followed by nothing or `/` is read as that mode |
| Chords.ParseChord | chords/ChordPlayerHandler.cpp:73-78 | an accepted chord has a valid root, one of the five chord kinds, and a valid bass when there is one |
| Chords.SpelledChordParses | chords/ChordPlayerHandler.cpp:73-78 | every valid chord spelling matches the chord pattern and parses to itself |
| Chords.ParsedChordIsSpelled | chords/ChordPlayerHandler.cpp:73-78 | whatever parses is the spelling of the chord it parses to |
| Chords.ChordParsing | chords/ChordPlayerHandler.cpp:73-78 | a string parses to a chord iff it is that chord's spelling |
| Chords.RootNote | chords/ChordPlayerHandler.cpp:26-34 | root plus letter offset plus alteration, within two below and thirteen above the root |
| Chords.NoteAndOctave | chords/ChordPlayerHandler.cpp:36-60 | succeeds iff the note parses, giving a value in 22-133; otherwise the error is `Failed to parse: ` and the input |
| Chords.MiddleC | chords/ChordPlayerHandler.cpp:54-55 | `C3` is note 60 |
| Chords.SpelledNoteValue | chords/ChordPlayerHandler.cpp:38-57 | a spelled note reads back as its pitch counted from octave `(octave + 2) * 12` |
| Chords.OctaveUp | chords/ChordPlayerHandler.cpp:53-57 | one octave up in the name is twelve semitones up |
| Chords.AllNotes | chords/ChordPlayerHandler.cpp:62-69 | appends the mode's offsets added to the root, in order |
| Chords.BassBelow | chords/ChordPlayerHandler.cpp:97-102 | the bass note is the one of its pitch class in the octave just below the root |
| Chords.OneNotePerOctave | chords/ChordPlayerHandler.cpp:97-102 | an octave holds only one note of each pitch class, so that bass note is unique |
| Chords.ChordNotes | chords/ChordPlayerHandler.cpp:71-106 | the voicing has one note per mode offset plus the bass, all within 34-71; the bass comes first |
| Chords.BassIsLowest | chords/ChordPlayerHandler.cpp:93-105 | the inserted bass is below every chord note |
| Chords.BassNote | chords/ChordPlayerHandler.cpp:97-102 | the loop computes `BassBelow` |
| Chords.CreateChord | chords/ChordPlayerHandler.cpp:71-106 | succeeds iff the chord parses, with the notes of `ChordNotes`; otherwise `Failed to parse: ` and the input |
| Chords.Split | chords/ChordPlayerHandler.cpp:133 | splitting gives one more piece than separators, none containing the separator |
| Chords.JoinSplit | chords/ChordPlayerHandler.cpp:133 | joining the pieces with the separator gives the line back |
| Chords.ParseLine | chords/ChordPlayerHandler.cpp:127-159 | blank and comment lines are accepted and give no entry; a line that reads gives an entry iff it is not blank, and that entry's trigger is the parse of the first field |
| Chords.ParseLineFields | chords/ChordPlayerHandler.cpp:133-158 | a non-blank line reads iff its first field is a note and, when there are two fields and the second is neither empty nor `SKIP`, that field is a chord; the entry skips iff there are two fields and the second is `SKIP`; it has that chord's notes, and no notes otherwise; a failing line reports `Failed to parse: ` and the failing field |
| Chords.ChordFile | chords/ChordPlayerHandler.cpp:108-161 | the entries start with the sentinel and have one entry per non-blank line |
| Chords.ChordFileOk | chords/ChordPlayerHandler.cpp:108-161 | the file reads iff every line does |
| Chords.EntryOfLine | chords/ChordPlayerHandler.cpp:127-159 | the entry of a non-blank line sits at its rank among the non-blank lines, after the sentinel, and is that line's parse |
| Chords.FilePrefix | chords/ChordPlayerHandler.cpp:108-161 | the entries read from the first lines of a file begin the entries of the whole file |
| Chords.ChordFileEntries | chords/ChordPlayerHandler.cpp:108-161 | every non-blank line of a file that reads has its parse at its rank |
| Chords.FirstErrorWins | chords/ChordPlayerHandler.cpp:125-160 | the first failing line decides the error, whatever follows |
| Chords.ReadLine | chords/ChordPlayerHandler.cpp:127-159 | the body of the line loop yields exactly `ParseLine` of the line, errors included |
| Chords.PopulateChords | chords/ChordPlayerHandler.cpp:108-161 | the loop computes `ChordFile` |
| Chords.ActualVelocity | chords/ChordPlayerHandler.cpp:188 | velocity 0 means the input velocity; otherwise the configured velocity modulo 128 |
| Chords.Voicing | chords/ChordPlayerHandler.cpp:190-198 | one message per note, in note order, each at the event's time with the given status and velocity |
| Chords.Execute | chords/ChordPlayerHandler.cpp:183-199 | one three-byte message per chord note at the event's time |
| Chords.Cue | chords/ChordPlayerHandler.cpp:292-318 | the cursor advances by one iff the awaited trigger is pressed with velocity > 0; otherwise nothing changes and nothing is written; a skip entry advances without writing and keeps `previous`; any other entry writes note-offs for the sounding entry then note-ons for the awaited one, at the event's time with the actual velocity, and becomes the sounding entry |
| Chords.Run | chords/ChordPlayerHandler.cpp:287-321 | the cursor stays valid and advances at most once per event; a block that does not advance it writes nothing |
| Chords.RunStep | chords/ChordPlayerHandler.cpp:287-321 | one more event is played from where the block left off, and its output is appended after the block's |
| Chords.RunConcat | chords/ChordPlayerHandler.cpp:287-321 | two blocks played back to back are one block: the outputs are joined in input order |
| Chords.FinishedIgnoresRest | chords/ChordPlayerHandler.cpp:292-295 | once the file is finished later events change nothing and write nothing |
| Chords.PressesWalkTheFile | chords/ChordPlayerHandler.cpp:299-318 | pressing the triggers in file order advances one entry per press |
| Chords.Block | chords/ChordPlayerHandler.cpp:253-331 | entering Stopped writes note-offs for the sounding entry at time 0 with velocity 80 as input and rewinds to next=1, previous=0; Rolling plays the block with `Run`; any other case changes and writes nothing |
| Chords.ChordPlayer.constructor | chords/ChordPlayerHandler.cpp:208-223 | the player starts stopped, awaiting entry 1 with the sentinel sounding |
| Chords.ChordPlayer.Reset | chords/ChordPlayerHandler.cpp:247-251 | rewinds to entry 1 with the sentinel sounding |
| Chords.ChordPlayer.Process | chords/ChordPlayerHandler.cpp:253-331 | the new cursor and the written events are those of `Block`; the state is remembered |
| Chords.Open | chords/ChordPlayerHandler.cpp:208-223 | construction fails exactly when the file fails to read, with its error |
| LegacyChords.LegacyNoteAndOctave | ChordPlayerHandler.cpp:34-52 | the older octave convention is twelve semitones below the newer one |
| LegacyChords.MiddleC | ChordPlayerHandler.cpp:46-47 | `C4` is note 60 in the older convention |
| LegacyChords.LegacyCreateChord | ChordPlayerHandler.cpp:63-93 | on a well-formed chord the older builder gives the same notes as the newer one |
| LegacyChords.LegacyParseLine | ChordPlayerHandler.cpp:114-142 | a well-formed line gives an entry iff it is not blank; its trigger is the first field read with the older octave; a second field other than `SKIP` is a chord |
| LegacyChords.LegacyParseLineFields | ChordPlayerHandler.cpp:120-141 | the entry of a non-blank line skips iff there are two fields and the second is `SKIP`; it has the chord's notes when the second of two fields is a chord, and no notes otherwise |
| LegacyChords.LegacyChordFile | ChordPlayerHandler.cpp:95-144 | the sentinel and one entry per non-blank line |
| LegacyChords.LegacyEntryOfLine | ChordPlayerHandler.cpp:114-142 | the entry of a non-blank line sits at its rank among the non-blank lines and is that line's parse |
| LegacyChords.LegacyChordFileEntries | ChordPlayerHandler.cpp:95-144 | every non-blank line has its parse at its rank |
| LegacyChords.LineAgrees | ChordPlayerHandler.cpp:114-142 | on one line both readers accept, both give an entry or neither does, with the same skip flag, the same notes and a trigger twelve lower in the older one |
| LegacyChords.ReadersAgree | ChordPlayerHandler.cpp:95-144 | on a file both read, the two readers agree entry by entry (skip flag and notes) except that triggers are twelve lower |
| LegacyChords.LegacyReadLine | ChordPlayerHandler.cpp:114-142 | the body of the older line loop yields exactly `LegacyParseLine` of a well-formed line |
| LegacyChords.LegacyPopulateChords | ChordPlayerHandler.cpp:95-144 | the loop computes `LegacyChordFile` |
| LegacyChords.LegacyExecute | ChordPlayerHandler.cpp:166-181 | messages on status `cmd + 1` with velocity 64 |
| LegacyChords.LegacyCue | ChordPlayerHandler.cpp:212-238 | the cursor advances iff any note-on of the awaited trigger arrives; otherwise nothing changes; a skip entry advances silently; any other entry writes note-offs for the sounding entry then note-ons for the awaited one on status `cmd + 1` with velocity 64, and becomes the sounding entry |
| LegacyChords.LegacyRun | ChordPlayerHandler.cpp:210-241 | the cursor stays valid and advances at most once per event; a block that does not advance it writes nothing |
| LegacyChords.LegacyRunStep | ChordPlayerHandler.cpp:210-241 | one more event is played from where the block left off, and its output is appended after the block's |
| LegacyChords.LegacyRunConcat | ChordPlayerHandler.cpp:210-241 | two blocks played back to back are one block: the outputs are joined in input order |
| LegacyChords.LegacyFinishedIgnoresRest | ChordPlayerHandler.cpp:212-215 | once finished, later events change nothing |
| LegacyChords.ReleaseCountsAsPress | ChordPlayerHandler.cpp:222-238 | a velocity-0 note-on counts as a press in the older player and not in the newer one |
| LegacyChords.LegacyChordPlayer.constructor | ChordPlayerHandler.cpp:188-199 | reads the file and awaits entry 1 |
| LegacyChords.LegacyChordPlayer.Process | ChordPlayerHandler.cpp:201-242 | the new cursor and output are those of `LegacyRun` |
| Echo.OctaveFold | handlers/echo/EchoHandler.cpp:9-20 | the note is moved by whole octaves into 0-127: unchanged if in range, the lowest octave from below, the highest from above |
| Echo.FoldIsUnique | handlers/echo/EchoHandler.cpp:13-20 | those conditions determine the folded note |
| Echo.EchoVelocity | handlers/echo/EchoHandler.cpp:23-24 | the scaled velocity truncated, at most 127; a scaled velocity below 1 gives 0; a ratio of 1 keeps a MIDI velocity |
| Echo.EchoOf | handlers/echo/EchoHandler.cpp:7-27 | the echo keeps the status byte, folds the transposed note and scales the velocity |
| Echo.CreateNewMidiEvent | handlers/echo/EchoHandler.cpp:7-27 | the loops compute `EchoOf` |
| Echo.Echoes | handlers/echo/EchoHandler.cpp:72-91 | exactly one echo per note-on or note-off (`NoteCount`), each a valid MIDI note with velocity at most 127 |
| Echo.EchoOfEvent | handlers/echo/EchoHandler.cpp:79-90 | the note event at index i is echoed at its rank among the note events, as `EchoOf` of the event at `framesAtStart + time + lag` modulo 2^32 |
| Echo.EchoesSelectNotes | handlers/echo/EchoHandler.cpp:72-91 | exactly the note-ons and note-offs are echoed, in input order, each at its shifted time |
| Echo.ZeroLagStaysInBlock | handlers/echo/EchoHandler.cpp:84-99 | with no lag, every echo falls in its own block |
| Echo.ZeroLagWritesEverything | handlers/echo/EchoHandler.cpp:93-102 | with no lag an empty queue is written out entirely and stays empty |
| Echo.EchoHandler.constructor | handlers/echo/EchoHandler.cpp:35-41 | the lag is `lagSeconds * sampleRate` truncated |
| Echo.EchoHandler.Process | handlers/echo/EchoHandler.cpp:43-111 | a stop after another state writes all-notes-off and clears the queue; rolling appends the echoes and drains the window; otherwise nothing |
| LegacyEcho.LegacyEchoOf | EchoHandler.cpp:5-24 | the older echo keeps the velocity |
| LegacyEcho.CreateNewMidiEvent | EchoHandler.cpp:5-24 | the loops compute `LegacyEchoOf` |
| LegacyEcho.LegacyEchoes | EchoHandler.cpp:48-67 | one queued echo per note-on or note-off, as counted by `Echo.NoteCount` |
| LegacyEcho.SameAsUnitRatio | EchoHandler.cpp:48-67 | the older handler queues what the newer queues with velocity ratio 1 |
| LegacyEcho.LegacyEchoHandler.constructor | EchoHandler.cpp:30-35 | the lag in frames starts at 0 with an empty queue |
| LegacyEcho.LegacyEchoHandler.SampleRate | EchoHandler.cpp:82-86 | the lag is recomputed from the new rate |
| LegacyEcho.LegacyEchoHandler.Process | EchoHandler.cpp:37-80 | appends the echoes and drains the window; offsets are inside the block |
| Legato.DelayFrames | legato/SuperLegatoHandler.cpp:18-24 | a negative delay fails with `Legato delay must be positive`; otherwise the frames are the wrapped product divided by 1000 |
| Legato.Delay | legato/SuperLegatoHandler.cpp:48-56 | the delay is the configured one or none; it is the configured one exactly for a release (note-off or velocity-0 note-on) while the transport rolls |
| Legato.Stamp | legato/SuperLegatoHandler.cpp:45-61 | the queued copy keeps the bytes; a release while rolling is queued at framesAtStart + time + delay, every other event at framesAtStart + time, modulo 2^32 |
| Legato.InsertAll | legato/SuperLegatoHandler.cpp:40-62 | the queue grows by the block's size and stays sorted |
| Legato.InsertAllKeepsEvents | legato/SuperLegatoHandler.cpp:40-62 | the queue afterwards is the old queue plus the stamped copy of every input event |
| Legato.DrainedInOrder | legato/SuperLegatoHandler.cpp:66-74 | written offsets never decrease |
| Legato.LegatoHandler.constructor | legato/SuperLegatoHandler.cpp:12-25 | an empty queue with the converted delay |
| Legato.LegatoHandler.StoredCopy | legato/SuperLegatoHandler.cpp:45-61 | the loop body computes `Stamp` |
| Legato.LegatoHandler.Enqueue | legato/SuperLegatoHandler.cpp:40-62 | the input loop computes `InsertAll` |
| Legato.LegatoHandler.Process | legato/SuperLegatoHandler.cpp:27-75 | queues the block and writes the ready prefix in time order, inside the block |
| Legato.Open | legato/SuperLegatoHandler.cpp:12-25 | construction fails iff the delay is negative |
| LegacyLegato.LegacyStamp | SuperLegatoHandler.cpp:47-55 | only status-0x80 note-offs are delayed |
| LegacyLegato.Kept | SuperLegatoHandler.cpp:37-56 | at most one queued copy per input event |
| LegacyLegato.Intake | SuperLegatoHandler.cpp:37-56 | the queue grows by the kept events and stays sorted |
| LegacyLegato.IntakeKeepsEvents | SuperLegatoHandler.cpp:37-56 | pedal messages are consumed and every other event is queued |
| LegacyLegato.NoPedalKeepsActive | SuperLegatoHandler.cpp:42-45 | without pedal messages the flag is unchanged |
| LegacyLegato.LastPedalDecides | SuperLegatoHandler.cpp:42-45 | the last pedal message decides the flag |
| LegacyLegato.PedalDecidesPrefix | SuperLegatoHandler.cpp:42-45 | on every prefix that reaches past the last pedal message, that message decides the flag |
| LegacyLegato.ZeroVelocityNoteOnNotDelayed | SuperLegatoHandler.cpp:50 | a velocity-0 note-on is not delayed by the older handler but is by the newer one |
| LegacyLegato.LegacyLegatoHandler.constructor | SuperLegatoHandler.cpp:12-19 | starts active with an empty queue and no delay |
| LegacyLegato.LegacyLegatoHandler.SampleRate | SuperLegatoHandler.cpp:76-79 | the delay is the 32-bit product divided by 1000 |
| LegacyLegato.LegacyLegatoHandler.Take | SuperLegatoHandler.cpp:39-55 | one input event: pedal messages update the flag, others are inserted |
| LegacyLegato.LegacyLegatoHandler.Process | SuperLegatoHandler.cpp:21-74 | an inactive handler writes what `midiPassThrough` writes and takes the flag it leaves, both parameters (see Left out), and keeps its queue; otherwise queue, drain in order, and clear the queue if the block ends inactive; every written offset is inside the block, in non-decreasing order |
| Player.GetVelocity | player/PlayerHandler.cpp:11-16 | the velocity of a beat is taken cyclically from the list |
| Player.VelocityCycles | player/PlayerHandler.cpp:11-16 | the velocity pattern repeats with the list's length |
| Player.FrameOf | player/PlayerHandler.cpp:30-31 | the frame of a beat is `beats * 60 * sampleRate / tempo`, rounded down |
| Player.FrameOfMonotonic | player/PlayerHandler.cpp:30-31 | later beats never start earlier |
| Player.AdjustedEnd | player/PlayerHandler.cpp:32 | the note-off is not before the start, and not after the end when the coefficient is at most 1 |
| Player.NoteEvents | player/PlayerHandler.cpp:33-37 | a note-on at the start and a note-off at the adjusted end for each note |
| Player.Span | player/PlayerHandler.cpp:27-32 | the note-off is not before the note-on, and with a coefficient of at most 1 not after the frame where the chord's beats end |
| Player.ChordEvents | player/PlayerHandler.cpp:25-38 | nothing before the first beat; otherwise two events per note of the chord, each a three-byte note-on or note-off with the beat's velocity |
| Player.Unsorted | player/PlayerHandler.cpp:20-40 | the list before sorting holds only three-byte note-ons and note-offs |
| Player.EventCount | player/PlayerHandler.cpp:22-40 | two events per note of every chord from the first beat on |
| Player.EarlyChordsAreSilent | player/PlayerHandler.cpp:25 | chords before the first beat produce nothing |
| Player.AppendChord | player/PlayerHandler.cpp:33-37 | the inner loop appends `NoteEvents` |
| Player.AppendChordAt | player/PlayerHandler.cpp:25-38 | the loop body appends the chord's events |
| Player.ProcessMelody | player/PlayerHandler.cpp:18-43 | the result is sorted by time and a permutation of all chord events |
| Player.Cued | player/PlayerHandler.cpp:93 | the maximal run of due events from the position |
| Player.Replayed | player/PlayerHandler.cpp:95-98 | one written event per replayed event |
| Player.DueOffset | player/PlayerHandler.cpp:91-96 | a due event's offset is inside the block |
| Player.Replay | player/PlayerHandler.cpp:88-101 | writes exactly the due run and advances past it |
| Player.PlayerHandler.constructor | player/PlayerHandler.cpp:52-62 | the master list is the sorted melody, at position 0, stopped |
| Player.PlayerHandler.Process | player/PlayerHandler.cpp:64-111 | a stop after another state writes all-notes-off and rewinds; rolling replays the due events inside the block; otherwise nothing |
| SynthParams.StrToWave | synth/SynthParameters.cpp:14-32 | succeeds iff the name is one of the five waves, and the wave's name is the input; otherwise `Unknown wave type` |
| SynthParams.StrToPass | synth/SynthParameters.cpp:34-52 | the same for the five pass types, with `Unknown pass type` |
| SynthParams.WaveRoundTrip | synth/SynthParameters.cpp:14-32 | every wave's name reads back as that wave |
| SynthParams.PassRoundTrip | synth/SynthParameters.cpp:34-52 | every pass's name reads back as that pass |
| SynthParams.Harmonics | synth/SynthParameters.cpp:54-67 | one harmonic per entry |
| SynthParams.ReadHarmonics | synth/SynthParameters.cpp:54-67 | succeeds iff every wave name is known, appending the converted entries |
| SynthParams.LoadSynthParameters | synth/SynthParameters.cpp:76-113 | succeeds iff all waves and the pass name are known, wave errors first; every field is copied as the loader does |
| LegacySynthParams.StrToWave | SynthParameters.cpp:10-28 | the older reader accepts the same five names |
| LegacySynthParams.WaveRoundTrip | SynthParameters.cpp:10-28 | names read back as their wave |
| LegacySynthParams.Harmonics | SynthParameters.cpp:30-43 | one harmonic per entry |
| LegacySynthParams.ReadHarmonics | SynthParameters.cpp:30-43 | succeeds iff every wave name is known |
| LegacySynthParams.SameWaveNames | SynthParameters.cpp:10-28 | the older and newer readers accept the same names |
| LegacySynthParams.LoadSynthParameters | SynthParameters.cpp:50-84 | succeeds iff all waves are known; the pass is always bandpass; peak and release are never read |
| IirFilter.Step | Filter.h:67-98 | one sample keeps the sizes of the input and output rings |
| IirFilter.StepRecurrence | Filter.h:75-93 | the output is `sum b[i] x[n-i] - sum a[i] y[n-i]` over the size of the filter |
| IirFilter.IdentityStep | Filter.h:67-98 | with `b = [1]` and `a = [1]` the output equals the input |
| IirFilter.Run | Filter.h:67-98 | processing a buffer keeps the sizes of the rings |
| IirFilter.RunKeepsInputs | Filter.h:67-98 | after a buffer no longer than the ring, sample i of the buffer sits in slot `(pos + i) & mask` of the input ring |
| IirFilter.Clear | Filter.h:20-33 | the rings start zeroed |
| IirFilter.CopyFront | Filter.h:52-55 | coefficients are copied in front and padded with zeros |
| IirFilter.Normalised | Filter.h:57-64 | when the filter is not trivial, `a[1..]` is divided by `a[0]` and `a[0]` becomes 0; `b` is copied unscaled |
| IirFilter.Filter.constructor | Filter.h:20-33 | position 0, one coefficient, `b = [1, 0, ...]`, and everything else zero |
| IirFilter.Filter.Init | Filter.h:35-65 | fails on an empty or oversize `a` (and `b`) with the source's messages; otherwise stores the normalised coefficients |
| IirFilter.Filter.Sums | Filter.h:75-88 | the loop computes the two dot products |
| IirFilter.Filter.Push | Filter.h:69-95 | one sample: the rings are those of `Step` and the position advances by one |
| IirFilter.Filter.Process | Filter.h:67-98 | the rings and position are those of `Run` |
| LegacySynth.SawtoothWave | SynthesiserHandler.cpp:10-14 | the sawtooth lies in [-1, 1) |
| LegacySynth.SawtoothPeriod | SynthesiserHandler.cpp:10-14 | it has period 1 |
| LegacySynth.TriangleWave | SynthesiserHandler.cpp:16-20 | the triangle lies in [-1, 1] |
| LegacySynth.SquareWave | SynthesiserHandler.cpp:22-25 | the square is 1 exactly when the fractional part exceeds one half, else -1 |
| LegacySynth.SquarePeriod | SynthesiserHandler.cpp:22-25 | it has period 1 |
| LegacySynth.PositiveTotal | SynthesiserHandler.cpp:210-214 | positive amplitudes give a positive total |
| LegacySynth.SumAmplitudes | SynthesiserHandler.cpp:210-214 | the loop computes the total amplitude |
| LegacySynth.NoteVolume | SynthesiserHandler.cpp:203-216 | no volume when there are no harmonics; otherwise volume times total is the configured volume |
| LegacySynth.Envelope | SynthesiserHandler.cpp:121-165 | attack ramps up by the attack rate and becomes sustain, clamped to 1, exactly when it would reach 1; sustain and decay ramp down by their rates and become off, clamped to 0, exactly when they would reach 0; off keeps its level and becomes empty when the amplitude is negligible; the level stays in [0, 1] |
| LegacySynth.StepNote | SynthesiserHandler.cpp:118-169 | empty slots are skipped; otherwise envelope then smoothing; settled notes stay settled |
| LegacySynth.Average | SynthesiserHandler.cpp:169 | the smoothed amplitude is the weighted mean, in [0, 1] when both are |
| LegacySynth.StepAll | SynthesiserHandler.cpp:119-182 | every slot is stepped |
| LegacySynth.StepAllKeepsSettled | SynthesiserHandler.cpp:119-182 | levels and amplitudes stay in [0, 1] |
| LegacySynth.FirstEmpty | SynthesiserHandler.cpp:218-233 | the first empty slot |
| LegacySynth.AddSlot | SynthesiserHandler.cpp:201-234 | only the first empty slot changes, to a starting note; nothing changes without harmonics |
| LegacySynth.RemoveSlots | SynthesiserHandler.cpp:236-245 | every slot of that note goes to decay |
| LegacySynth.AddSlotKeepsSettled | SynthesiserHandler.cpp:201-234 | adding keeps every slot settled |
| LegacySynth.RemoveSlotsKeepsSettled | SynthesiserHandler.cpp:236-245 | removing keeps every slot settled |
| LegacySynth.Cursor | SynthesiserHandler.cpp:80-116 | the event index before frame i is at most the number of events and at most i |
| LegacySynth.AppliedAt | SynthesiserHandler.cpp:92-116 | an applied event is one of the block, at that frame |
| LegacySynth.ApplyEvent | SynthesiserHandler.cpp:92-109 | the slot count is kept; events other than note-on and note-off change nothing; a note event changes only the first empty slot and the slots of its key |
| LegacySynth.RenderFrame | SynthesiserHandler.cpp:88-184 | one frame keeps the slot count |
| LegacySynth.Render | SynthesiserHandler.cpp:88-184 | a block keeps the slot count |
| LegacySynth.RenderKeepsSettled | SynthesiserHandler.cpp:88-184 | rendering keeps all slots settled |
| LegacySynth.PassedEventBlocks | SynthesiserHandler.cpp:92-116 | an event whose frame has passed stops the cursor for the rest of the block |
| LegacySynth.SecondNoteIsDropped | SynthesiserHandler.cpp:88-116 | of two events at frame 0, the second is never applied |
| LegacySynth.IntendedAppliesAll | SynthesiserHandler.cpp:88-116 | the intended cursor applies every event of a sorted block |
| LegacySynth.LegacySynthHandler.constructor | SynthesiserHandler.cpp:32-65 | the ten harmonics, time 0, 128 empty slots |
| LegacySynth.LegacySynthHandler.SampleRate | SynthesiserHandler.cpp:189-195 | the rates make the attack last `attackTime` seconds at the new rate |
| LegacySynth.LegacySynthHandler.AddNote | SynthesiserHandler.cpp:201-234 | the slots become `AddSlot` of the old slots |
| LegacySynth.LegacySynthHandler.RemoveNote | SynthesiserHandler.cpp:236-245 | the slots become `RemoveSlots` of the old slots |
| LegacySynth.LegacySynthHandler.StepSlots | SynthesiserHandler.cpp:118-182 | the slots become `StepAll` of the old slots |
| LegacySynth.LegacySynthHandler.RenderOneFrame | SynthesiserHandler.cpp:90-184 | one frame advances the cursor and renders the slots |
| LegacySynth.LegacySynthHandler.RenderBlock | SynthesiserHandler.cpp:88-185 | the frame loop leaves the slots equal to `Render` of the old ones and keeps every envelope in range |
| LegacySynth.LegacySynthHandler.Process | SynthesiserHandler.cpp:67-187 | the slots are `Render` of the old ones, and the time advances by the block, modulo 2^32 |

## Left out

- Audio output: the synthesiser's samples involve `sin`, `pow` and floating-point rounding. The model keeps the slot states, the envelope, the smoothing and the wave shapes over reals, but not the summed sample or the note frequency.
- JACK calls: registering ports, querying the transport, reading the frame clock, getting and writing buffers. They are parameters or return values. `CommonControls::registerPort` is only a JACK call and is not modelled.
- `noteChange` and `allNotesOff` are not part of this model. Only the fact that all-notes-off is written at offset 0 is kept, as an output marker.
- LegacyLegato.LegacyLegatoHandler.Process: the body of `midiPassThrough` is not part of this model. For an inactive block, what it writes (`passOut`) and the flag it leaves (`passActive`) are parameters. `passOut` is required to hold offsets inside the block in non-decreasing order, which is all `jack_midi_event_write` accepts. The model does not say which input events the pass-through forwards.
- File and JSON reading: `loadPlayerMelody`, the parameter JSON parser and its type errors are not modelled. The chord file is given as its lines, and the JSON document as an abstract record.
- `getSelectedSounds` and `getChannel` are not part of this model. The newer transport handler takes the sound map and channel as parameters.
- Port types: `CommonControls::getPortName` compares type strings by pointer. The model compares them as an enumeration.
- `MidiUtils.NoteName`: the stream written by `streamNoteName` is modelled as a returned string.
- Player.FrameOf: `size_t` arithmetic is modelled unbounded, without 64-bit wrap-around.
- Player.AdjustedEnd: requires `legatoCoeff >= 0`. A negative coefficient would convert a negative double to `size_t`.
- LegacySynth.LegacySynthHandler.SampleRate: requires a non-zero rate. The source divides by it.
- Echo.EchoVelocity: requires the scaled velocity to fit a byte. Otherwise the source's conversion is undefined.
- Echo.EchoHandler.constructor: requires the lag in frames to fit 32 bits. `m_sampleRate` and the initial `m_previousState` are parameters, because the handler never assigns `m_previousState`.
- IirFilter.Filter.Init: requires `a[0] != 0` when it normalises. The source would divide by zero.
- LegacyChords.LegacyChordPlayer.constructor: requires a well-formed file. The older reader asserts on malformed lines instead of throwing.
- Mode.ModeHandler.constructor: requires a known target and quirk. The source fails an assertion otherwise.
- Mode.Transpose: requires `note + offset >= 0`. A negative remainder would index the table out of bounds.
- LegacyMode.Transpose: requires `note + offset >= 0`. `std::div` of a negative sum gives a negative remainder, and the source would index `majorToMinor` out of bounds.
- LegacyMode.Rewrite: requires `note + offset >= 0` for note events, through `LegacyMode.Transpose`.
- LegacyMode.Rewritable: states that requirement for every note event of a block.
- LegacyMode.LegacyModeHandler.Process: requires every note event of the block to meet it, through `LegacyMode.Rewritable`.
- LegacyMode.LegacyModeHandler.constructor: requires the target to be `minor` or `major`. The source fails an assertion otherwise.
- LegacyEcho.LegacyEchoHandler.SampleRate: requires the lag in frames, `lagSeconds * nframes`, to fit 32 bits after truncation. Otherwise the source's conversion of the double is undefined.
- Doubles are modelled as exact reals, and their conversion to an integer as C++ truncation toward zero (`Midi.Trunc`). There is no rounding of the products in Echo.EchoVelocity, Echo.EchoHandler.constructor, LegacyEcho.LegacyEchoHandler.SampleRate and Player.AdjustedEnd.
- Player.ProcessMelody: `SortByTime` is a stable sort, so equal-time events keep their input order; for example a note-off and the next chord's note-on at the same frame when `legatoCoeff` is 1. `std::sort` at player/PlayerHandler.cpp:42 does not promise that order. The model also takes `MidiEvent::operator<` to compare only `m_time`; that operator is not part of this model.
- Transport.KeySelectsSound: `CC_MSB` and `CC_LSB` are fixed to the MIDI 1.0 bank-select controllers 0 and 32. `MIDI_CC_MSB` and `MIDI_CC_LSB` are used at handlers/transport/TransportHandler.cpp:84,90, but their definitions are not part of this model.
- Console output is dropped: the chord list printed by `printChords` (ChordPlayerHandler.cpp:146-164, chords/ChordPlayerHandler.cpp:163-181), the trace of each note-on (ChordPlayerHandler.cpp:227) and the "Waiting for" and "DONE" messages (chords/ChordPlayerHandler.cpp:234-242).
- Values that `sampleRate` sets before the first `process` start at zero in the model.
- The older synthesiser header declares fields that `SynthesiserHandler.cpp` does not use; they are left out.

## Findings

| source | as written | input that shows it | evidently intended | confidence | as-written member | corrected member |
|---|---|---|---|---|---|---|
| ModeHandler.cpp:14-34 | the transposed note is narrowed to a byte with no range check | note 0, offset 4: pitch class E maps to -1, written as byte 255 | a MIDI note in 0-127 or the note is skipped, as the newer `transpose` does | high, not executed | LegacyMode.TransposeLeavesMidiRange | Mode.Transpose |
| ChordPlayerHandler.cpp:222-238 | any note-on of the awaited trigger advances the player, including a velocity-0 note-on that is a release | entries with the same trigger twice; press and release of that key | only a press (velocity > 0) advances, as in the newer player | high, not executed | LegacyChords.ReleaseCountsAsPress | Chords.Cue |
| SynthesiserHandler.cpp:88-116 | at most one event is applied per frame, so after two events at the same frame the cursor waits for a frame that has passed | two note-ons at frame 0 | every event of the block is applied at its frame | high, not executed | LegacySynth.SecondNoteIsDropped | LegacySynth.IntendedAppliesAll |
