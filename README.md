# MIDI input decoder of the OUROVEON MIDI module

This project models the MIDI input module of the OUROVEON looper
(`src/r2.ouro/app/module.midi.cpp`) and the settings record it reads
(`src/r2.ouro/config/midi.h`), and proves properties of the model in Dafny.

The core is the channel-message decoder of `Midi::State::onMidiData`. It takes
the native MIDI library's callback data: a time stamp and a possibly-null
vector of bytes. It ignores messages longer than four bytes. It splits the
status byte into a type nibble (kept in place, `& 0xF0`) and a channel nibble
(`& 0x0F`), and masks the data bytes to seven bits. It publishes Note On, Note
Off and (when enabled) Control Change messages on the event bus, and it logs
each one in a ten-entry recent-message list. A Note On with velocity 0 becomes
a Note Off when `zeroVelocityNoteOnToNoteOff` is set.

Around the decoder the model holds the module's state as a class. That state is
the settings, the enumerated port names, the index of the last port opened, the
library's "a port is open" flag, the recent-message log, and the sequence of
events sent on the bus. The class has the operations that change this state:
`addRecentMessage`, `openInputPort`, `closeInputPort`, `getOpenPortIndex`, and
the settings widgets of the panel with their velocity clamp.

Files:
- `wrappers.dfy`: `Option`, standing for a pointer that may be null.
- `config_midi.dfy` (module `ConfigMidi`): `MidiBindMode`, `Config` and its defaults.
- `midi_decode.dfy` (module `MidiDecode`): the pure decoder; a reference encoder
  for the three-byte wire form of MIDI 1.0 channel messages; round-trip lemmas.
- `recent_messages.dfy` (module `RecentMessages`): the bounded newest-first log
  as a function on sequences, and what many additions leave in it.
- `midi_module.dfy` (module `MidiModule`): the outcome of one callback, the
  velocity clamp, the settings panel step, and class `State`.

Assumptions, because the defining headers are not part of this model:
- The status-type constants follow "Table 1: Summary of MIDI Messages" of the
  MIDI 1.0 Detailed Specification: Note Off `0x80`, Note On `0x90`, Control
  Change `0xB0`, each compared with the status byte masked by `0xF0`.
- `MidiBindMode` values are numbered 0, 1, 2 in declaration order.
- `MidiDevice::getUID` is an opaque string carried by each port entry.

Error paths of the source are modelled as outcomes, not as preconditions:
- `message->at(i)` on a message that is too short throws `std::out_of_range`
  (outcome `Threw`). This happens for an empty message, and for a one- or
  two-byte message whose status the decoder handles.
- The port-name lookup at line 101 has no bounds check. It runs for every
  message of one to four bytes, before the status is classified. When the
  recorded index is past the end of the port list, the read is undefined
  behaviour in C++, and the model's outcome is `UndefinedDeviceIndex`.
- For `Threw`, nothing is logged and nothing is sent, as in the source, because
  the exception leaves the callback before either happens.
- For `UndefinedDeviceIndex`, the model stops at the lookup and changes
  nothing. That is a choice of the model: the source may go on to log and
  publish an event carrying whatever the out-of-bounds read produced, or crash.

Where the description and the code differ, the model follows the code. The
module is described as handing messages through a thread-safe queue, and the
class declares a `ReaderWriterQueue` alias. But the code shown sends each
event on the bus directly from the callback, and the alias is never used. The
model sends directly.

## Model

| member | source | states |
|---|---|---|
| `ConfigMidi.BindModeValue` | src/r2.ouro/config/midi.h:24-28 | each bind mode has an underlying value below 3 |
| `ConfigMidi.BindModeFromValue` | src/r2.ouro/config/midi.h:24-28 | a value names a mode exactly when it is below 3, and that mode has this value |
| `ConfigMidi.BindModeRoundTrip` | src/r2.ouro/config/midi.h:24-28 | every mode is recovered from its value, so the three are distinct; their values are ordered InitialKey, InitialKeyAndVelocity, WaitForSpecificVelocity |
| `ConfigMidi.Default` | src/r2.ouro/config/midi.h:37-40 | a default config has bind mode InitialKey, specific velocity 0, CC messages disabled and zero-velocity translation enabled |
| `MidiDecode.ChannelOf` | src/r2.ouro/app/module.midi.cpp:98 | the channel is at most 15 and is the status byte modulo 16 (its low nibble) |
| `MidiDecode.TypeOf` | src/r2.ouro/app/module.midi.cpp:99 | the type byte has the status byte's high nibble and a zero low nibble |
| `MidiDecode.Mask7` | src/r2.ouro/app/module.midi.cpp:105-106 | a masked data byte is at most 127, is the byte modulo 128, and leaves a 7-bit byte unchanged |
| `MidiDecode.Decode` | src/r2.ouro/app/module.midi.cpp:95-160 | a message is recognised exactly when it has 3 or 4 bytes and high nibble 8, 9, or 11 with CC enabled; it throws exactly when it is empty, or has 1 or 2 bytes with such a status; a recognised message's channel is at most 15 and equals the status byte mod 16; its data bytes are at most 127 and equal the raw bytes mod 128 |
| `MidiDecode.OversizeIgnored` | src/r2.ouro/app/module.midi.cpp:95 | a null message, or one of more than 4 bytes, is ignored and the device record is not read |
| `MidiDecode.NoteOnTranslation` | src/r2.ouro/app/module.midi.cpp:103-115 | a Note On is published as Note Off exactly when the translation flag is set and the masked velocity is 0, and as Note On otherwise; key and velocity are the masked bytes |
| `MidiDecode.NoteOffAlwaysNoteOff` | src/r2.ouro/app/module.midi.cpp:126-132 | a Note Off is published as Note Off with its channel and masked bytes, whatever the config |
| `MidiDecode.ControlChangeGated` | src/r2.ouro/app/module.midi.cpp:142-150 | a Control Change is published when CC messages are enabled and ignored when they are not |
| `MidiDecode.OtherStatusIgnored` | src/r2.ouro/app/module.midi.cpp:103-161 | any message of 1 to 4 bytes whose high nibble is not 8, 9 or 11 is ignored |
| `MidiDecode.DefaultConfigDecoding` | src/r2.ouro/config/midi.h:39-40 | under the default config a Note On with velocity 0 becomes a Note Off and every Control Change is ignored |
| `MidiDecode.Encode` | src/r2.ouro/app/module.midi.cpp:94 | the wire form of a channel message is three bytes, the two data bytes unchanged; the status byte's low nibble is the channel and its high nibble is that of the kind's status-type byte |
| `MidiDecode.EncodedStatus` | src/r2.ouro/app/module.midi.cpp:97-99 | an encoded status byte splits back into the kind's type constant and the channel |
| `MidiDecode.DecodeEncode` | src/r2.ouro/app/module.midi.cpp:97-150 | decoding an encoded message returns its channel and data bytes, and its kind up to the zero-velocity translation |
| `MidiDecode.EncodeDecode` | src/r2.ouro/app/module.midi.cpp:97-150 | every recognised message decodes the same as the encoding of its decoded fields |
| `RecentMessages.PushRecent` | src/r2.ouro/app/module.midi.cpp:164-169 | after an addition the log has min(old length + 1, 10) entries; the new entry comes first and older entries follow in order |
| `RecentMessages.HistoryIsNewestFirst` | src/r2.ouro/app/module.midi.cpp:164-169 | after any run of additions to a log of at most 10, the log is the new entries newest first, then the old log, cut to 10 |
| `RecentMessages.FromEmpty` | src/r2.ouro/app/module.midi.cpp:164-169 | starting from an empty log, the log holds the last min(n, 10) entries in reverse arrival order |
| `MidiModule.CallbackResult` | src/r2.ouro/app/module.midi.cpp:95-160 | a callback publishes exactly when the message is recognised and the port index is in range; the event carries the callback's time stamp, the decoded kind and data bytes, and the open port's device UID; an out-of-range index is hit exactly when the message has 1 to 4 bytes |
| `MidiModule.ChannelNotOnBus` | src/r2.ouro/app/module.midi.cpp:98-150 | two messages that differ only in the channel nibble have the same callback outcome, because the channel is not sent on the bus |
| `MidiModule.ClampVelocity` | src/r2.ouro/app/module.midi.cpp:298 | the clamped velocity is in 0..127, equals the input when that is in range, is 0 below the range and 127 above it |
| `MidiModule.ClampIsNearest` | src/r2.ouro/app/module.midi.cpp:298 | no velocity in 0..127 is nearer to the entered value than the clamped one |
| `MidiModule.PanelSettings` | src/r2.ouro/app/module.midi.cpp:282-299 | the checkbox and combo values are taken; when the new mode is WaitForSpecificVelocity the specific velocity becomes the clamp of the entered value (0 below the range, 127 above, the value itself inside), otherwise it is kept; enableCCMessages never changes |
| `MidiModule.State.constructor` | src/r2.ouro/app/module.midi.cpp:222-231 | the initial state has the given config and ports, index 0, no open port, an empty log, no entries logged and nothing sent |
| `MidiModule.State.AddRecentMessage` | src/r2.ouro/app/module.midi.cpp:164-169 | push at the front, then pop from the back while there are more than 10 entries; the result is PushRecent of the old log, the entry is appended to the record of logged entries, and the invariant that the log is the history of those entries is kept |
| `MidiModule.State.RecentIsNewestFirst` | src/r2.ouro/app/module.midi.cpp:164-169 | while the invariant holds, the log has min(n, 10) entries for n entries logged so far, and they are the most recent ones, newest first |
| `MidiModule.State.OnMidiData` | src/r2.ouro/app/module.midi.cpp:90-162 | the outcome is CallbackResult; a published message adds exactly one log entry (kind, channel, key/controller, velocity/value) and appends exactly one event; every other outcome changes nothing; the log invariant is kept |
| `MidiModule.State.OpenInputPort` | src/r2.ouro/app/module.midi.cpp:171-184 | returns true exactly when the library opens the port, and only then records the index; on failure the index and open state are unchanged |
| `MidiModule.State.CloseInputPort` | src/r2.ouro/app/module.midi.cpp:204-217 | returns false only when a port is open and the library fails to close it; the port is closed otherwise; the recorded index is kept |
| `MidiModule.State.GetOpenPortIndex` | src/r2.ouro/app/module.midi.cpp:186-202 | reports true and the recorded index exactly while a port is open; otherwise false and the caller's value unchanged |
| `MidiModule.State.EditSettings` | src/r2.ouro/app/module.midi.cpp:281-299 | the config becomes PanelSettings of the old config and the widgets' values |

## Left out

- Port enumeration and the library lifecycle (`Init`, `Term`, `Restart`, lines 40-87) are thin wrappers over the native MIDI library. The port list is a constructor parameter.
- The native MIDI library is reduced to boolean parameters: whether `openPort` and `closePort` succeed. The `isPortOpen` answer is a field. How the library treats an invalid index, or a port that is already open, is not modelled.
- MidiModule.State.GetOpenPortIndex: does not model the `catch` branch (line 196). In the model, asking whether a port is open never fails.
- The callback runs on the library's thread. The model is sequential: one callback at a time, between other operations.
- The text of the log lines (`fmt::format`) is not modelled. Each line is a record of the values it is formatted from. The Control Change line's floating-point `valueF01()` is not modelled.
- The `double` time stamp is wrapped and passed through without being inspected.
- `events::MidiEvent` is defined outside this model. Its constructor also receives the settings; the model's event record leaves them out.
- The message types beyond the three the decoder publishes (section "Table 1" of the MIDI 1.0 Detailed Specification lists more) appear only as statuses that are ignored.
- JSON persistence of the settings (`serialize`, `config::load`, `config::save`) is library I/O and is not modelled. So is the "settings changed" flag that triggers a save.
- The panel's rendering (lines 235-317) is user interface. Only the settings edits at lines 282-299 are modelled. Device selection from the combo (lines 264-271) is modelled only through its calls to `closeInputPort` and `openInputPort`.
- The module's create and destroy plumbing (lines 320-368) is not modelled.
- MidiModule.State.OnMidiData: what the source does after the out-of-bounds port-name read at line 101 is not modelled. Leaving the state unchanged for `UndefinedDeviceIndex` is a choice of the model, not a promise of the source.
- An uncaught `std::out_of_range` leaves the callback; what the library then does is not modelled. The outcome `Threw` records it.
