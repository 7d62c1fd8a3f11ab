# SAM2695 synthesizer driver: a Dafny model

This project models the core of the Arduino driver for the SAM2695 General MIDI
synthesizer (`SAM2695Synth`) and proves properties of that model. The driver is an
object holding three `uint8_t` settings: the default pitch, the default velocity and
the tempo in BPM. It also holds up to two transports, a hardware serial port and a
software serial port. Every public operation formats zero or more MIDI 1.0 channel
messages and hands each one to `sendCMD`. `sendCMD` writes the message to every
configured transport.

Modules, one per file:

- `Bytes` (`bytes.dfy`) models `uint8_t` values as the integers 0-255.
  - `Truncate` is the 8-bit wrap-around that happens when an `int` sum is stored back into a `uint8_t`.
  - `BitOr` and `BitAnd` define the source's `|` and `&` bit by bit.
- `Midi` (`midi.dfy`) covers the four message kinds the driver sends: Note Off, Note On, Control Change and Program Change.
  - `StatusByte` builds the status byte. `StatusByteIsBitwise` proves it equals the source's `command | (channel & 0x0F)`.
  - `Encode` writes one message.
  - `Decode` is a strict receiver, the reference against which every write of the driver is checked.
- `Transport` (`transport.dfy`) models each transport (hardware, software) as the log of bytes written through it.
  - `SendCmd` is `sendCMD`.
  - `Deliver` is a sequence of `sendCMD` calls.
- `Sam2695` (`sam2695.dfy`) holds the driver state (`Synth`) and every public operation.
  - Each operation is a function returning the new state and the list of byte arrays handed to `sendCMD`, in order.
  - The header constants `NOTE_B0`, `NOTE_C8`, `VELOCITY_STEP`, `VELOCITY_MIN`, `VELOCITY_MAX`, `BPM_STEP` and `BPM_DEFAULT` are a `Config` parameter. Each property states what it needs of them: `PitchLimitsOk`, `VelocityLimitsOk` and `BpmStepOk` say that one step from inside the limits does not wrap, and `ConfigOk` is all three.
- `Session` (`session.dfy`) models a driver in use.
  - A `Device` pairs the driver state with the two port logs.
  - A `Command` names one call, `Exec` runs it and `Run` runs a sequence of calls.
  - `Intent` states, as MIDI messages, what each operation is documented to send.

Two behaviours of the code that the model keeps as written:

- **Both transports at once.** `begin` sets each port independently (src/SAM2695Synth.cpp:50-63), and `sendCMD` writes to every port that is set (lines 273-278). The model keeps two independent flags, and `Exec` writes to both ports when both are set.
- **The `-1` test in `setNoteOn`.** The code compares a `uint8_t` with `-1`. The comparison never holds, so a stored default never replaces an argument. The model keeps the test as written, and `NoteOnIgnoresDefaults` proves the consequence.

## Model

| member | source | states |
|---|---|---|
| Sam2695.BeginHardware | src/SAM2695Synth.cpp:50-54 | `begin` with a hardware port makes that port a transport. Nothing else changes. |
| Sam2695.BeginSoftware | src/SAM2695Synth.cpp:56-63 | After `begin` with a software port, that port is a transport exactly when the port passed is non-null, so a null port switches it off. Nothing else changes. |
| Midi.StatusByte | src/SAM2695Synth.cpp:73-74 | The status byte carries the command in its high nibble and the channel modulo 16 in its low nibble. |
| Midi.StatusByteIsBitwise | src/SAM2695Synth.cpp:73-74 | For every command byte with a clear low nibble, the bitwise OR of the command with `channel & 0x0f` equals the status byte. |
| Sam2695.NoteOnBytes | src/SAM2695Synth.cpp:95-96 | The Note On array is the MIDI 1.0 encoding of Note On(channel mod 16, pitch, velocity). |
| Sam2695.NoteOffBytes | src/SAM2695Synth.cpp:110-111 | The Note Off array is the encoding of Note Off(channel mod 16, pitch, 0). |
| Sam2695.ControlChangeBytes | src/SAM2695Synth.cpp:168-169 | A Control Change array is the encoding of Control Change(channel mod 16, controller, value). |
| Sam2695.ProgramChangeBytes | src/SAM2695Synth.cpp:78-79 | The Program Change array is the 2-byte encoding of Program Change(channel mod 16, program). |
| Sam2695.SetInstrument | src/SAM2695Synth.cpp:71-81 | The state is unchanged. Exactly two commands are sent: Bank Select (controller 0) with `bank`, then Program Change with `value`. |
| Sam2695.SetInstrumentReadsBack | src/SAM2695Synth.cpp:71-81 | When bank and program are 7-bit values, a receiver decodes the two writes as exactly those two messages, in that order. |
| Sam2695.SetNoteOn | src/SAM2695Synth.cpp:89-99 | The state is unchanged. Exactly one Note On is sent, with the pitch and velocity as given. |
| Sam2695.NoteOnIgnoresDefaults | src/SAM2695Synth.cpp:91-94 | The `-1` substitution never fires: what Note On sends never depends on the stored defaults. |
| Sam2695.SetNoteOff | src/SAM2695Synth.cpp:108-113 | The state is unchanged. Exactly one Note Off is sent, with velocity 0. |
| Sam2695.NoteOffIgnoresVelocity | src/SAM2695Synth.cpp:108-113 | The velocity argument has no effect on anything, and the sent velocity byte is 0. |
| Sam2695.SetAllNotesOff | src/SAM2695Synth.cpp:120-125 | The state is unchanged. Exactly one Control Change 123 (All Notes Off) with value 0 is sent. |
| Sam2695.SetVolume | src/SAM2695Synth.cpp:166-171 | The state is unchanged. Exactly one Control Change 7 (Channel Volume) with `level` is sent. |
| Sam2695.ChordNoteOns | src/SAM2695Synth.cpp:135-139 | A chord sends at most one command per slot. |
| Sam2695.ChordNoteOnsSound | src/SAM2695Synth.cpp:135-139 | Every command sent for a chord is the Note On of some sounding slot. Nothing is sent exactly when no slot sounds. |
| Sam2695.ChordNoteOnsSlot | src/SAM2695Synth.cpp:136-138 | A single slot sends its Note On if it sounds, and nothing otherwise. |
| Sam2695.ChordNoteOnsAppend | src/SAM2695Synth.cpp:135-139 | Slots are played in order: the commands for `a + b` are those for `a` followed by those for `b`. |
| Sam2695.ChordNoteOnsCount | src/SAM2695Synth.cpp:135-139 | A chord sends exactly one command per sounding slot, counted independently of the loop that sends them. |
| Sam2695.PlayChord | src/SAM2695Synth.cpp:133-140 | The state is unchanged. No more commands are sent than there are slots. |
| Sam2695.PlayChordShape | src/SAM2695Synth.cpp:133-140 | Every command is a 3-byte Note On on the chord's channel, carrying the chord's velocity. |
| Sam2695.GetPitchAfterSetPitch | src/SAM2695Synth.cpp:146-158 | `getPitch` returns exactly what `setPitch` stored, with no clamping. Nothing else changes and nothing is sent. |
| Sam2695.StepUpClamped | src/SAM2695Synth.cpp:180-181 | Adding the step and clamping never exceeds the limit. When the sum fits in a byte the result is the sum or, past the limit, the limit itself; when it does not fit, the wrapped sum minus 256 is clamped the same way. |
| Sam2695.StepDownClamped | src/SAM2695Synth.cpp:191-192 | Subtracting the step and clamping never goes below the limit. When the step does not exceed the value the result is the difference or, below the limit, the limit itself; otherwise the wrapped difference plus 256 is clamped the same way. |
| Sam2695.IncreasePitch | src/SAM2695Synth.cpp:178-182 | Only the pitch changes and nothing is sent. Below 255 the pitch becomes pitch + 1, or NOTE_C8 when that would pass it; from 255 it wraps to 0. From an in-range pitch it stays in range. |
| Sam2695.DecreasePitch | src/SAM2695Synth.cpp:189-193 | Only the pitch changes and nothing is sent. Above 0 the pitch becomes pitch - 1, or NOTE_B0 when that would fall below it; from 0 it wraps to 255. From an in-range pitch it stays in range. |
| Sam2695.IncreasePitchWrapsAtTop | src/SAM2695Synth.cpp:180-181 | From 255 the `uint8_t` increment wraps to 0. The clamp does not catch this, and the pitch ends below NOTE_B0. |
| Sam2695.DecreasePitchWrapsAtZero | src/SAM2695Synth.cpp:191-192 | From 0 the decrement wraps to 255. The clamp to NOTE_B0 does not catch this, and the pitch ends above NOTE_C8. |
| Sam2695.VolumeSweep | src/SAM2695Synth.cpp:205-207 | The sweep from channel `from` sends one command per channel up to CHANNEL_15. |
| Sam2695.VolumeSweepContents | src/SAM2695Synth.cpp:205-207 | The k-th command of the sweep is Channel Volume `level` for channel `from + k`. |
| Sam2695.IncreaseVelocity | src/SAM2695Synth.cpp:201-208 | Only the velocity changes, and sixteen commands are sent. The velocity becomes velocity + VELOCITY_STEP, or VELOCITY_MAX when that would pass it; when the sum passes 255 the wrapped sum is clamped instead. From an in-range velocity it stays in range. |
| Sam2695.DecreaseVelocity | src/SAM2695Synth.cpp:215-222 | Only the velocity changes, and sixteen commands are sent. The velocity becomes velocity - VELOCITY_STEP, or VELOCITY_MIN when that would fall below it; when the step exceeds the velocity the wrapped difference is clamped instead. From an in-range velocity it stays in range. |
| Sam2695.VelocityBroadcast | src/SAM2695Synth.cpp:201-222 | After a velocity step, channel `ch` is sent Channel Volume equal to the new velocity, for every channel 0-15. |
| Sam2695.SetBpm | src/SAM2695Synth.cpp:248-255 | Only the tempo changes and nothing is sent. The stored tempo is always in [40, 240], and an in-range argument is stored unchanged. |
| Sam2695.SetBpmNearest | src/SAM2695Synth.cpp:248-255 | The stored tempo is the in-range value nearest to the argument. |
| Sam2695.GetBpmAfterSetBpm | src/SAM2695Synth.cpp:248-263 | `getBpm` after `setBpm(x)` returns 40 when x < 40, 240 when x > 240, and x otherwise. |
| Sam2695.SetBpmIdempotent | src/SAM2695Synth.cpp:248-255 | Setting the same tempo twice has the same effect as setting it once. Storing the current in-range tempo changes nothing. |
| Sam2695.IncreaseBpm | src/SAM2695Synth.cpp:229-232 | Only the tempo changes and the result is in range. The result is `setBpm` of tempo + BPM_STEP, wrapped to 8 bits when the sum passes 255. From a tempo of at least 40 without wrap it is tempo + BPM_STEP, or 240 when that would pass it. |
| Sam2695.DecreaseBpm | src/SAM2695Synth.cpp:238-241 | Only the tempo changes and the result is in range. The result is `setBpm` of tempo - BPM_STEP, wrapped to 8 bits when the step exceeds the tempo. From a tempo of at most 240 that is not below the step it is tempo - BPM_STEP, or 40 when that would fall below it. |
| Sam2695.IncreaseBpmWrapsWithLargeStep | src/SAM2695Synth.cpp:231 | With BPM_STEP 20, `setBpm(240 + 20)` receives the wrapped value 4 and stores 40 instead of 240. |
| Transport.SendCmd | src/SAM2695Synth.cpp:271-282 | Each configured port's log is extended by exactly the command. Every other log is unchanged. |
| Transport.DeliverIsSendOfConcat | src/SAM2695Synth.cpp:271-278 | A port is a byte stream: several `sendCMD` calls write the same bytes as one write of their concatenation. |
| Transport.NoTransportDropsEverything | src/SAM2695Synth.cpp:279-281 | With no port configured, every write is dropped and no log changes. |
| Session.Interpret | src/SAM2695Synth.cpp:50-63 | Only `begin` changes which ports are set. The hardware `begin` sets its port, and the software `begin` sets its port to whether the port passed is non-null. |
| Session.SentAsIntended | src/SAM2695Synth.cpp:71-222 | Every operation writes exactly the encoding of the messages its documentation names, in order. |
| Session.ReadsBackAsIntended | src/SAM2695Synth.cpp:71-222 | A receiver decodes an operation's writes as exactly its intended messages precisely when those messages are well formed (7-bit data). |
| Session.Exec | src/SAM2695Synth.cpp:271-282 | One call appends the encoding of its intended messages to each port that was set, and leaves the other ports' logs unchanged. |
| Session.Run | src/SAM2695Synth.cpp:271-282 | Along a run, both logs only grow, and a hardware port once set stays set. |
| Session.HardwareLogIsIntent | src/SAM2695Synth.cpp:273-275 | Once the hardware port is set, its log grows by exactly the encoding of every intended message of the run, in order. |
| Session.SoftwareLogIsIntent | src/SAM2695Synth.cpp:276-278 | While the software port stays set, its log grows by exactly the same stream. |
| Session.HardwareLogReadsBack | src/SAM2695Synth.cpp:273-275 | What the hardware port received in a run decodes as the run's intended messages when they are well formed. |
| Session.NoPortNoOutput | src/SAM2695Synth.cpp:279-281 | With no port set and no `begin`, a run of any calls writes nothing. |
| Session.BootWritesNothing | src/SAM2695Synth.cpp:279-281 | A newly constructed driver on which `begin` is never called writes nothing, whatever calls it receives. |
| Session.InterpretKeepsInRange | src/SAM2695Synth.cpp:146-255 | Every operation keeps pitch, velocity and tempo in range. This assumes roomy limits and an in-range `setPitch` argument. |
| Session.RunKeepsInRange | src/SAM2695Synth.cpp:146-255 | The range invariant holds along any run whose `setPitch` arguments are in range. |
| Session.RunFromBootKeepsInRange | src/SAM2695Synth.cpp:8-16 | A newly constructed driver whose header limits bracket its defaults stays in range along any run whose `setPitch` arguments are in range. |
| Session.SetPitchEscapesRange | src/SAM2695Synth.cpp:146-149 | Without that condition the invariant fails: `setPitch(0)` then `decreasePitch` leaves 255. |

## Left out

- `begin` hardware setup: baud rate, RX/TX pins, `SERIAL_8N1` and the calls to the ports' own `begin` have no statable behaviour here. The hardware `begin` is modelled for a non-null port; the source uses the port without a null check.
- Port identity: each log stands for whichever port object the latest `begin` passed. A second `begin` with a different port re-targets later writes (lines 52 and 58), which one log per transport kind does not distinguish.
- Destructor and `getInstance`: object lifetime and the singleton carry no driver behaviour.
- The `Serial.println` diagnostic on line 280: when no port is set, the model drops the write; the console message is not modelled.
- Serial write semantics: a write appends all of its bytes to the port's log. Blocking, buffering, baud rate and partial writes belong to the port objects.
- `SAM2695Synth.h` is not part of this model.
  - NOTE_B0, NOTE_C8, VELOCITY_STEP/MIN/MAX, BPM_STEP and BPM_DEFAULT are parameters, each assumed to fit in a byte.
  - BPM_MIN and BPM_MAX are taken as 40 and 240 from the comment on lines 243-247.
  - CHANNEL_0 and CHANNEL_15 are taken as 0 and 15, from the comment on line 197.
  - The command bytes 0x80, 0x90, 0xB0 and 0xC0 are those of the MIDI 1.0 Channel Voice messages.
- `musicData`: the fixed-size `notes` array is modelled as a sequence of any length. The loop bound `sizeof(notes) / sizeof(notes[0])` is that length.
- The `Midi` decoder accepts only the four message kinds the driver sends. Running status, system messages and other channel messages are outside the driver.
