/**
 The SAM2695 synthesizer driver: its three byte-sized settings (default pitch,
 default velocity, tempo), which transports are configured, and every public
 operation as a pure function from the current state and the arguments to the
 next state and the commands handed to `sendCMD`, in order.

 All arithmetic on the settings is `uint8_t` arithmetic: a sum or difference is
 truncated to 8 bits (`Truncate`, modulo 256) before any clamp is applied.
 */
module Sam2695 {
  import opened Bytes
  import opened Midi
  import Transport

  /** Tempo range stated for `setBpm`. */
  const BPM_MIN: byte := 40
  const BPM_MAX: byte := 240

  /** Values the constructor stores for the default pitch and velocity. */
  const INITIAL_PITCH: byte := 60
  const INITIAL_VELOCITY: byte := 90

  /** CHANNEL_0 .. CHANNEL_15. */
  const CHANNEL_COUNT: nat := 16

  /**
   The constants the driver takes from its header: the pitch limits NOTE_B0 and
   NOTE_C8, VELOCITY_STEP/MIN/MAX, BPM_STEP and BPM_DEFAULT. Their values are
   not fixed here; each property states what it needs of them.
   */
  datatype Config = Config(
    noteB0: byte,
    noteC8: byte,
    velocityStep: byte,
    velocityMin: byte,
    velocityMax: byte,
    bpmStep: byte,
    bpmDefault: byte)

  /** Pitch limits leave room for one step either way without 8-bit wrap-around. */
  predicate PitchLimitsOk(c: Config) {
    1 <= c.noteB0 <= c.noteC8 < 255
  }

  /** Velocity limits leave room for one step either way without 8-bit wrap-around. */
  predicate VelocityLimitsOk(c: Config) {
    && c.velocityStep <= c.velocityMin <= c.velocityMax
    && c.velocityMax + c.velocityStep <= 255
  }

  /** One tempo step from inside [BPM_MIN, BPM_MAX] never wraps around. */
  predicate BpmStepOk(c: Config) {
    && c.bpmStep <= BPM_MIN
    && BPM_MAX + c.bpmStep <= 255
  }

  predicate ConfigOk(c: Config) {
    PitchLimitsOk(c) && VelocityLimitsOk(c) && BpmStepOk(c)
  }

  /** The driver object: its settings and whether each serial transport is set. */
  datatype Synth = Synth(pitch: byte, velocity: byte, bpm: byte, hwSerial: bool, swSerial: bool)

  predicate PitchInRange(c: Config, pitch: byte) {
    c.noteB0 <= pitch <= c.noteC8
  }

  predicate VelocityInRange(c: Config, velocity: byte) {
    c.velocityMin <= velocity <= c.velocityMax
  }

  predicate BpmInRange(bpm: byte) {
    BPM_MIN <= bpm <= BPM_MAX
  }

  /** The range invariant of the three settings. */
  predicate InRange(c: Config, s: Synth) {
    PitchInRange(c, s.pitch) && VelocityInRange(c, s.velocity) && BpmInRange(s.bpm)
  }

  /** The outcome of one operation: the new state and the commands handed to `sendCMD`, in order. */
  datatype Step = Step(synth: Synth, sent: seq<seq<byte>>)

  /** The constructor: default settings and no transport. */
  function Init(c: Config): (s: Synth) {
    Synth(INITIAL_PITCH, INITIAL_VELOCITY, c.bpmDefault, false, false)
  }

  /** `begin` with a hardware serial port: from now on it is written to; nothing else changes. */
  function BeginHardware(s: Synth): (r: Synth)
    ensures r.hwSerial && r.(hwSerial := s.hwSerial) == s
  {
    s.(hwSerial := true)
  }

  /**
   `begin` with a software serial port, which may be null: the port is written
   to afterwards exactly when it is present, so a null port switches it off.
   */
  function BeginSoftware(s: Synth, present: bool): (r: Synth)
    ensures r.swSerial <==> present
    ensures r.(swSerial := s.swSerial) == s
  {
    s.(swSerial := present)
  }

  // ---------------------------------------------------------------------------
  // Message formatting: each builder writes the byte array the driver writes,
  // status byte `command | (channel & 0x0F)` first, and is shown to be the
  // MIDI 1.0 encoding of the message it names.

  function NoteOnBytes(channel: byte, pitch: byte, velocity: byte): (cmd: seq<byte>)
    ensures cmd == Encode(NoteOn(channel, pitch, velocity))
    ensures cmd[0] % 16 == channel % 16
  {
    [StatusByte(MIDI_COMMAND_ON, channel), pitch, velocity]
  }

  function NoteOffBytes(channel: byte, pitch: byte): (cmd: seq<byte>)
    ensures cmd == Encode(NoteOff(channel, pitch, 0))
    ensures cmd[0] % 16 == channel % 16
  {
    [StatusByte(MIDI_COMMAND_OFF, channel), pitch, 0x00]
  }

  function ControlChangeBytes(channel: byte, controller: byte, value: byte): (cmd: seq<byte>)
    ensures cmd == Encode(ControlChange(channel, controller, value))
    ensures cmd[0] % 16 == channel % 16
  {
    [StatusByte(MIDI_CMD_CONTROL_CHANGE, channel), controller, value]
  }

  function ProgramChangeBytes(channel: byte, program: byte): (cmd: seq<byte>)
    ensures cmd == Encode(ProgramChange(channel, program))
    ensures cmd[0] % 16 == channel % 16
  {
    [StatusByte(MIDI_CMD_PROGRAM_CHANGE, channel), program]
  }

  // ---------------------------------------------------------------------------
  // Commands that only send

  /** Bank select (Control Change 0) followed by Program Change: five bytes in two writes. */
  function SetInstrument(s: Synth, bank: byte, channel: byte, program: byte): (r: Step)
    ensures r.synth == s
    ensures r.sent == [Encode(ControlChange(channel, BANK_SELECT, bank)), Encode(ProgramChange(channel, program))]
  {
    Step(s, [ControlChangeBytes(channel, BANK_SELECT, bank), ProgramChangeBytes(channel, program)])
  }

  /**
   Note On. The source replaces a pitch or velocity equal to -1 by the stored
   default, but it compares a promoted `uint8_t` (0-255) with -1, so that branch
   never fires: the arguments are always sent as given.
   */
  function SetNoteOn(s: Synth, channel: byte, pitch: byte, velocity: byte): (r: Step)
    ensures r.synth == s
    ensures r.sent == [Encode(NoteOn(channel, pitch, velocity))]
  {
    var p := if -1 == pitch then s.pitch else pitch;
    var v := if -1 == velocity then s.velocity else velocity;
    Step(s, [NoteOnBytes(channel, p, v)])
  }

  /** Note Off; the velocity argument is ignored and 0 is sent. */
  function SetNoteOff(s: Synth, channel: byte, pitch: byte, velocity: byte): (r: Step)
    ensures r.synth == s
    ensures r.sent == [Encode(NoteOff(channel, pitch, 0))]
  {
    Step(s, [NoteOffBytes(channel, pitch)])
  }

  /** Channel Mode message All Notes Off: Control Change 123 with value 0. */
  function SetAllNotesOff(s: Synth, channel: byte): (r: Step)
    ensures r.synth == s
    ensures r.sent == [Encode(ControlChange(channel, ALL_NOTES_OFF, 0))]
  {
    Step(s, [ControlChangeBytes(channel, ALL_NOTES_OFF, 0x00)])
  }

  /** Channel volume: Control Change 7 carrying `level`. */
  function SetVolume(s: Synth, channel: byte, level: byte): (r: Step)
    ensures r.synth == s
    ensures r.sent == [Encode(ControlChange(channel, CHANNEL_VOLUME, level))]
  {
    Step(s, [ControlChangeBytes(channel, CHANNEL_VOLUME, level)])
  }

  /** One slot of a chord: a pitch and whether it sounds. */
  datatype ChordNote = ChordNote(pitch: byte, isOn: bool)

  /** A chord: its note slots, the channel and the velocity they are played with. */
  datatype Chord = Chord(notes: seq<ChordNote>, channel: byte, velocity: byte)

  /** The Note On commands for the sounding slots of `notes`, in slot order. */
  function ChordNoteOns(s: Synth, channel: byte, velocity: byte, notes: seq<ChordNote>): (cmds: seq<seq<byte>>)
    ensures |cmds| <= |notes|
    decreases |notes|
  {
    if |notes| == 0 then []
    else
      var head := if notes[0].isOn then SetNoteOn(s, channel, notes[0].pitch, velocity).sent else [];
      head + ChordNoteOns(s, channel, velocity, notes[1..])
  }

  function PlayChord(s: Synth, chord: Chord): (r: Step)
    ensures r.synth == s && |r.sent| <= |chord.notes|
  {
    Step(s, ChordNoteOns(s, chord.channel, chord.velocity, chord.notes))
  }

  // ---------------------------------------------------------------------------
  // Stepping a setting: the `uint8_t` sum or difference, then one clamp

  /** `value += step; if (value > hi) value = hi;` on a `uint8_t`. */
  function StepUpClamped(value: byte, step: byte, hi: byte): (r: byte)
    ensures r <= hi
    ensures value <= hi && hi + step <= 255 ==>
              && value <= r <= value + step
              && (value + step <= hi ==> r == value + step)
    ensures value + step <= 255 ==> r == (if value + step <= hi then value + step else hi)
    ensures value + step > 255 ==> r == (if value + step - 256 <= hi then value + step - 256 else hi)
  {
    var v := Truncate(value + step);
    if v > hi then hi else v
  }

  /** `value -= step; if (value < lo) value = lo;` on a `uint8_t`. */
  function StepDownClamped(value: byte, step: byte, lo: byte): (r: byte)
    ensures lo <= r
    ensures step <= lo <= value ==>
              && value - step <= r <= value
              && (lo + step <= value ==> r == value - step)
    ensures step <= value ==> r == (if lo <= value - step then value - step else lo)
    ensures value < step ==> r == (if lo <= value - step + 256 then value - step + 256 else lo)
  {
    var v := Truncate(value - step);
    if v < lo then lo else v
  }

  // ---------------------------------------------------------------------------
  // Default pitch

  function SetPitch(s: Synth, pitch: byte): (r: Step) {
    Step(s.(pitch := pitch), [])
  }

  function GetPitch(s: Synth): (pitch: byte) {
    s.pitch
  }

  /** One semitone up (with 8-bit wrap-around), then clamped to NOTE_C8. */
  function IncreasePitch(c: Config, s: Synth): (r: Step)
    ensures r.sent == [] && r.synth == s.(pitch := r.synth.pitch)
    ensures r.synth.pitch <= c.noteC8
    ensures PitchLimitsOk(c) && PitchInRange(c, s.pitch) ==>
              && PitchInRange(c, r.synth.pitch)
              && s.pitch <= r.synth.pitch <= s.pitch + 1
              && (s.pitch < c.noteC8 ==> r.synth.pitch == s.pitch + 1)
    ensures s.pitch < 255 ==> r.synth.pitch == (if s.pitch + 1 <= c.noteC8 then s.pitch + 1 else c.noteC8)
    ensures s.pitch == 255 ==> r.synth.pitch == 0
  {
    Step(s.(pitch := StepUpClamped(s.pitch, 1, c.noteC8)), [])
  }

  /** One semitone down (with 8-bit wrap-around), then clamped to NOTE_B0. */
  function DecreasePitch(c: Config, s: Synth): (r: Step)
    ensures r.sent == [] && r.synth == s.(pitch := r.synth.pitch)
    ensures c.noteB0 <= r.synth.pitch
    ensures PitchLimitsOk(c) && PitchInRange(c, s.pitch) ==>
              && PitchInRange(c, r.synth.pitch)
              && s.pitch - 1 <= r.synth.pitch <= s.pitch
              && (c.noteB0 < s.pitch ==> r.synth.pitch == s.pitch - 1)
    ensures 0 < s.pitch ==> r.synth.pitch == (if c.noteB0 <= s.pitch - 1 then s.pitch - 1 else c.noteB0)
    ensures s.pitch == 0 ==> r.synth.pitch == 255
  {
    Step(s.(pitch := StepDownClamped(s.pitch, 1, c.noteB0)), [])
  }

  // ---------------------------------------------------------------------------
  // Default velocity

  /** `setVolume(i, level)` for the channels `from` .. CHANNEL_15, ascending. */
  function VolumeSweep(s: Synth, from: nat, level: byte): (cmds: seq<seq<byte>>)
    requires from <= CHANNEL_COUNT
    ensures |cmds| == CHANNEL_COUNT - from
    decreases CHANNEL_COUNT - from
  {
    if from == CHANNEL_COUNT then []
    else SetVolume(s, from, level).sent + VolumeSweep(s, from + 1, level)
  }

  /** Velocity up by VELOCITY_STEP (with wrap-around), clamped to VELOCITY_MAX, then sent as every channel's volume. */
  function IncreaseVelocity(c: Config, s: Synth): (r: Step)
    ensures r.synth == s.(velocity := r.synth.velocity)
    ensures r.synth.velocity <= c.velocityMax
    ensures |r.sent| == CHANNEL_COUNT
    ensures VelocityLimitsOk(c) && VelocityInRange(c, s.velocity) ==>
              && VelocityInRange(c, r.synth.velocity)
              && s.velocity <= r.synth.velocity <= s.velocity + c.velocityStep
    ensures s.velocity + c.velocityStep <= 255 ==>
              r.synth.velocity == (if s.velocity + c.velocityStep <= c.velocityMax then s.velocity + c.velocityStep else c.velocityMax)
    ensures s.velocity + c.velocityStep > 255 ==>
              r.synth.velocity == (if s.velocity + c.velocityStep - 256 <= c.velocityMax then s.velocity + c.velocityStep - 256 else c.velocityMax)
  {
    var s' := s.(velocity := StepUpClamped(s.velocity, c.velocityStep, c.velocityMax));
    Step(s', VolumeSweep(s', 0, s'.velocity))
  }

  /** Velocity down by VELOCITY_STEP (with wrap-around), clamped to VELOCITY_MIN, then sent as every channel's volume. */
  function DecreaseVelocity(c: Config, s: Synth): (r: Step)
    ensures r.synth == s.(velocity := r.synth.velocity)
    ensures c.velocityMin <= r.synth.velocity
    ensures |r.sent| == CHANNEL_COUNT
    ensures VelocityLimitsOk(c) && VelocityInRange(c, s.velocity) ==>
              && VelocityInRange(c, r.synth.velocity)
              && s.velocity - c.velocityStep <= r.synth.velocity <= s.velocity
    ensures c.velocityStep <= s.velocity ==>
              r.synth.velocity == (if c.velocityMin <= s.velocity - c.velocityStep then s.velocity - c.velocityStep else c.velocityMin)
    ensures s.velocity < c.velocityStep ==>
              r.synth.velocity == (if c.velocityMin <= s.velocity - c.velocityStep + 256 then s.velocity - c.velocityStep + 256 else c.velocityMin)
  {
    var s' := s.(velocity := StepDownClamped(s.velocity, c.velocityStep, c.velocityMin));
    Step(s', VolumeSweep(s', 0, s'.velocity))
  }

  // ---------------------------------------------------------------------------
  // Tempo

  /** Distance between two byte values. */
  function Distance(a: byte, b: byte): (d: nat) {
    if a <= b then b - a else a - b
  }

  /** Stores the tempo clamped to [BPM_MIN, BPM_MAX]: the in-range value nearest to `bpm`. */
  function SetBpm(s: Synth, bpm: byte): (r: Step)
    ensures r.sent == [] && r.synth == s.(bpm := r.synth.bpm)
    ensures BpmInRange(r.synth.bpm)
    ensures BpmInRange(bpm) ==> r.synth.bpm == bpm
  {
    var b := if bpm < BPM_MIN then BPM_MIN else if bpm > BPM_MAX then BPM_MAX else bpm;
    Step(s.(bpm := b), [])
  }

  function GetBpm(s: Synth): (bpm: byte) {
    s.bpm
  }

  /** `setBpm(_bpm + BPM_STEP)`; the sum is truncated to 8 bits on the way in. */
  function IncreaseBpm(c: Config, s: Synth): (r: Step)
    ensures r.sent == [] && r.synth == s.(bpm := r.synth.bpm)
    ensures BpmInRange(r.synth.bpm)
    ensures BpmStepOk(c) && BpmInRange(s.bpm) ==>
              s.bpm <= r.synth.bpm <= s.bpm + c.bpmStep
    ensures BPM_MIN <= s.bpm && s.bpm + c.bpmStep <= 255 ==>
              r.synth.bpm == (if s.bpm + c.bpmStep <= BPM_MAX then s.bpm + c.bpmStep else BPM_MAX)
    ensures s.bpm + c.bpmStep <= 255 ==> r.synth == SetBpm(s, s.bpm + c.bpmStep).synth
    ensures s.bpm + c.bpmStep > 255 ==> r.synth == SetBpm(s, s.bpm + c.bpmStep - 256).synth
  {
    SetBpm(s, Truncate(s.bpm + c.bpmStep))
  }

  /** `setBpm(_bpm - BPM_STEP)`; the difference is truncated to 8 bits on the way in. */
  function DecreaseBpm(c: Config, s: Synth): (r: Step)
    ensures r.sent == [] && r.synth == s.(bpm := r.synth.bpm)
    ensures BpmInRange(r.synth.bpm)
    ensures BpmStepOk(c) && BpmInRange(s.bpm) ==>
              s.bpm - c.bpmStep <= r.synth.bpm <= s.bpm
    ensures c.bpmStep <= s.bpm <= BPM_MAX ==>
              r.synth.bpm == (if BPM_MIN <= s.bpm - c.bpmStep then s.bpm - c.bpmStep else BPM_MIN)
    ensures c.bpmStep <= s.bpm ==> r.synth == SetBpm(s, s.bpm - c.bpmStep).synth
    ensures s.bpm < c.bpmStep ==> r.synth == SetBpm(s, s.bpm - c.bpmStep + 256).synth
  {
    SetBpm(s, Truncate(s.bpm - c.bpmStep))
  }

  // ---------------------------------------------------------------------------
  // Properties relating several calls

  /** `getPitch` returns what `setPitch` stored, verbatim; nothing else changes and nothing is sent. */
  lemma GetPitchAfterSetPitch(s: Synth, pitch: byte)
    ensures GetPitch(SetPitch(s, pitch).synth) == pitch
    ensures SetPitch(s, pitch).synth.(pitch := s.pitch) == s
    ensures SetPitch(s, pitch).sent == []
    ensures SetPitch(s, GetPitch(s)).synth == s
  {
  }

  /** `getBpm` after `setBpm(x)` is x clamped to [40, 240]. */
  lemma GetBpmAfterSetBpm(s: Synth, bpm: byte)
    ensures bpm < BPM_MIN ==> GetBpm(SetBpm(s, bpm).synth) == BPM_MIN
    ensures bpm > BPM_MAX ==> GetBpm(SetBpm(s, bpm).synth) == BPM_MAX
    ensures BpmInRange(bpm) ==> GetBpm(SetBpm(s, bpm).synth) == bpm
  {
  }

  /** Setting the same tempo twice is setting it once; storing the current in-range tempo changes nothing. */
  lemma SetBpmIdempotent(s: Synth, bpm: byte)
    ensures SetBpm(SetBpm(s, bpm).synth, bpm) == SetBpm(s, bpm)
    ensures BpmInRange(s.bpm) ==> SetBpm(s, GetBpm(s)).synth == s
  {
  }

  /** The stored defaults never reach a Note On: what is sent depends on the arguments only. */
  lemma NoteOnIgnoresDefaults(s1: Synth, s2: Synth, channel: byte, pitch: byte, velocity: byte)
    ensures SetNoteOn(s1, channel, pitch, velocity).sent == SetNoteOn(s2, channel, pitch, velocity).sent
  {
  }

  /** Note Off sends the same bytes whatever velocity it is given. */
  lemma NoteOffIgnoresVelocity(s: Synth, channel: byte, pitch: byte, v1: byte, v2: byte)
    ensures SetNoteOff(s, channel, pitch, v1) == SetNoteOff(s, channel, pitch, v2)
    ensures SetNoteOff(s, channel, pitch, v1).sent[0][2] == 0
  {
  }

  /** The bank-select and program-change writes read back, in order, as the two messages they name. */
  lemma SetInstrumentReadsBack(s: Synth, bank: byte, channel: byte, program: byte)
    requires IsDataByte(bank) && IsDataByte(program)
    ensures Decode(Transport.Concat(SetInstrument(s, bank, channel, program).sent))
         == Some([ControlChange(channel % 16, BANK_SELECT, bank), ProgramChange(channel % 16, program)])
  {
    var ms := [ControlChange(channel % 16, BANK_SELECT, bank), ProgramChange(channel % 16, program)];
    var cmds := SetInstrument(s, bank, channel, program).sent;
    assert cmds[0] == Encode(ms[0]) && cmds[1] == Encode(ms[1]);
    Transport.ConcatPair(cmds[0], cmds[1]);
    EncodeAllPair(ms[0], ms[1]);
    assert Transport.Concat(cmds) == EncodeAll(ms);
    DecodeEncodeAll(ms);
  }

  /** A chord of one slot: one Note On when the slot sounds, nothing when it does not. */
  lemma ChordNoteOnsSlot(s: Synth, channel: byte, velocity: byte, note: ChordNote)
    ensures note.isOn ==> ChordNoteOns(s, channel, velocity, [note]) == [Encode(NoteOn(channel, note.pitch, velocity))]
    ensures !note.isOn ==> ChordNoteOns(s, channel, velocity, [note]) == []
  {
    assert [note][1..] == [];
  }

  /** Slots are played in order: the commands for `a + b` are those for `a`, then those for `b`. */
  lemma {:induction false} ChordNoteOnsAppend(s: Synth, channel: byte, velocity: byte, a: seq<ChordNote>, b: seq<ChordNote>)
    ensures ChordNoteOns(s, channel, velocity, a + b)
         == ChordNoteOns(s, channel, velocity, a) + ChordNoteOns(s, channel, velocity, b)
    decreases |a|
  {
    if |a| == 0 {
      assert a + b == b;
    } else {
      assert (a + b)[0] == a[0];
      assert (a + b)[1..] == a[1..] + b;
      ChordNoteOnsAppend(s, channel, velocity, a[1..], b);
    }
  }

  /** Number of slots of `notes` that sound, counted from the last slot back. */
  function SoundingSlots(notes: seq<ChordNote>): (count: nat)
    decreases |notes|
  {
    if |notes| == 0 then 0
    else SoundingSlots(notes[..|notes| - 1]) + (if notes[|notes| - 1].isOn then 1 else 0)
  }

  /** A chord sends exactly one command per sounding slot. */
  lemma {:induction false} ChordNoteOnsCount(s: Synth, channel: byte, velocity: byte, notes: seq<ChordNote>)
    ensures |ChordNoteOns(s, channel, velocity, notes)| == SoundingSlots(notes)
    decreases |notes|
  {
    if |notes| > 0 {
      var init := notes[..|notes| - 1];
      var last := notes[|notes| - 1];
      assert notes == init + [last];
      ChordNoteOnsAppend(s, channel, velocity, init, [last]);
      ChordNoteOnsSlot(s, channel, velocity, last);
      ChordNoteOnsCount(s, channel, velocity, init);
    }
  }

  /** `setBpm` stores the in-range tempo nearest to its argument. */
  lemma SetBpmNearest(s: Synth, bpm: byte, y: byte)
    requires BpmInRange(y)
    ensures Distance(SetBpm(s, bpm).synth.bpm, bpm) <= Distance(y, bpm)
  {
  }

  /**
   The chord's commands are Note Ons for its sounding slots: each is the encoding
   of a Note On for some sounding slot, and there are none exactly when no slot sounds.
   */
  lemma {:induction false} ChordNoteOnsSound(s: Synth, channel: byte, velocity: byte, notes: seq<ChordNote>)
    ensures var cmds := ChordNoteOns(s, channel, velocity, notes);
            && (forall k :: 0 <= k < |cmds| ==>
                  exists i :: 0 <= i < |notes| && notes[i].isOn && cmds[k] == Encode(NoteOn(channel, notes[i].pitch, velocity)))
            && (cmds == [] <==> forall i :: 0 <= i < |notes| ==> !notes[i].isOn)
    decreases |notes|
  {
    if |notes| > 0 {
      var cmds := ChordNoteOns(s, channel, velocity, notes);
      var head := if notes[0].isOn then SetNoteOn(s, channel, notes[0].pitch, velocity).sent else [];
      var rest := ChordNoteOns(s, channel, velocity, notes[1..]);
      ChordNoteOnsSound(s, channel, velocity, notes[1..]);
      assert cmds == head + rest;
      forall k | 0 <= k < |cmds|
        ensures exists i :: 0 <= i < |notes| && notes[i].isOn && cmds[k] == Encode(NoteOn(channel, notes[i].pitch, velocity))
      {
        if k < |head| {
          assert notes[0].isOn && cmds[k] == Encode(NoteOn(channel, notes[0].pitch, velocity));
        } else {
          var i :| 0 <= i < |notes[1..]| && notes[1..][i].isOn
                   && rest[k - |head|] == Encode(NoteOn(channel, notes[1..][i].pitch, velocity));
          assert notes[i + 1] == notes[1..][i];
        }
      }
      if forall i :: 0 <= i < |notes| ==> !notes[i].isOn {
        assert forall i :: 0 <= i < |notes[1..]| ==> !notes[1..][i].isOn by {
          forall i | 0 <= i < |notes[1..]| ensures !notes[1..][i].isOn {
            assert notes[1..][i] == notes[i + 1];
          }
        }
      }
    }
  }

  /** Every command of a chord is a 3-byte Note On on the chord's channel with the chord's velocity. */
  lemma PlayChordShape(s: Synth, chord: Chord, k: nat)
    requires k < |PlayChord(s, chord).sent|
    ensures var cmd := PlayChord(s, chord).sent[k];
            |cmd| == 3 && cmd[0] / 16 == MIDI_COMMAND_ON / 16 && cmd[0] % 16 == chord.channel % 16 && cmd[2] == chord.velocity
  {
    ChordNoteOnsSound(s, chord.channel, chord.velocity, chord.notes);
  }

  /** The sweep sends Channel Volume `level` to channel `from + k` as its k-th command. */
  lemma {:induction false} VolumeSweepContents(s: Synth, from: nat, level: byte, k: nat)
    requires from <= CHANNEL_COUNT && k < CHANNEL_COUNT - from
    ensures VolumeSweep(s, from, level)[k] == Encode(ControlChange(from + k, CHANNEL_VOLUME, level))
    decreases k
  {
    if k > 0 {
      VolumeSweepContents(s, from + 1, level, k - 1);
    }
  }

  /** After a velocity step, channel `ch` is sent Channel Volume equal to the new velocity. */
  lemma VelocityBroadcast(c: Config, s: Synth, ch: nat)
    requires ch < CHANNEL_COUNT
    ensures IncreaseVelocity(c, s).sent[ch] == Encode(ControlChange(ch, CHANNEL_VOLUME, IncreaseVelocity(c, s).synth.velocity))
    ensures DecreaseVelocity(c, s).sent[ch] == Encode(ControlChange(ch, CHANNEL_VOLUME, DecreaseVelocity(c, s).synth.velocity))
  {
    var up := IncreaseVelocity(c, s).synth;
    var down := DecreaseVelocity(c, s).synth;
    VolumeSweepContents(up, 0, up.velocity, ch);
    VolumeSweepContents(down, 0, down.velocity, ch);
  }

  /** `setPitch` does not clamp; from a stored 0 one step down wraps to 255, which the clamp to NOTE_B0 lets through. */
  lemma DecreasePitchWrapsAtZero(c: Config, s: Synth)
    requires PitchLimitsOk(c) && s.pitch == 0
    ensures DecreasePitch(c, s).synth.pitch == 255
    ensures !PitchInRange(c, DecreasePitch(c, s).synth.pitch)
  {
  }

  /** From 255 one step up wraps to 0, below NOTE_B0. */
  lemma IncreasePitchWrapsAtTop(c: Config, s: Synth)
    requires PitchLimitsOk(c) && s.pitch == 255
    ensures IncreasePitch(c, s).synth.pitch == 0
    ensures !PitchInRange(c, IncreasePitch(c, s).synth.pitch)
  {
  }

  /** Without `BpmStepOk`, a step up from the maximum wraps past 255 and lands on the minimum. */
  lemma IncreaseBpmWrapsWithLargeStep(c: Config, s: Synth)
    requires c.bpmStep == 20 && s.bpm == BPM_MAX
    ensures IncreaseBpm(c, s).synth.bpm == BPM_MIN
  {
  }
}
