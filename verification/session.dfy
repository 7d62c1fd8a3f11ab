/**
 A driver object in use: its state together with everything written so far to
 each serial port, driven by a sequence of calls to its public operations.

 `Intent` says, in terms of MIDI messages, what each operation is documented to
 send; the properties below show that the bytes each operation puts on a
 configured port are exactly the encoding of those messages, in order, and that
 the settings stay in their ranges along any run.
 */
module Session {
  import opened Bytes
  import Midi
  import Transport
  import Sam2695

  /** The driver state and the byte logs of the two serial ports. */
  datatype Device = Device(synth: Sam2695.Synth, wire: Transport.Wire)

  /** A freshly constructed driver: nothing written yet. */
  function Boot(c: Sam2695.Config): (d: Device) {
    Device(Sam2695.Init(c), Transport.Wire([], []))
  }

  /** One call of a public operation that changes state or writes to a port. */
  datatype Command =
    | BeginHardware
    | BeginSoftware(present: bool)
    | SetInstrument(bank: byte, channel: byte, program: byte)
    | SetNoteOn(channel: byte, pitch: byte, velocity: byte)
    | SetNoteOff(channel: byte, pitch: byte, velocity: byte)
    | SetAllNotesOff(channel: byte)
    | PlayChord(chord: Sam2695.Chord)
    | SetVolume(channel: byte, level: byte)
    | SetPitch(pitch: byte)
    | IncreasePitch
    | DecreasePitch
    | IncreaseVelocity
    | DecreaseVelocity
    | SetBpm(bpm: byte)
    | IncreaseBpm
    | DecreaseBpm

  predicate IsBegin(cmd: Command) {
    cmd.BeginHardware? || cmd.BeginSoftware?
  }

  /** The operation a command names, applied to the driver state. */
  function Interpret(c: Sam2695.Config, s: Sam2695.Synth, cmd: Command): (r: Sam2695.Step)
    ensures r.synth.hwSerial == (cmd.BeginHardware? || s.hwSerial)
    ensures r.synth.swSerial == (if cmd.BeginSoftware? then cmd.present else s.swSerial)
  {
    match cmd
    case BeginHardware => Sam2695.Step(Sam2695.BeginHardware(s), [])
    case BeginSoftware(present) => Sam2695.Step(Sam2695.BeginSoftware(s, present), [])
    case SetInstrument(bank, channel, program) => Sam2695.SetInstrument(s, bank, channel, program)
    case SetNoteOn(channel, pitch, velocity) => Sam2695.SetNoteOn(s, channel, pitch, velocity)
    case SetNoteOff(channel, pitch, velocity) => Sam2695.SetNoteOff(s, channel, pitch, velocity)
    case SetAllNotesOff(channel) => Sam2695.SetAllNotesOff(s, channel)
    case PlayChord(chord) => Sam2695.PlayChord(s, chord)
    case SetVolume(channel, level) => Sam2695.SetVolume(s, channel, level)
    case SetPitch(pitch) => Sam2695.SetPitch(s, pitch)
    case IncreasePitch => Sam2695.IncreasePitch(c, s)
    case DecreasePitch => Sam2695.DecreasePitch(c, s)
    case IncreaseVelocity => Sam2695.IncreaseVelocity(c, s)
    case DecreaseVelocity => Sam2695.DecreaseVelocity(c, s)
    case SetBpm(bpm) => Sam2695.SetBpm(s, bpm)
    case IncreaseBpm => Sam2695.IncreaseBpm(c, s)
    case DecreaseBpm => Sam2695.DecreaseBpm(c, s)
  }

  // ---------------------------------------------------------------------------
  // What each operation is documented to send, as MIDI messages

  /**
   A chord: one Note On per sounding slot, in slot order, all on the chord's
   channel and velocity. The message-level view of `Sam2695.ChordNoteOns`, related
   to it by `ChordSent`.
   */
  function ChordMessages(channel: byte, velocity: byte, notes: seq<Sam2695.ChordNote>): (ms: seq<Midi.Message>)
    decreases |notes|
  {
    if |notes| == 0 then []
    else
      var head := if notes[0].isOn then [Midi.NoteOn(channel % 16, notes[0].pitch, velocity)] else [];
      head + ChordMessages(channel, velocity, notes[1..])
  }

  /**
   Channel Volume `level` for every channel from `from` up to 15, ascending. The
   message-level view of `Sam2695.VolumeSweep`, related to it by `VolumeSent`.
   */
  function VolumeMessages(from: nat, level: byte): (ms: seq<Midi.Message>)
    requires from <= Sam2695.CHANNEL_COUNT
    decreases Sam2695.CHANNEL_COUNT - from
  {
    if from == Sam2695.CHANNEL_COUNT then []
    else [Midi.ControlChange(from, Midi.CHANNEL_VOLUME, level)] + VolumeMessages(from + 1, level)
  }

  /**
   The messages a command is meant to send, channels taken modulo 16; `after` is
   the state the call leaves, whose velocity the velocity steps broadcast.
   */
  function Intent(cmd: Command, after: Sam2695.Synth): (ms: seq<Midi.Message>) {
    match cmd
    case SetInstrument(bank, channel, program) =>
      [Midi.ControlChange(channel % 16, Midi.BANK_SELECT, bank), Midi.ProgramChange(channel % 16, program)]
    case SetNoteOn(channel, pitch, velocity) => [Midi.NoteOn(channel % 16, pitch, velocity)]
    case SetNoteOff(channel, pitch, _) => [Midi.NoteOff(channel % 16, pitch, 0)]
    case SetAllNotesOff(channel) => [Midi.ControlChange(channel % 16, Midi.ALL_NOTES_OFF, 0)]
    case PlayChord(chord) => ChordMessages(chord.channel, chord.velocity, chord.notes)
    case SetVolume(channel, level) => [Midi.ControlChange(channel % 16, Midi.CHANNEL_VOLUME, level)]
    case IncreaseVelocity => VolumeMessages(0, after.velocity)
    case DecreaseVelocity => VolumeMessages(0, after.velocity)
    case _ => []
  }

  /** Command lists that write the same stream as two message lists still do so when both are extended. */
  lemma SameStream(cmds: seq<seq<byte>>, restCmds: seq<seq<byte>>, ms: seq<Midi.Message>, restMs: seq<Midi.Message>)
    requires Transport.Concat(cmds) == Midi.EncodeAll(ms)
    requires Transport.Concat(restCmds) == Midi.EncodeAll(restMs)
    ensures Transport.Concat(cmds + restCmds) == Midi.EncodeAll(ms + restMs)
  {
    Transport.ConcatAppend(cmds, restCmds);
    Midi.EncodeAllAppend(ms, restMs);
  }

  /** A chord's Note On commands write exactly the encoding of its messages. */
  lemma {:induction false} ChordSent(s: Sam2695.Synth, channel: byte, velocity: byte, notes: seq<Sam2695.ChordNote>)
    ensures Transport.Concat(Sam2695.ChordNoteOns(s, channel, velocity, notes))
         == Midi.EncodeAll(ChordMessages(channel, velocity, notes))
    decreases |notes|
  {
    if |notes| > 0 {
      var note := notes[0];
      var cmds := if note.isOn then Sam2695.SetNoteOn(s, channel, note.pitch, velocity).sent else [];
      var ms := if note.isOn then [Midi.NoteOn(channel % 16, note.pitch, velocity)] else [];
      if note.isOn {
        Transport.ConcatSingle(cmds[0]);
        Midi.EncodeAllSingle(ms[0]);
      }
      ChordSent(s, channel, velocity, notes[1..]);
      SameStream(cmds, Sam2695.ChordNoteOns(s, channel, velocity, notes[1..]), ms, ChordMessages(channel, velocity, notes[1..]));
    }
  }

  /** The volume sweep writes exactly the encoding of one Channel Volume message per channel. */
  lemma {:induction false} VolumeSent(s: Sam2695.Synth, from: nat, level: byte)
    requires from <= Sam2695.CHANNEL_COUNT
    ensures Transport.Concat(Sam2695.VolumeSweep(s, from, level)) == Midi.EncodeAll(VolumeMessages(from, level))
    decreases Sam2695.CHANNEL_COUNT - from
  {
    if from < Sam2695.CHANNEL_COUNT {
      var cmds := Sam2695.SetVolume(s, from, level).sent;
      var ms := [Midi.ControlChange(from, Midi.CHANNEL_VOLUME, level)];
      Transport.ConcatSingle(cmds[0]);
      Midi.EncodeAllSingle(ms[0]);
      VolumeSent(s, from + 1, level);
      SameStream(cmds, Sam2695.VolumeSweep(s, from + 1, level), ms, VolumeMessages(from + 1, level));
    }
  }

  lemma OneSent(cmds: seq<seq<byte>>, m: Midi.Message)
    requires cmds == [Midi.Encode(m)]
    ensures Transport.Concat(cmds) == Midi.EncodeAll([m])
  {
  }

  lemma InstrumentSent(c: Sam2695.Config, s: Sam2695.Synth, bank: byte, channel: byte, program: byte)
    ensures var r := Interpret(c, s, SetInstrument(bank, channel, program));
            Transport.Concat(r.sent) == Midi.EncodeAll(Intent(SetInstrument(bank, channel, program), r.synth))
  {
    var sent := Sam2695.SetInstrument(s, bank, channel, program).sent;
    var ms := [Midi.ControlChange(channel % 16, Midi.BANK_SELECT, bank), Midi.ProgramChange(channel % 16, program)];
    Transport.ConcatPair(sent[0], sent[1]);
    assert sent == [sent[0], sent[1]];
    Midi.EncodeAllPair(ms[0], ms[1]);
  }

  lemma ChordCommandSent(c: Sam2695.Config, s: Sam2695.Synth, chord: Sam2695.Chord)
    ensures var r := Interpret(c, s, PlayChord(chord));
            Transport.Concat(r.sent) == Midi.EncodeAll(Intent(PlayChord(chord), r.synth))
  {
    ChordSent(s, chord.channel, chord.velocity, chord.notes);
  }

  lemma IncreaseVelocitySent(c: Sam2695.Config, s: Sam2695.Synth)
    ensures var r := Interpret(c, s, IncreaseVelocity);
            Transport.Concat(r.sent) == Midi.EncodeAll(Intent(IncreaseVelocity, r.synth))
  {
    var r := Interpret(c, s, IncreaseVelocity);
    VolumeSent(r.synth, 0, r.synth.velocity);
  }

  lemma DecreaseVelocitySent(c: Sam2695.Config, s: Sam2695.Synth)
    ensures var r := Interpret(c, s, DecreaseVelocity);
            Transport.Concat(r.sent) == Midi.EncodeAll(Intent(DecreaseVelocity, r.synth))
  {
    var r := Interpret(c, s, DecreaseVelocity);
    VolumeSent(r.synth, 0, r.synth.velocity);
  }

  /** Every operation writes exactly the encoding of the messages it is meant to send, in order. */
  lemma SentAsIntended(c: Sam2695.Config, s: Sam2695.Synth, cmd: Command)
    ensures var r := Interpret(c, s, cmd);
            Transport.Concat(r.sent) == Midi.EncodeAll(Intent(cmd, r.synth))
  {
    match cmd {
      case SetInstrument(bank, channel, program) => InstrumentSent(c, s, bank, channel, program);
      case SetNoteOn(_, _, _) => OneSent(Interpret(c, s, cmd).sent, Intent(cmd, s)[0]);
      case SetNoteOff(_, _, _) => OneSent(Interpret(c, s, cmd).sent, Intent(cmd, s)[0]);
      case SetAllNotesOff(_) => OneSent(Interpret(c, s, cmd).sent, Intent(cmd, s)[0]);
      case SetVolume(_, _) => OneSent(Interpret(c, s, cmd).sent, Intent(cmd, s)[0]);
      case PlayChord(chord) => ChordCommandSent(c, s, chord);
      case IncreaseVelocity => IncreaseVelocitySent(c, s);
      case DecreaseVelocity => DecreaseVelocitySent(c, s);
      case _ =>
    }
  }

  /** A receiver reads back exactly the intended messages, and does so precisely when they are well formed. */
  lemma ReadsBackAsIntended(c: Sam2695.Config, s: Sam2695.Synth, cmd: Command)
    ensures var r := Interpret(c, s, cmd);
            Midi.Decode(Transport.Concat(r.sent)) == Midi.Some(Intent(cmd, r.synth)) <==> Midi.AllWellFormed(Intent(cmd, r.synth))
  {
    var r := Interpret(c, s, cmd);
    SentAsIntended(c, s, cmd);
    Midi.DecodeSpec(Transport.Concat(r.sent), Intent(cmd, r.synth));
  }

  // ---------------------------------------------------------------------------
  // Running commands against the two ports

  /** One call: the operation, then `sendCMD` for each command it built, with the ports set before the call. */
  function Exec(c: Sam2695.Config, d: Device, cmd: Command): (d': Device)
    ensures d'.synth == Interpret(c, d.synth, cmd).synth
    ensures d.synth.hwSerial ==> d'.wire.hardware == d.wire.hardware + Midi.EncodeAll(Intent(cmd, d'.synth))
    ensures d.synth.swSerial ==> d'.wire.software == d.wire.software + Midi.EncodeAll(Intent(cmd, d'.synth))
    ensures !d.synth.hwSerial ==> d'.wire.hardware == d.wire.hardware
    ensures !d.synth.swSerial ==> d'.wire.software == d.wire.software
  {
    var r := Interpret(c, d.synth, cmd);
    Transport.DeliverIsSendOfConcat(d.synth.hwSerial, d.synth.swSerial, d.wire, r.sent);
    SentAsIntended(c, d.synth, cmd);
    Device(r.synth, Transport.Deliver(d.synth.hwSerial, d.synth.swSerial, d.wire, r.sent))
  }

  /** A sequence of calls, in order. */
  function Run(c: Sam2695.Config, d: Device, cmds: seq<Command>): (d': Device)
    ensures d.wire.hardware <= d'.wire.hardware && d.wire.software <= d'.wire.software
    ensures d.synth.hwSerial ==> d'.synth.hwSerial
    decreases |cmds|
  {
    if |cmds| == 0 then d
    else Run(c, Exec(c, d, cmds[0]), cmds[1..])
  }

  /** The messages a run of calls is meant to send, in order. */
  function RunIntent(c: Sam2695.Config, s: Sam2695.Synth, cmds: seq<Command>): (ms: seq<Midi.Message>)
    decreases |cmds|
  {
    if |cmds| == 0 then []
    else
      var after := Interpret(c, s, cmds[0]).synth;
      Intent(cmds[0], after) + RunIntent(c, after, cmds[1..])
  }

  /** Two appends to a log, one after the other, append the concatenated messages. */
  lemma LogGrows(h0: seq<byte>, h1: seq<byte>, h2: seq<byte>, first: seq<Midi.Message>, rest: seq<Midi.Message>)
    requires h1 == h0 + Midi.EncodeAll(first)
    requires h2 == h1 + Midi.EncodeAll(rest)
    ensures h2 == h0 + Midi.EncodeAll(first + rest)
  {
    Midi.EncodeAllAppend(first, rest);
  }

  /** Once the hardware port is set, it receives exactly the encoding of every intended message, in order. */
  lemma {:induction false} HardwareLogIsIntent(c: Sam2695.Config, d: Device, cmds: seq<Command>)
    requires d.synth.hwSerial
    ensures Run(c, d, cmds).wire.hardware == d.wire.hardware + Midi.EncodeAll(RunIntent(c, d.synth, cmds))
    decreases |cmds|
  {
    if |cmds| == 0 {
      assert Midi.EncodeAll([]) == [];
    } else {
      var d1 := Exec(c, d, cmds[0]);
      var first := Intent(cmds[0], d1.synth);
      var rest := RunIntent(c, d1.synth, cmds[1..]);
      HardwareLogIsIntent(c, d1, cmds[1..]);
      LogGrows(d.wire.hardware, d1.wire.hardware, Run(c, d1, cmds[1..]).wire.hardware, first, rest);
    }
  }

  /** While the software port is never switched off, it receives the same stream as the hardware port would. */
  lemma {:induction false} SoftwareLogIsIntent(c: Sam2695.Config, d: Device, cmds: seq<Command>)
    requires d.synth.swSerial
    requires forall i :: 0 <= i < |cmds| ==> cmds[i] != BeginSoftware(false)
    ensures Run(c, d, cmds).wire.software == d.wire.software + Midi.EncodeAll(RunIntent(c, d.synth, cmds))
    decreases |cmds|
  {
    if |cmds| == 0 {
      assert Midi.EncodeAll([]) == [];
    } else {
      var d1 := Exec(c, d, cmds[0]);
      var first := Intent(cmds[0], d1.synth);
      var rest := RunIntent(c, d1.synth, cmds[1..]);
      assert cmds[0] != BeginSoftware(false);
      assert forall i :: 0 <= i < |cmds[1..]| ==> cmds[1..][i] != BeginSoftware(false) by {
        forall i | 0 <= i < |cmds[1..]| ensures cmds[1..][i] != BeginSoftware(false) {
          assert cmds[1..][i] == cmds[i + 1];
        }
      }
      SoftwareLogIsIntent(c, d1, cmds[1..]);
      LogGrows(d.wire.software, d1.wire.software, Run(c, d1, cmds[1..]).wire.software, first, rest);
    }
  }

  /** What the hardware port received during a run reads back as the intended messages when they are well formed. */
  lemma HardwareLogReadsBack(c: Sam2695.Config, d: Device, cmds: seq<Command>)
    requires d.synth.hwSerial
    requires Midi.AllWellFormed(RunIntent(c, d.synth, cmds))
    ensures Midi.Decode(Run(c, d, cmds).wire.hardware[|d.wire.hardware|..]) == Midi.Some(RunIntent(c, d.synth, cmds))
  {
    HardwareLogIsIntent(c, d, cmds);
    var log := Run(c, d, cmds).wire.hardware;
    assert log[|d.wire.hardware|..] == Midi.EncodeAll(RunIntent(c, d.synth, cmds));
    Midi.DecodeEncodeAll(RunIntent(c, d.synth, cmds));
  }

  /** With no port set and no `begin`, every write is dropped: neither log changes. */
  lemma {:induction false} NoPortNoOutput(c: Sam2695.Config, d: Device, cmds: seq<Command>)
    requires !d.synth.hwSerial && !d.synth.swSerial
    requires forall i :: 0 <= i < |cmds| ==> !IsBegin(cmds[i])
    ensures Run(c, d, cmds).wire == d.wire
    decreases |cmds|
  {
    if |cmds| > 0 {
      var d1 := Exec(c, d, cmds[0]);
      assert !IsBegin(cmds[0]);
      assert forall i :: 0 <= i < |cmds[1..]| ==> !IsBegin(cmds[1..][i]) by {
        forall i | 0 <= i < |cmds[1..]| ensures !IsBegin(cmds[1..][i]) {
          assert cmds[1..][i] == cmds[i + 1];
        }
      }
      NoPortNoOutput(c, d1, cmds[1..]);
    }
  }

  /** A freshly constructed driver on which `begin` is never called writes nothing, whatever it is asked to do. */
  lemma BootWritesNothing(c: Sam2695.Config, cmds: seq<Command>)
    requires forall i :: 0 <= i < |cmds| ==> !IsBegin(cmds[i])
    ensures Run(c, Boot(c), cmds).wire == Transport.Wire([], [])
  {
    NoPortNoOutput(c, Boot(c), cmds);
  }

  // ---------------------------------------------------------------------------
  // Range invariant along a run

  /** The only way into the pitch range from outside is `setPitch`, which does not clamp. */
  predicate PitchArgOk(c: Sam2695.Config, cmd: Command) {
    cmd.SetPitch? ==> Sam2695.PitchInRange(c, cmd.pitch)
  }

  /** Every operation keeps the settings in range, given in-range `setPitch` arguments and roomy limits. */
  lemma InterpretKeepsInRange(c: Sam2695.Config, s: Sam2695.Synth, cmd: Command)
    requires Sam2695.ConfigOk(c) && Sam2695.InRange(c, s) && PitchArgOk(c, cmd)
    ensures Sam2695.InRange(c, Interpret(c, s, cmd).synth)
  {
  }

  lemma {:induction false} RunKeepsInRange(c: Sam2695.Config, d: Device, cmds: seq<Command>)
    requires Sam2695.ConfigOk(c) && Sam2695.InRange(c, d.synth)
    requires forall i :: 0 <= i < |cmds| ==> PitchArgOk(c, cmds[i])
    ensures Sam2695.InRange(c, Run(c, d, cmds).synth)
    decreases |cmds|
  {
    if |cmds| > 0 {
      var d1 := Exec(c, d, cmds[0]);
      assert PitchArgOk(c, cmds[0]);
      InterpretKeepsInRange(c, d.synth, cmds[0]);
      assert forall i :: 0 <= i < |cmds[1..]| ==> PitchArgOk(c, cmds[1..][i]) by {
        forall i | 0 <= i < |cmds[1..]| ensures PitchArgOk(c, cmds[1..][i]) {
          assert cmds[1..][i] == cmds[i + 1];
        }
      }
      RunKeepsInRange(c, d1, cmds[1..]);
    }
  }

  /**
   A freshly constructed driver whose header limits bracket the constructor's
   defaults stays in range along any run whose `setPitch` arguments are in range.
   */
  lemma RunFromBootKeepsInRange(c: Sam2695.Config, cmds: seq<Command>)
    requires Sam2695.ConfigOk(c)
    requires Sam2695.PitchInRange(c, Sam2695.INITIAL_PITCH) && Sam2695.VelocityInRange(c, Sam2695.INITIAL_VELOCITY)
    requires Sam2695.BpmInRange(c.bpmDefault)
    requires forall i :: 0 <= i < |cmds| ==> PitchArgOk(c, cmds[i])
    ensures Sam2695.InRange(c, Run(c, Boot(c), cmds).synth)
  {
    RunKeepsInRange(c, Boot(c), cmds);
  }

  /** Without the `setPitch` condition the invariant fails: `setPitch(0)` then `decreasePitch` leaves 255. */
  lemma SetPitchEscapesRange(c: Sam2695.Config, d: Device)
    requires Sam2695.ConfigOk(c)
    ensures Run(c, d, [SetPitch(0), DecreasePitch]).synth.pitch == 255
    ensures !Sam2695.InRange(c, Run(c, d, [SetPitch(0), DecreasePitch]).synth)
  {
    var d1 := Exec(c, d, SetPitch(0));
    assert d1.synth.pitch == 0;
    var d2 := Exec(c, d1, DecreasePitch);
    assert d2.synth.pitch == 255;
    assert [SetPitch(0), DecreasePitch][1..] == [DecreasePitch];
    assert [DecreasePitch][1..] == [];
  }
}
