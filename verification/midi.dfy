/**
 The part of the MIDI 1.0 wire format that the SAM2695 driver speaks: the
 Channel Voice messages Note Off, Note On, Control Change and Program Change
 (Control Change also carries the Channel Mode message All Notes Off).

 A message is a status byte, whose high nibble names the command and whose low
 nibble names the channel 0-15, followed by one or two 7-bit data bytes.
 `Encode` writes a message; `Decode` reads a byte stream back into messages and
 is the reference every encoder of the driver is checked against.
 */
module Midi {
  import opened Bytes

  datatype Option<+T> = None | Some(value: T)

  /** Command nibbles of the status byte (MIDI 1.0, Channel Voice Messages). */
  const MIDI_COMMAND_OFF: byte := 0x80
  const MIDI_COMMAND_ON: byte := 0x90
  const MIDI_CMD_CONTROL_CHANGE: byte := 0xB0
  const MIDI_CMD_PROGRAM_CHANGE: byte := 0xC0

  /** Controller numbers carried by Control Change. */
  const BANK_SELECT: byte := 0x00
  const CHANNEL_VOLUME: byte := 0x07
  /** Channel Mode message "All Notes Off" (controller 123). */
  const ALL_NOTES_OFF: byte := 0x7B

  /** Data bytes have their top bit clear; status bytes have it set. */
  predicate IsDataByte(b: byte) {
    b < 0x80
  }

  /** A command byte: status bit set, low nibble clear. */
  predicate IsCommand(command: byte) {
    command >= 0x80 && command % 16 == 0
  }

  /**
   Status byte of a channel message: the command in the high nibble and the
   channel, taken modulo 16, in the low one. `StatusByteIsBitwise` shows this is
   the driver's `command | (channel & 0x0F)`.
   */
  function StatusByte(command: byte, channel: byte): (status: byte)
    requires IsCommand(command)
    ensures status / 16 == command / 16
    ensures status % 16 == channel % 16
  {
    command + channel % 16
  }

  /** The driver's bitwise construction `command | (channel & 0x0F)` yields `StatusByte`. */
  lemma StatusByteIsBitwise(command: byte, channel: byte)
    requires IsCommand(command)
    ensures BitOr(command, BitAnd(channel, 0x0F)) == StatusByte(command, channel)
  {
    AndLowNibble(channel);
    OrDisjointNibble(command, BitAnd(channel, 0x0F));
  }

  datatype Message =
    | NoteOff(channel: byte, key: byte, velocity: byte)
    | NoteOn(channel: byte, key: byte, velocity: byte)
    | ControlChange(channel: byte, controller: byte, value: byte)
    | ProgramChange(channel: byte, program: byte)

  /** Every data byte of the message is a 7-bit value. */
  predicate HasDataBytes(m: Message) {
    match m
    case NoteOff(_, key, velocity) => IsDataByte(key) && IsDataByte(velocity)
    case NoteOn(_, key, velocity) => IsDataByte(key) && IsDataByte(velocity)
    case ControlChange(_, controller, value) => IsDataByte(controller) && IsDataByte(value)
    case ProgramChange(_, program) => IsDataByte(program)
  }

  /** A message that can be put on the wire: channel 0-15 and 7-bit data. */
  predicate WellFormed(m: Message) {
    m.channel < 16 && HasDataBytes(m)
  }

  predicate AllWellFormed(ms: seq<Message>) {
    forall i :: 0 <= i < |ms| ==> WellFormed(ms[i])
  }

  /** Reference encoding of a message: status byte (command plus channel), then the data bytes. */
  function Encode(m: Message): (bytes: seq<byte>)
    ensures 2 <= |bytes| <= 3
  {
    var channel := m.channel % 16;
    match m
    case NoteOff(_, key, velocity) => [MIDI_COMMAND_OFF + channel, key, velocity]
    case NoteOn(_, key, velocity) => [MIDI_COMMAND_ON + channel, key, velocity]
    case ControlChange(_, controller, value) => [MIDI_CMD_CONTROL_CHANGE + channel, controller, value]
    case ProgramChange(_, program) => [MIDI_CMD_PROGRAM_CHANGE + channel, program]
  }

  function EncodeAll(ms: seq<Message>): (bytes: seq<byte>)
    decreases |ms|
  {
    if |ms| == 0 then [] else Encode(ms[0]) + EncodeAll(ms[1..])
  }

  lemma EncodeAllPair(a: Message, b: Message)
    ensures EncodeAll([a, b]) == Encode(a) + Encode(b)
  {
    assert [a, b][1..] == [b];
    assert [b][1..] == [];
    assert EncodeAll([b]) == Encode(b);
  }

  lemma EncodeAllSingle(m: Message)
    ensures EncodeAll([m]) == Encode(m)
  {
  }

  /** Encoding distributes over concatenation of message sequences. */
  lemma {:induction false} EncodeAllAppend(a: seq<Message>, b: seq<Message>)
    ensures EncodeAll(a + b) == EncodeAll(a) + EncodeAll(b)
    decreases |a|
  {
    if |a| > 0 {
      assert (a + b)[0] == a[0];
      assert (a + b)[1..] == a[1..] + b;
      EncodeAllAppend(a[1..], b);
    } else {
      assert a + b == b;
    }
  }

  /** Length of the message a status byte opens; 0 for a status this format does not know. */
  function MessageLength(status: byte): (length: nat)
  {
    var command := status - status % 16;
    if command == MIDI_COMMAND_OFF || command == MIDI_COMMAND_ON || command == MIDI_CMD_CONTROL_CHANGE then 3
    else if command == MIDI_CMD_PROGRAM_CHANGE then 2
    else 0
  }

  /** Reads one complete message; fails when a data byte has its top bit set. */
  function DecodeOne(bytes: seq<byte>): (r: Option<Message>)
    requires |bytes| > 0 && |bytes| == MessageLength(bytes[0])
    ensures r.Some? ==> WellFormed(r.value) && Encode(r.value) == bytes
    ensures r.Some? <==> forall i :: 1 <= i < |bytes| ==> IsDataByte(bytes[i])
  {
    var command := bytes[0] - bytes[0] % 16;
    var channel := bytes[0] % 16;
    if !(forall i :: 1 <= i < |bytes| ==> IsDataByte(bytes[i])) then None
    else if command == MIDI_COMMAND_OFF then Some(NoteOff(channel, bytes[1], bytes[2]))
    else if command == MIDI_COMMAND_ON then Some(NoteOn(channel, bytes[1], bytes[2]))
    else if command == MIDI_CMD_CONTROL_CHANGE then Some(ControlChange(channel, bytes[1], bytes[2]))
    else Some(ProgramChange(channel, bytes[1]))
  }

  /** Reads a whole byte stream as a sequence of complete messages. */
  function Decode(bytes: seq<byte>): (r: Option<seq<Message>>)
    ensures r.Some? ==> AllWellFormed(r.value) && EncodeAll(r.value) == bytes
    decreases |bytes|
  {
    if |bytes| == 0 then Some([])
    else
      var n := MessageLength(bytes[0]);
      if n == 0 || |bytes| < n then None
      else
        match DecodeOne(bytes[..n])
        case None => None
        case Some(m) =>
          match Decode(bytes[n..])
          case None => None
          case Some(rest) =>
            assert ([m] + rest)[1..] == rest;
            assert bytes == bytes[..n] + bytes[n..];
            Some([m] + rest)
  }

  /** A stream holding exactly one complete message decodes as that message alone, or not at all. */
  lemma DecodeSingle(bytes: seq<byte>)
    requires |bytes| > 0 && |bytes| == MessageLength(bytes[0])
    ensures DecodeOne(bytes).None? ==> Decode(bytes) == None
    ensures DecodeOne(bytes).Some? ==> Decode(bytes) == Some([DecodeOne(bytes).value])
  {
    assert bytes[..|bytes|] == bytes;
    assert bytes[|bytes|..] == [];
    assert Decode([]) == Some([]);
    if DecodeOne(bytes).Some? {
      assert [DecodeOne(bytes).value] + [] == [DecodeOne(bytes).value];
    }
  }

  /**
   What a receiver reads from one encoded message: the message itself with its
   channel taken modulo 16, or nothing when a data byte has its top bit set.
   */
  lemma DecodeEncode(m: Message)
    ensures HasDataBytes(m) ==> Decode(Encode(m)) == Some([m.(channel := m.channel % 16)])
    ensures !HasDataBytes(m) ==> Decode(Encode(m)) == None
  {
    DecodeSingle(Encode(m));
  }

  /** Encoding a well-formed message opens it with a status byte announcing its length, and it reads back. */
  lemma EncodeDecodeOne(m: Message)
    requires WellFormed(m)
    ensures MessageLength(Encode(m)[0]) == |Encode(m)|
    ensures DecodeOne(Encode(m)) == Some(m)
  {
  }

  /** Round trip: well-formed messages put on the wire read back unchanged. */
  lemma {:induction false} DecodeEncodeAll(ms: seq<Message>)
    requires AllWellFormed(ms)
    ensures Decode(EncodeAll(ms)) == Some(ms)
    decreases |ms|
  {
    if |ms| > 0 {
      var e := Encode(ms[0]);
      var bytes := EncodeAll(ms);
      EncodeDecodeOne(ms[0]);
      assert bytes == e + EncodeAll(ms[1..]);
      assert bytes[..|e|] == e;
      assert bytes[|e|..] == EncodeAll(ms[1..]);
      assert AllWellFormed(ms[1..]) by {
        forall i | 0 <= i < |ms[1..]| ensures WellFormed(ms[1..][i]) {
          assert ms[1..][i] == ms[i + 1];
        }
      }
      DecodeEncodeAll(ms[1..]);
      assert [ms[0]] + ms[1..] == ms;
    }
  }

  /** `Decode` succeeds on exactly the streams that are encodings of well-formed messages. */
  lemma DecodeSpec(bytes: seq<byte>, ms: seq<Message>)
    ensures Decode(bytes) == Some(ms) <==> AllWellFormed(ms) && bytes == EncodeAll(ms)
  {
    if AllWellFormed(ms) && bytes == EncodeAll(ms) {
      DecodeEncodeAll(ms);
    }
  }
}
