/**
 The two serial transports of the driver, each abstracted as the byte log of
 everything written to it, and `sendCMD`, which hands one command to every
 transport that is configured (hardware serial, software serial, or both).
 */
module Transport {
  import opened Bytes

  /** What has been written so far to the hardware and the software serial port. */
  datatype Wire = Wire(hardware: seq<byte>, software: seq<byte>)

  function Concat(chunks: seq<seq<byte>>): (bytes: seq<byte>)
    decreases |chunks|
  {
    if |chunks| == 0 then [] else chunks[0] + Concat(chunks[1..])
  }

  /** `sendCMD`: every configured transport's log is extended by exactly `cmd`; the others are untouched. */
  function SendCmd(hwSerial: bool, swSerial: bool, w: Wire, cmd: seq<byte>): (w': Wire)
    ensures w.hardware <= w'.hardware && w.software <= w'.software
    ensures hwSerial ==> w'.hardware[|w.hardware|..] == cmd
    ensures swSerial ==> w'.software[|w.software|..] == cmd
    ensures !hwSerial ==> w'.hardware == w.hardware
    ensures !swSerial ==> w'.software == w.software
  {
    var hardware := if hwSerial then w.hardware + cmd else w.hardware;
    var software := if swSerial then w.software + cmd else w.software;
    Wire(hardware, software)
  }

  /** A run of `sendCMD` calls, one per command, in order. */
  function Deliver(hwSerial: bool, swSerial: bool, w: Wire, cmds: seq<seq<byte>>): (w': Wire)
    decreases |cmds|
  {
    if |cmds| == 0 then w
    else Deliver(hwSerial, swSerial, SendCmd(hwSerial, swSerial, w, cmds[0]), cmds[1..])
  }

  /** Two writes in a row put the same bytes on each transport as one write of both. */
  lemma SendCmdTwice(hwSerial: bool, swSerial: bool, w: Wire, a: seq<byte>, b: seq<byte>)
    ensures SendCmd(hwSerial, swSerial, SendCmd(hwSerial, swSerial, w, a), b)
         == SendCmd(hwSerial, swSerial, w, a + b)
  {
  }

  /** A transport is a byte stream: command boundaries leave no trace on it. */
  lemma {:induction false} DeliverIsSendOfConcat(hwSerial: bool, swSerial: bool, w: Wire, cmds: seq<seq<byte>>)
    ensures Deliver(hwSerial, swSerial, w, cmds) == SendCmd(hwSerial, swSerial, w, Concat(cmds))
    decreases |cmds|
  {
    if |cmds| > 0 {
      var w1 := SendCmd(hwSerial, swSerial, w, cmds[0]);
      DeliverIsSendOfConcat(hwSerial, swSerial, w1, cmds[1..]);
      SendCmdTwice(hwSerial, swSerial, w, cmds[0], Concat(cmds[1..]));
    }
  }

  /** With no transport configured, commands are dropped and no log changes. */
  lemma NoTransportDropsEverything(w: Wire, cmds: seq<seq<byte>>)
    ensures Deliver(false, false, w, cmds) == w
  {
    DeliverIsSendOfConcat(false, false, w, cmds);
  }

  lemma {:induction false} ConcatAppend(a: seq<seq<byte>>, b: seq<seq<byte>>)
    ensures Concat(a + b) == Concat(a) + Concat(b)
    decreases |a|
  {
    if |a| > 0 {
      assert (a + b)[1..] == a[1..] + b;
      ConcatAppend(a[1..], b);
    } else {
      assert a + b == b;
    }
  }

  lemma ConcatSingle(a: seq<byte>)
    ensures Concat([a]) == a
  {
  }

  lemma ConcatPair(a: seq<byte>, b: seq<byte>)
    ensures Concat([a, b]) == a + b
  {
    assert [a, b][1..] == [b];
    assert [b][1..] == [];
    assert Concat([b]) == b;
  }
}
