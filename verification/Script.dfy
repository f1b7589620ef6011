// The frames one bring-up puts on the bus, in order.

module BringUpScript {
  import opened Wrappers
  import opened PxxCan
  import opened Cia402Drive
  import opened BringUp
  import opened CommandHistory

  /** From o on, the frames of the script were handed over in order: all of them if `ok`, else some first ones. */
  predicate Attempted(o: seq<Frame>, o': seq<Frame>, script: seq<Frame>, ok: bool) {
    && |o| <= |o'| && o'[..|o|] == o
    && o'[|o|..] <= script
    && (ok ==> o'[|o|..] == script)
  }

  /** The same for the first k frames of the script. */
  predicate Partly(o: seq<Frame>, o': seq<Frame>, script: seq<Frame>, k: nat, ok: bool) {
    k <= |script| && Attempted(o, o', script[..k], ok)
  }

  lemma NothingYet(o: seq<Frame>, script: seq<Frame>)
    ensures Partly(o, o, script, 0, true)
  {
  }

  /** The next frame of the script, unless an earlier one has failed. */
  lemma OneFrameMore(o: seq<Frame>, o1: seq<Frame>, o2: seq<Frame>, script: seq<Frame>, k: nat, so: bool, ok: bool)
    requires k < |script| && Partly(o, o1, script, k, so) && (ok ==> so)
    requires o2 == if so then o1 + [script[k]] else o1
    ensures Partly(o, o2, script, k + 1, ok)
  {
    assert script[..k + 1] == script[..k] + [script[k]];
    if so { assert o2[|o|..] == o1[|o|..] + [script[k]]; }
  }

  lemma ToTheEnd(o: seq<Frame>, o': seq<Frame>, script: seq<Frame>, k: nat, ok: bool)
    requires Partly(o, o', script, k, ok) && (ok ==> k == |script|)
    ensures Attempted(o, o', script, ok)
  {
    assert script[..k] <= script;
  }

  /** One script after another. */
  lemma AttemptedThen(o: seq<Frame>, o1: seq<Frame>, o2: seq<Frame>, first: seq<Frame>, second: seq<Frame>, ok: bool)
    requires Attempted(o, o1, first, true) && Attempted(o1, o2, second, ok)
    ensures Attempted(o, o2, first + second, ok)
  {
    assert o2[|o|..] == o2[..|o1|][|o|..] + o2[|o1|..];
    assert o2[..|o|] == o2[..|o1|][..|o|];
  }

  lemma AttemptedLess(o: seq<Frame>, o': seq<Frame>, first: seq<Frame>, second: seq<Frame>)
    requires Attempted(o, o', first, false)
    ensures Attempted(o, o', first + second, false)
  {
  }

  lemma AttemptedGrows(o: seq<Frame>, o': seq<Frame>, script: seq<Frame>, ok: bool)
    requires Attempted(o, o', script, ok)
    ensures |o| <= |o'|
  {
  }

  /** NMT pre-operational, fault reset, mode of operation. */
  function PrepareScript(n: nat): seq<Frame>
    requires IsNode(n)
  {
    [NmtFrame(NMT_PRE_OPERATIONAL, n),
     SdoWriteFrame(n, CONTROL_WORD, 0, FAULT_RESET, 2),
     SdoWriteFrame(n, MODE_OF_OPERATION, 0, CYCLIC_SYNC_POSITION, 1)]
  }

  /** Disable, clear, map 607Ah, one entry, on every SYNC, enable. */
  function Rpdo1Script(n: nat): seq<Frame>
    requires IsNode(n)
  {
    [SdoWriteFrame(n, RPDO1_COMMUNICATION, 1, PDO_DISABLED + RPDO1 + n, 4),
     SdoWriteFrame(n, RPDO1_MAPPING, 0, 0, 1),
     SdoWriteFrame(n, RPDO1_MAPPING, 1, TARGET_ENTRY, 4),
     SdoWriteFrame(n, RPDO1_MAPPING, 0, 1, 1),
     SdoWriteFrame(n, RPDO1_COMMUNICATION, 2, SYNC_EVERY, 1),
     SdoWriteFrame(n, RPDO1_COMMUNICATION, 1, RPDO1 + n, 4)]
  }

  function Tpdo1Script(n: nat): seq<Frame>
    requires IsNode(n)
  {
    [SdoWriteFrame(n, TPDO1_COMMUNICATION, 1, PDO_DISABLED + TPDO1 + n, 4),
     SdoWriteFrame(n, TPDO1_MAPPING, 0, 0, 1),
     SdoWriteFrame(n, TPDO1_MAPPING, 1, POSITION_ENTRY, 4),
     SdoWriteFrame(n, TPDO1_MAPPING, 2, VELOCITY_ENTRY, 4),
     SdoWriteFrame(n, TPDO1_MAPPING, 0, 2, 1),
     SdoWriteFrame(n, TPDO1_COMMUNICATION, 2, SYNC_EVERY, 1),
     SdoWriteFrame(n, TPDO1_COMMUNICATION, 1, TPDO1 + n, 4)]
  }

  function Tpdo2Script(n: nat): seq<Frame>
    requires IsNode(n)
  {
    [SdoWriteFrame(n, TPDO2_COMMUNICATION, 1, PDO_DISABLED + TPDO2 + n, 4),
     SdoWriteFrame(n, TPDO2_MAPPING, 0, 0, 1),
     SdoWriteFrame(n, TPDO2_MAPPING, 1, STATUS_ENTRY, 4),
     SdoWriteFrame(n, TPDO2_MAPPING, 0, 1, 1),
     SdoWriteFrame(n, TPDO2_COMMUNICATION, 2, SYNC_EVERY, 1),
     SdoWriteFrame(n, TPDO2_COMMUNICATION, 1, TPDO2 + n, 4)]
  }

  /** The position asked for and written back as the target. */
  function SeedScript(n: nat, position: Word32): seq<Frame>
    requires IsNode(n)
  {
    [SdoReadFrame(n, POSITION_ACTUAL, 0), SdoWriteFrame(n, TARGET_POSITION, 0, position, 4)]
  }

  function EnableScript(n: nat): seq<Frame>
    requires IsNode(n)
  {
    [NmtFrame(NMT_START, n),
     SdoWriteFrame(n, CONTROL_WORD, 0, SHUTDOWN, 2),
     SdoWriteFrame(n, CONTROL_WORD, 0, SWITCH_ON, 2),
     SdoWriteFrame(n, CONTROL_WORD, 0, ENABLE_OPERATION, 2)]
  }

  /** Write k of a remapping: a plain object write that is frame k of the script and takes core c to core `next`. */
  predicate Line(n: nat, index: Word16, subindex: Byte, value: Word32, size: SdoSize, c: Core, next: Core, can: bool,
                 script: seq<Frame>, k: nat)
  {
    && index != CONTROL_WORD && value < Pow256(size) && c.nmt != Stopped
    && Step2(WriteObject(c, index, subindex, value, size), next, can)
    && k < |script| && script[k] == SdoWriteFrame(n, index, subindex, value, size)
  }

  lemma Rpdo1Lines(c: Core)
    requires IsNode(c.node) && c.nmt != Stopped
    ensures var n, s := c.node, Rpdo1Script(c.node);
            var can := c.nmt == PreOperational && Free(c.rpdo1, RPDO1 + n);
            && |s| == 6 && RpdoStage(c, 0) == c && RpdoStage(c, 6).nmt == c.nmt
            && Line(n, RPDO1_COMMUNICATION, 1, PDO_DISABLED + RPDO1 + n, 4, RpdoStage(c, 0), RpdoStage(c, 1), can, s, 0)
            && Line(n, RPDO1_MAPPING, 0, 0, 1, RpdoStage(c, 1), RpdoStage(c, 2), can, s, 1)
            && Line(n, RPDO1_MAPPING, 1, TARGET_ENTRY, 4, RpdoStage(c, 2), RpdoStage(c, 3), can, s, 2)
            && Line(n, RPDO1_MAPPING, 0, 1, 1, RpdoStage(c, 3), RpdoStage(c, 4), can, s, 3)
            && Line(n, RPDO1_COMMUNICATION, 2, SYNC_EVERY, 1, RpdoStage(c, 4), RpdoStage(c, 5), can, s, 4)
            && Line(n, RPDO1_COMMUNICATION, 1, RPDO1 + n, 4, RpdoStage(c, 5), RpdoStage(c, 6), can, s, 5)
            && (WriteObject(RpdoStage(c, 1), RPDO1_MAPPING, 0, 0, 1).Some? ==> c.nmt == PreOperational)
  {
    hide WriteObject, RpdoStage, SdoWriteFrame, Pow256, Free, Step2, MapEntry, Mappable, RpdoConfigured;
    RpdoSteps(c);
    StageKeepsNmt(c);
    RpdoStageStarts(c);
    Pow256Values();
    Entries();
  }

  lemma Tpdo1Lines(c: Core)
    requires IsNode(c.node) && c.nmt != Stopped
    ensures var n, s := c.node, Tpdo1Script(c.node);
            var can := c.nmt == PreOperational && Free(c.tpdo1, TPDO1 + n);
            && |s| == 7 && Tpdo1Stage(c, 0) == c && Tpdo1Stage(c, 7).nmt == c.nmt
            && Line(n, TPDO1_COMMUNICATION, 1, PDO_DISABLED + TPDO1 + n, 4, Tpdo1Stage(c, 0), Tpdo1Stage(c, 1), can, s,
                    0)
            && Line(n, TPDO1_MAPPING, 0, 0, 1, Tpdo1Stage(c, 1), Tpdo1Stage(c, 2), can, s, 1)
            && Line(n, TPDO1_MAPPING, 1, POSITION_ENTRY, 4, Tpdo1Stage(c, 2), Tpdo1Stage(c, 3), can, s, 2)
            && Line(n, TPDO1_MAPPING, 2, VELOCITY_ENTRY, 4, Tpdo1Stage(c, 3), Tpdo1Stage(c, 4), can, s, 3)
            && Line(n, TPDO1_MAPPING, 0, 2, 1, Tpdo1Stage(c, 4), Tpdo1Stage(c, 5), can, s, 4)
            && Line(n, TPDO1_COMMUNICATION, 2, SYNC_EVERY, 1, Tpdo1Stage(c, 5), Tpdo1Stage(c, 6), can, s, 5)
            && Line(n, TPDO1_COMMUNICATION, 1, TPDO1 + n, 4, Tpdo1Stage(c, 6), Tpdo1Stage(c, 7), can, s, 6)
            && (WriteObject(Tpdo1Stage(c, 1), TPDO1_MAPPING, 0, 0, 1).Some? ==> c.nmt == PreOperational)
  {
    hide WriteObject, Tpdo1Stage, SdoWriteFrame, Pow256, Free, Step2, MapEntry, Mappable, Tpdo1Configured;
    Tpdo1Steps(c);
    StageKeepsNmt(c);
    Tpdo1StageStarts(c);
    Pow256Values();
    Entries();
  }

  lemma Tpdo2Lines(c: Core)
    requires IsNode(c.node) && c.nmt != Stopped
    ensures var n, s := c.node, Tpdo2Script(c.node);
            var can := c.nmt == PreOperational && Free(c.tpdo2, TPDO2 + n);
            && |s| == 6 && Tpdo2Stage(c, 0) == c && Tpdo2Stage(c, 6).nmt == c.nmt
            && Line(n, TPDO2_COMMUNICATION, 1, PDO_DISABLED + TPDO2 + n, 4, Tpdo2Stage(c, 0), Tpdo2Stage(c, 1), can, s,
                    0)
            && Line(n, TPDO2_MAPPING, 0, 0, 1, Tpdo2Stage(c, 1), Tpdo2Stage(c, 2), can, s, 1)
            && Line(n, TPDO2_MAPPING, 1, STATUS_ENTRY, 4, Tpdo2Stage(c, 2), Tpdo2Stage(c, 3), can, s, 2)
            && Line(n, TPDO2_MAPPING, 0, 1, 1, Tpdo2Stage(c, 3), Tpdo2Stage(c, 4), can, s, 3)
            && Line(n, TPDO2_COMMUNICATION, 2, SYNC_EVERY, 1, Tpdo2Stage(c, 4), Tpdo2Stage(c, 5), can, s, 4)
            && Line(n, TPDO2_COMMUNICATION, 1, TPDO2 + n, 4, Tpdo2Stage(c, 5), Tpdo2Stage(c, 6), can, s, 5)
            && (WriteObject(Tpdo2Stage(c, 1), TPDO2_MAPPING, 0, 0, 1).Some? ==> c.nmt == PreOperational)
  {
    hide WriteObject, Tpdo2Stage, SdoWriteFrame, Pow256, Free, Step2, MapEntry, Mappable, Tpdo2Configured;
    Tpdo2Steps(c);
    StageKeepsNmt(c);
    Tpdo2StageStarts(c);
    Pow256Values();
    Entries();
  }

  function RemapScript(n: nat): seq<Frame>
    requires IsNode(n)
  {
    PrepareScript(n) + MapScript(n)
  }

  function MapScript(n: nat): seq<Frame>
    requires IsNode(n)
  {
    Rpdo1Script(n) + (Tpdo1Script(n) + Tpdo2Script(n))
  }

  /**
   Everything configure_node hands to the socket; `checked` says the status word was read but did not look enabled.
   */
  function NodeScript(n: nat, position: Word32, checked: bool): seq<Frame>
    requires IsNode(n)
  {
    RemapScript(n) + RestScript(n, position, checked)
  }

  function RestScript(n: nat, position: Word32, checked: bool): seq<Frame>
    requires IsNode(n)
  {
    SeedScript(n, position) + (EnableScript(n) + StatusScript(n, checked))
  }

  function StatusScript(n: nat, checked: bool): seq<Frame>
    requires IsNode(n)
  {
    [SdoReadFrame(n, STATUS_WORD, 0)] + if checked then [SdoReadFrame(n, ERROR_CODE, 0)] else []
  }

  /** All drives brought up, each at its seed. */
  function ActivationScript(joints: seq<Joint>): seq<Frame>
    requires forall i :: 0 <= i < |joints| ==> IsNode(joints[i].node)
  {
    if joints == [] then []
    else
      var last := joints[|joints| - 1];
      ActivationScript(joints[..|joints| - 1]) + NodeScript(last.node, ToU32(last.seed), false)
  }

  lemma OneDriveMore(o: seq<Frame>, o1: seq<Frame>, o2: seq<Frame>, joints: seq<Joint>, j: Joint, position: Word32)
    requires IsNode(j.node) && forall i :: 0 <= i < |joints| ==> IsNode(joints[i].node)
    requires j.seed == ToI32(position)
    requires Attempted(o, o1, ActivationScript(joints), true)
    requires Attempted(o1, o2, NodeScript(j.node, position, false), true)
    ensures Attempted(o, o2, ActivationScript(joints + [j]), true)
  {
    hide Attempted, NodeScript;
    WordStays(position);
    assert (joints + [j])[..|joints + [j]| - 1] == joints;
    AttemptedThen(o, o1, o2, ActivationScript(joints), NodeScript(j.node, position, false), true);
  }

  lemma WordStays(x: Word32)
    ensures IsInt32(ToI32(x)) && ToU32(ToI32(x)) == x
  {
  }

  // The same frames, byte by byte -------------------------------------------------------------------------------

  /** An SDO request to node n. */
  function SdoBytes(n: nat, data: seq<Byte>): Frame
    requires |data| == 8
  {
    Frame(0x600 + n, false, 8, data)
  }

  /** An expedited download of one, two or four bytes. */
  lemma WriteIs(n: nat, index: Word16, subindex: Byte, value: Word32, size: SdoSize, data: seq<Byte>)
    requires |data| == 8 && data[0] == 0x23 + 4 * (4 - size) && data[3] == subindex
    requires data[1] == index % 256 && data[2] == index / 256
    requires data[4] == ByteOf(value, 0) && data[5] == (if size > 1 then ByteOf(value, 1) else 0)
    requires data[6] == if size > 2 then ByteOf(value, 2) else 0
    requires data[7] == if size > 3 then ByteOf(value, 3) else 0
    ensures SdoWriteFrame(n, index, subindex, value, size) == SdoBytes(n, data)
  {
    hide Le, ByteOf;
    TailIs(value, size, data[4..]);
    TwoBytes(index);
    assert SdoHeader(index, subindex, data[0]) == data[..4];
    assert data == data[..4] + data[4..];
    assert SdoHeader(index, subindex, data[0]) + Le(value, size) + ZEROS[..4 - size] ==
           SdoHeader(index, subindex, data[0]) + (Le(value, size) + ZEROS[..4 - size]);
  }

  lemma TailIs(value: Word32, size: SdoSize, tail: seq<Byte>)
    requires |tail| == 4 && tail[0] == ByteOf(value, 0) && tail[1] == (if size > 1 then ByteOf(value, 1) else 0)
    requires tail[2] == if size > 2 then ByteOf(value, 2) else 0
    requires tail[3] == if size > 3 then ByteOf(value, 3) else 0
    ensures Le(value, size) + ZEROS[..4 - size] == tail
  {
    forall i | 0 <= i < size ensures Le(value, size)[i] == tail[i] {
      LeAt(value, size, i);
      Pow256Values();
      Pow256Zero();
    }
    hide Le, ByteOf;
    forall i | size <= i < 4 ensures (Le(value, size) + ZEROS[..4 - size])[i] == tail[i] {}
  }

  lemma Pow256Zero()
    ensures Pow256(0) == 1
  {
  }

  /** Byte i of a 32-bit word. */
  function ByteOf(value: Word32, i: nat): Byte
    requires i < 4
  {
    value / (if i == 0 then 0x1 else if i == 1 then 0x100 else if i == 2 then 0x1_0000 else 0x100_0000) % 256
  }

  /** The COB-ID of a PDO, with and without the disabled bit. */
  lemma CobIdIs(n: nat, index: Word16, code: nat)
    requires IsNode(n) && code in {0x180, 0x200, 0x280}
    ensures SdoWriteFrame(n, index, 1, 0x8000_0000 + code + n, 4) ==
            SdoBytes(n, [0x23, index % 256, index / 256, 0x01, code % 256 + n, code / 256, 0x00, 0x80])
    ensures SdoWriteFrame(n, index, 1, code + n, 4) ==
            SdoBytes(n, [0x23, index % 256, index / 256, 0x01, code % 256 + n, code / 256, 0x00, 0x00])
  {
    hide SdoWriteFrame;
    WriteIs(n, index, 1, 0x8000_0000 + code + n, 4,
            [0x23, index % 256, index / 256, 0x01, code % 256 + n, code / 256, 0x00, 0x80]);
    WriteIs(n, index, 1, code + n, 4,
            [0x23, index % 256, index / 256, 0x01, code % 256 + n, code / 256, 0x00, 0x00]);
  }

  lemma ByteIs(n: nat, index: Word16, subindex: Byte, value: Byte)
    ensures SdoWriteFrame(n, index, subindex, value, 1) ==
            SdoBytes(n, [0x2f, index % 256, index / 256, subindex, value, 0x00, 0x00, 0x00])
  {
    hide SdoWriteFrame;
    WriteIs(n, index, subindex, value, 1, [0x2f, index % 256, index / 256, subindex, value, 0x00, 0x00, 0x00]);
  }

  /** A mapping entry: length in bits, subindex 0, object. */
  lemma EntryIs(n: nat, index: Word16, subindex: Byte, mapped: Word16, bits: Byte)
    ensures SdoWriteFrame(n, index, subindex, mapped * 0x1_0000 + bits, 4) ==
            SdoBytes(n, [0x23, index % 256, index / 256, subindex, bits, 0x00, mapped % 256, mapped / 256])
  {
    hide SdoWriteFrame;
    var value := mapped * 0x1_0000 + bits;
    assert value / 0x100 == mapped * 0x100 && value / 0x1_0000 == mapped;
    assert value / 0x100_0000 == mapped / 0x100;
    WriteIs(n, index, subindex, value, 4,
            [0x23, index % 256, index / 256, subindex, bits, 0x00, mapped % 256, mapped / 256]);
  }

  lemma ReadIs(n: nat, index: Word16, data: seq<Byte>)
    requires |data| == 8 && data[0] == 0x40 && data[1] == index % 256 && data[2] == index / 256
    requires forall i :: 3 <= i < 8 ==> data[i] == 0
    ensures SdoReadFrame(n, index, 0) == SdoBytes(n, data)
  {
    hide Le;
    TwoBytes(index);
  }

  lemma PrepareBytes(n: nat)
    requires IsNode(n)
    ensures PrepareScript(n) ==
            [Frame(0x000, false, 2, [0x80, n, 0x00, 0x00, 0x00, 0x00, 0x00, 0x00]),
             SdoBytes(n, [0x2b, 0x40, 0x60, 0x00, 0x80, 0x00, 0x00, 0x00]),
             SdoBytes(n, [0x2f, 0x60, 0x60, 0x00, 0x08, 0x00, 0x00, 0x00])]
  {
    hide SdoWriteFrame;
    WriteIs(n, 0x6040, 0, 0x0080, 2, [0x2b, 0x40, 0x60, 0x00, 0x80, 0x00, 0x00, 0x00]);
    ByteIs(n, 0x6060, 0, 8);
  }

  lemma Rpdo1Bytes(n: nat)
    requires IsNode(n)
    ensures Rpdo1Script(n) ==
            [SdoBytes(n, [0x23, 0x00, 0x14, 0x01, n, 0x02, 0x00, 0x80]),
             SdoBytes(n, [0x2f, 0x00, 0x16, 0x00, 0x00, 0x00, 0x00, 0x00]),
             SdoBytes(n, [0x23, 0x00, 0x16, 0x01, 0x20, 0x00, 0x7a, 0x60]),
             SdoBytes(n, [0x2f, 0x00, 0x16, 0x00, 0x01, 0x00, 0x00, 0x00]),
             SdoBytes(n, [0x2f, 0x00, 0x14, 0x02, 0x01, 0x00, 0x00, 0x00]),
             SdoBytes(n, [0x23, 0x00, 0x14, 0x01, n, 0x02, 0x00, 0x00])]
  {
    hide SdoWriteFrame;
    CobIdIs(n, 0x1400, 0x200);
    ByteIs(n, 0x1600, 0, 0);
    EntryIs(n, 0x1600, 1, 0x607a, 0x20);
    ByteIs(n, 0x1600, 0, 1);
    ByteIs(n, 0x1400, 2, 1);
  }

  lemma Tpdo1Bytes(n: nat)
    requires IsNode(n)
    ensures Tpdo1Script(n) ==
            [SdoBytes(n, [0x23, 0x00, 0x18, 0x01, 0x80 + n, 0x01, 0x00, 0x80]),
             SdoBytes(n, [0x2f, 0x00, 0x1a, 0x00, 0x00, 0x00, 0x00, 0x00]),
             SdoBytes(n, [0x23, 0x00, 0x1a, 0x01, 0x20, 0x00, 0x64, 0x60]),
             SdoBytes(n, [0x23, 0x00, 0x1a, 0x02, 0x20, 0x00, 0x6c, 0x60]),
             SdoBytes(n, [0x2f, 0x00, 0x1a, 0x00, 0x02, 0x00, 0x00, 0x00]),
             SdoBytes(n, [0x2f, 0x00, 0x18, 0x02, 0x01, 0x00, 0x00, 0x00]),
             SdoBytes(n, [0x23, 0x00, 0x18, 0x01, 0x80 + n, 0x01, 0x00, 0x00])]
  {
    hide SdoWriteFrame;
    CobIdIs(n, 0x1800, 0x180);
    ByteIs(n, 0x1a00, 0, 0);
    EntryIs(n, 0x1a00, 1, 0x6064, 0x20);
    EntryIs(n, 0x1a00, 2, 0x606c, 0x20);
    ByteIs(n, 0x1a00, 0, 2);
    ByteIs(n, 0x1800, 2, 1);
  }

  lemma Tpdo2Bytes(n: nat)
    requires IsNode(n)
    ensures Tpdo2Script(n) ==
            [SdoBytes(n, [0x23, 0x01, 0x18, 0x01, 0x80 + n, 0x02, 0x00, 0x80]),
             SdoBytes(n, [0x2f, 0x01, 0x1a, 0x00, 0x00, 0x00, 0x00, 0x00]),
             SdoBytes(n, [0x23, 0x01, 0x1a, 0x01, 0x10, 0x00, 0x41, 0x60]),
             SdoBytes(n, [0x2f, 0x01, 0x1a, 0x00, 0x01, 0x00, 0x00, 0x00]),
             SdoBytes(n, [0x2f, 0x01, 0x18, 0x02, 0x01, 0x00, 0x00, 0x00]),
             SdoBytes(n, [0x23, 0x01, 0x18, 0x01, 0x80 + n, 0x02, 0x00, 0x00])]
  {
    hide SdoWriteFrame;
    CobIdIs(n, 0x1801, 0x280);
    ByteIs(n, 0x1a01, 0, 0);
    EntryIs(n, 0x1a01, 1, 0x6041, 0x10);
    ByteIs(n, 0x1a01, 0, 1);
    ByteIs(n, 0x1801, 2, 1);
  }

  lemma EnableBytes(n: nat)
    requires IsNode(n)
    ensures EnableScript(n) ==
            [Frame(0x000, false, 2, [0x01, n, 0x00, 0x00, 0x00, 0x00, 0x00, 0x00]),
             SdoBytes(n, [0x2b, 0x40, 0x60, 0x00, 0x06, 0x00, 0x00, 0x00]),
             SdoBytes(n, [0x2b, 0x40, 0x60, 0x00, 0x07, 0x00, 0x00, 0x00]),
             SdoBytes(n, [0x2b, 0x40, 0x60, 0x00, 0x0f, 0x00, 0x00, 0x00])]
  {
    hide SdoWriteFrame;
    WriteIs(n, 0x6040, 0, 6, 2, [0x2b, 0x40, 0x60, 0x00, 0x06, 0x00, 0x00, 0x00]);
    WriteIs(n, 0x6040, 0, 7, 2, [0x2b, 0x40, 0x60, 0x00, 0x07, 0x00, 0x00, 0x00]);
    WriteIs(n, 0x6040, 0, 15, 2, [0x2b, 0x40, 0x60, 0x00, 0x0f, 0x00, 0x00, 0x00]);
  }

  lemma SeedAndStatusBytes(n: nat, position: Word32)
    requires IsNode(n)
    ensures SeedScript(n, position) ==
            [SdoBytes(n, [0x40, 0x64, 0x60, 0x00, 0x00, 0x00, 0x00, 0x00]),
             SdoBytes(n, [0x23, 0x7a, 0x60, 0x00, ByteOf(position, 0), ByteOf(position, 1), ByteOf(position, 2),
                          ByteOf(position, 3)])]
    ensures StatusScript(n, false) == [SdoBytes(n, [0x40, 0x41, 0x60, 0x00, 0x00, 0x00, 0x00, 0x00])]
    ensures StatusScript(n, true) ==
            [SdoBytes(n, [0x40, 0x41, 0x60, 0x00, 0x00, 0x00, 0x00, 0x00]),
             SdoBytes(n, [0x40, 0x3f, 0x60, 0x00, 0x00, 0x00, 0x00, 0x00])]
  {
    hide SdoWriteFrame, SdoReadFrame, ByteOf;
    ReadIs(n, 0x6064, [0x40, 0x64, 0x60, 0x00, 0x00, 0x00, 0x00, 0x00]);
    WriteIs(n, 0x607a, 0, position, 4, [0x23, 0x7a, 0x60, 0x00, ByteOf(position, 0), ByteOf(position, 1),
                                        ByteOf(position, 2), ByteOf(position, 3)]);
    ReadIs(n, 0x6041, [0x40, 0x41, 0x60, 0x00, 0x00, 0x00, 0x00, 0x00]);
    ReadIs(n, 0x603f, [0x40, 0x3f, 0x60, 0x00, 0x00, 0x00, 0x00, 0x00]);
  }
}
