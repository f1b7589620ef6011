// CANopen frames as the arm driver builds and parses them.

module Wrappers {
  datatype Option<+T> = None | Some(value: T)
}

/** Byte layout of the frames: the driver's builders and parsers, and the decoder a CiA 301 drive applies. */
module PxxCan {
  import opened Wrappers

  type Byte = x: int | 0 <= x < 256
  type Word16 = x: int | 0 <= x < 0x1_0000
  type Word32 = x: int | 0 <= x < 0x1_0000_0000
  type SdoSize = x: int | 1 <= x <= 4 witness 1

  datatype FrameData = Frame(id: nat, extended: bool, length: nat, data: seq<Byte>)

  /** The payload buffer always has eight bytes; `length` says how many of them are sent. */
  type Frame = f: FrameData | |f.data| == 8 witness Frame(0, false, 0, [0, 0, 0, 0, 0, 0, 0, 0])

  const NMT := 0x000
  const SYNC := 0x080
  const EMCY := 0x080
  const TPDO1 := 0x180
  const RPDO1 := 0x200
  const TPDO2 := 0x280
  const TSDO := 0x580
  const RSDO := 0x600
  const HEARTBEAT := 0x700

  const NMT_START := 0x01
  const NMT_PRE_OPERATIONAL := 0x80

  const PDO_DISABLED := 0x8000_0000
  const SYNC_EVERY := 1

  const RPDO1_COMMUNICATION := 0x1400
  const RPDO1_MAPPING := 0x1600
  const TPDO1_COMMUNICATION := 0x1800
  const TPDO2_COMMUNICATION := 0x1801
  const TPDO1_MAPPING := 0x1A00
  const TPDO2_MAPPING := 0x1A01
  const ERROR_CODE := 0x603F
  const CONTROL_WORD := 0x6040
  const STATUS_WORD := 0x6041
  const MODE_OF_OPERATION := 0x6060
  const POSITION_ACTUAL := 0x6064
  const VELOCITY_ACTUAL := 0x606C
  const TARGET_POSITION := 0x607A

  const SHUTDOWN := 0x0006
  const SWITCH_ON := 0x0007
  const ENABLE_OPERATION := 0x000F
  const FAULT_RESET := 0x0080

  const CYCLIC_SYNC_POSITION := 8

  const SDO_UPLOAD := 0x40
  const SDO_DOWNLOAD_RESPONSE := 0x60
  const SDO_ABORT := 0x80

  const TWO_32 := 0x1_0000_0000

  predicate IsNode(node: nat) {
    1 <= node <= 127
  }

  predicate IsInt32(x: int) {
    -0x8000_0000 <= x < 0x8000_0000
  }

  /** The cast from int32 to uint32. */
  function ToU32(x: int): Word32 {
    x % TWO_32
  }

  /** The cast from uint32 to int32. */
  function ToI32(u: Word32): (x: int)
    ensures IsInt32(x)
  {
    if u < 0x8000_0000 then u else u - TWO_32
  }

  lemma SignedRoundTrip(x: int)
    requires IsInt32(x)
    ensures ToI32(ToU32(x)) == x
  {
    if x < 0 {
      assert x % TWO_32 == x + TWO_32;
    }
  }

  // Little-endian integers -----------------------------------------------------------------------------------

  function Pow256(n: nat): (p: nat)
    ensures p > 0
  {
    if n == 0 then 1 else 256 * Pow256(n - 1)
  }

  function Le(value: nat, bytes: nat): (s: seq<Byte>)
    ensures |s| == bytes
  {
    if bytes == 0 then [] else [value % 256] + Le(value / 256, bytes - 1)
  }

  function LeValue(s: seq<Byte>): nat {
    if s == [] then 0 else s[0] + 256 * LeValue(s[1..])
  }

  lemma DivisionIsUnique(a: nat, d: nat, q: nat, r: nat)
    requires d > 0 && a == d * q + r && r < d
    ensures a / d == q && a % d == r
  {
    var k := a / d - q;
    assert d * k == r - a % d by {
      assert a == d * (a / d) + a % d;
    }
    assert 0 - d < d * k < d;
    NoMultipleBetween(d, k);
  }

  lemma NoMultipleBetween(d: nat, k: int)
    requires 0 - d < d * k < d
    ensures k == 0
  {
    assert k >= 1 ==> d * k >= d;
    assert k <= -1 ==> d * k <= 0 - d;
  }

  /** Dividing by 256 and then by 256^n is dividing by 256^(n+1). */
  lemma DivideStep(value: nat, n: nat)
    ensures value / 256 / Pow256(n) == value / Pow256(n + 1)
    ensures value % Pow256(n + 1) == 256 * (value / 256 % Pow256(n)) + value % 256
  {
    var p, q := Pow256(n), value / 256;
    var a, b := q / p, q % p;
    assert q == p * a + b;
    assert 256 * (p * a) == (256 * p) * a;
    assert value == 256 * (p * a) + 256 * b + value % 256;
    DivisionIsUnique(value, 256 * p, a, 256 * b + value % 256);
  }

  /** Byte i of the little-endian form is what the shift-and-cast of PutLe writes. */
  lemma {:induction false} LeAt(value: nat, bytes: nat, i: nat)
    requires i < bytes
    ensures Le(value, bytes)[i] == value / Pow256(i) % 256
  {
    if i > 0 {
      LeAt(value / 256, bytes - 1, i - 1);
      DivideStep(value, i - 1);
    }
  }

  /** Writing `bytes` bytes and reading them back keeps the value modulo 256^bytes. */
  lemma {:induction false} LeRoundTrip(value: nat, bytes: nat)
    ensures LeValue(Le(value, bytes)) == value % Pow256(bytes)
  {
    if bytes > 0 {
      LeRoundTrip(value / 256, bytes - 1);
      DivideStep(value, bytes - 1);
      assert Le(value, bytes)[1..] == Le(value / 256, bytes - 1);
    }
  }

  lemma Pow256Values()
    ensures Pow256(1) == 0x100 && Pow256(2) == 0x1_0000 && Pow256(3) == 0x100_0000 && Pow256(4) == TWO_32
  {
    assert Pow256(2) == 256 * Pow256(1);
    assert Pow256(3) == 256 * Pow256(2);
    assert Pow256(4) == 256 * Pow256(3);
  }

  lemma {:induction false} LeValueInverse(s: seq<Byte>)
    ensures LeValue(s) < Pow256(|s|)
    ensures Le(LeValue(s), |s|) == s
  {
    if s != [] {
      LeValueInverse(s[1..]);
      var v := LeValue(s);
      assert v % 256 == s[0] && v / 256 == LeValue(s[1..]);
    }
  }

  lemma {:induction false} LeValueSnoc(s: seq<Byte>, b: Byte)
    ensures LeValue(s + [b]) == LeValue(s) + b * Pow256(|s|)
  {
    if s == [] {
      assert s + [b] == [b];
      assert LeValue([b]) == b + 256 * LeValue([b][1..]);
    } else {
      LeValueSnoc(s[1..], b);
      assert (s + [b])[1..] == s[1..] + [b];
      assert 256 * (b * Pow256(|s| - 1)) == b * Pow256(|s|);
    }
  }

  function HalfWordOf(s: seq<Byte>): (v: Word16)
    requires |s| == 2
    ensures v == LeValue(s)
  {
    LeValueInverse(s);
    Pow256Values();
    LeValue(s)
  }

  function WordOf(s: seq<Byte>): (v: Word32)
    requires 1 <= |s| <= 4
    ensures v == LeValue(s) < Pow256(|s|)
  {
    LeValueInverse(s);
    Pow256Values();
    LeValue(s)
  }

  method PutLe(data: array<Byte>, offset: nat, value: nat, bytes: nat)
    requires offset + bytes <= data.Length
    modifies data
    ensures data[offset..offset + bytes] == Le(value, bytes)
    ensures forall j :: 0 <= j < data.Length && !(offset <= j < offset + bytes) ==> data[j] == old(data[j])
  {
    var i := 0;
    while i < bytes
      invariant 0 <= i <= bytes
      invariant forall j :: 0 <= j < i ==> data[offset + j] == Le(value, bytes)[j]
      invariant forall j :: 0 <= j < data.Length && !(offset <= j < offset + i) ==> data[j] == old(data[j])
    {
      LeAt(value, bytes, i);
      data[offset + i] := value / Pow256(i) % 256;
      i := i + 1;
    }
  }

  method GetLe(data: seq<Byte>, offset: nat, bytes: nat) returns (value: nat)
    requires offset + bytes <= |data|
    ensures value == LeValue(data[offset..offset + bytes])
  {
    value := 0;
    var i := 0;
    while i < bytes
      invariant 0 <= i <= bytes
      invariant value == LeValue(data[offset..offset + i])
    {
      LeValueSnoc(data[offset..offset + i], data[offset + i]);
      assert data[offset..offset + i] + [data[offset + i]] == data[offset..offset + i + 1];
      value := value + data[offset + i] * Pow256(i);
      i := i + 1;
    }
  }

  // Frames the host builds -----------------------------------------------------------------------------------

  const ZEROS: seq<Byte> := [0, 0, 0, 0, 0, 0, 0, 0]

  function NmtFrame(command: Byte, node: Byte): Frame {
    Frame(NMT, false, 2, [command, node, 0, 0, 0, 0, 0, 0])
  }

  function SyncFrame(): Frame {
    Frame(SYNC, false, 0, ZEROS)
  }

  function SdoHeader(index: Word16, subindex: Byte, command: Byte): (s: seq<Byte>)
    ensures |s| == 4
  {
    [command] + Le(index, 2) + [subindex]
  }

  function SdoWriteFrame(node: nat, index: Word16, subindex: Byte, value: Word32, size: SdoSize): Frame
  {
    Frame(RSDO + node, false, 8,
          SdoHeader(index, subindex, 0x23 + 4 * (4 - size)) + Le(value, size) + ZEROS[..4 - size])
  }

  function SdoReadFrame(node: nat, index: Word16, subindex: Byte): Frame {
    Frame(RSDO + node, false, 8, SdoHeader(index, subindex, SDO_UPLOAD) + ZEROS[..4])
  }

  function TargetPositionFrame(node: nat, counts: int): Frame {
    Frame(RPDO1 + node, false, 4, Le(ToU32(counts), 4) + ZEROS[..4])
  }

  method MakeNmtFrame(command: Byte, node: Byte) returns (f: Frame)
    ensures f == NmtFrame(command, node)
  {
    var data := new Byte[8](_ => 0);
    data[0] := command;
    data[1] := node;
    f := Frame(NMT, false, 2, data[..]);
  }

  method MakeSyncFrame() returns (f: Frame)
    ensures f == SyncFrame()
  {
    var data := new Byte[8](_ => 0);
    f := Frame(SYNC, false, 0, data[..]);
  }

  method MakeSdoWriteFrame(node: nat, index: Word16, subindex: Byte, value: Word32, size: SdoSize) returns (f: Frame)
    ensures f == SdoWriteFrame(node, index, subindex, value, size)
  {
    var data := new Byte[8](_ => 0);
    data[0] := 0x23 + 4 * (4 - size);
    PutLe(data, 1, index, 2);
    data[3] := subindex;
    PutLe(data, 4, value, size);
    assert data[1..3] == Le(index, 2);
    assert data[4 + size..] == ZEROS[..4 - size];
    assert data[..] == [data[0]] + data[1..3] + [data[3]] + data[4..4 + size] + data[4 + size..];
    f := Frame(RSDO + node, false, 8, data[..]);
  }

  method MakeSdoReadFrame(node: nat, index: Word16, subindex: Byte) returns (f: Frame)
    ensures f == SdoReadFrame(node, index, subindex)
  {
    var data := new Byte[8](_ => 0);
    data[0] := SDO_UPLOAD;
    PutLe(data, 1, index, 2);
    data[3] := subindex;
    assert data[1..3] == Le(index, 2);
    assert data[4..] == ZEROS[..4];
    assert data[..] == [data[0]] + data[1..3] + [data[3]] + data[4..];
    f := Frame(RSDO + node, false, 8, data[..]);
  }

  method MakeTargetPositionFrame(node: nat, counts: int) returns (f: Frame)
    ensures f == TargetPositionFrame(node, counts)
  {
    var data := new Byte[8](_ => 0);
    PutLe(data, 0, ToU32(counts), 4);
    assert data[4..] == ZEROS[..4];
    assert data[..] == data[0..4] + data[4..];
    f := Frame(RPDO1 + node, false, 4, data[..]);
  }

  // What a drive understands (CiA 301 v4.2.0, sections 7.2.4, 7.2.2 and 7.3.3) -------------------------------

  datatype HostMessage =
    | Nmt(command: Byte)
    | SdoWrite(index: Word16, subindex: Byte, value: Word32, size: SdoSize)
    | SdoRead(index: Word16, subindex: Byte)
    | Rpdo1(payload: seq<Byte>)
    | Sync

  /** How the drive with this node id reads a frame; None when the frame is not for it. */
  function Decode(node: nat, f: Frame): Option<HostMessage> {
    if f.extended || f.length > 8 then None
    else if f.id == NMT then
      if f.length == 2 && (f.data[1] == node || f.data[1] == 0) then Some(Nmt(f.data[0])) else None
    else if f.id == SYNC then Some(Sync)
    else if f.id == RPDO1 + node then Some(Rpdo1(f.data[..f.length]))
    else if f.id == RSDO + node && f.length == 8 then
      var command := f.data[0];
      var index := HalfWordOf(f.data[1..3]);
      if command / 32 == 1 && command % 4 == 3 then  // expedited download, size indicated
        var size := 4 - command / 4 % 4;
        Some(SdoWrite(index, f.data[3], WordOf(f.data[4..4 + size]), size))
      else if command / 32 == 2 then
        Some(SdoRead(index, f.data[3]))
      else None
    else None
  }

  /** An expedited-download decoder recovers node, object, size and value; no other drive reacts. */
  lemma SdoWriteDecodes(node: nat, index: Word16, subindex: Byte, value: Word32, size: SdoSize, reader: nat)
    requires IsNode(node) && IsNode(reader)
    ensures Decode(reader, SdoWriteFrame(node, index, subindex, value, size)) ==
            if reader == node then Some(SdoWrite(index, subindex, value % Pow256(size), size)) else None
  {
    var f := SdoWriteFrame(node, index, subindex, value, size);
    var command := 0x23 + 4 * (4 - size);
    assert f.data[0] == command && f.data[3] == subindex;
    assert command / 32 == 1 && command % 4 == 3 && 4 - command / 4 % 4 == size;
    assert f.data[1..3] == Le(index, 2);
    assert f.data[4..4 + size] == Le(value, size);
    assert LeValue(Le(index, 2)) == index by {
      LeRoundTrip(index, 2);
      Pow256Values();
    }
    LeRoundTrip(value, size);
  }

  lemma SdoReadDecodes(node: nat, index: Word16, subindex: Byte, reader: nat)
    requires IsNode(node) && IsNode(reader)
    ensures Decode(reader, SdoReadFrame(node, index, subindex)) ==
            if reader == node then Some(SdoRead(index, subindex)) else None
  {
    var f := SdoReadFrame(node, index, subindex);
    LeRoundTrip(index, 2);
    Pow256Values();
    assert f.data[1..3] == Le(index, 2);
    assert f.data[3] == subindex;
  }

  /** The bytes sdo_transaction takes its matching key from. */
  lemma SdoKeyOfRequest(node: nat, index: Word16, subindex: Byte, value: Word32, size: SdoSize)
    requires IsNode(node)
    ensures var w := SdoWriteFrame(node, index, subindex, value, size);
            w.length == 8 && NodeOf(w.id) == node && HalfWordOf(w.data[1..3]) == index && w.data[3] == subindex
    ensures var r := SdoReadFrame(node, index, subindex);
            r.length == 8 && NodeOf(r.id) == node && HalfWordOf(r.data[1..3]) == index && r.data[3] == subindex
  {
    LeRoundTrip(index, 2);
    Pow256Values();
    assert SdoWriteFrame(node, index, subindex, value, size).data[1..3] == Le(index, 2);
    assert SdoReadFrame(node, index, subindex).data[1..3] == Le(index, 2);
  }

  lemma TargetPositionDecodes(node: nat, counts: int, reader: nat)
    requires IsNode(node) && IsNode(reader)
    ensures Decode(reader, TargetPositionFrame(node, counts)) ==
            if reader == node then Some(Rpdo1(Le(ToU32(counts), 4))) else None
  {
    assert TargetPositionFrame(node, counts).data[..4] == Le(ToU32(counts), 4);
  }

  lemma NmtAndSyncDecode(command: Byte, node: nat, reader: nat)
    requires IsNode(node) && IsNode(reader)
    ensures Decode(reader, NmtFrame(command, node)) == if reader == node then Some(Nmt(command)) else None
    ensures Decode(reader, SyncFrame()) == Some(Sync)
  {
    assert NmtFrame(command, node).data[1] == node;
  }

  // What the host understands --------------------------------------------------------------------------------

  datatype SdoResponse = SdoResponse(node: nat, index: Word16, subindex: Byte, aborted: bool, value: Word32)
  datatype MotionFeedback = MotionFeedback(node: nat, position: int, velocity: int)
  datatype StatusFeedback = StatusFeedback(node: nat, statusWord: Word16)
  datatype Emergency = Emergency(node: nat, errorCode: Word16)

  function FunctionCode(id: nat): nat {
    id / 128 % 16 * 128
  }

  function NodeOf(id: nat): nat {
    id % 128
  }

  function ParseSdoResponse(f: Frame): Option<SdoResponse> {
    if f.extended || f.length < 8 || FunctionCode(f.id) != TSDO then None
    else Some(SdoResponse(NodeOf(f.id), HalfWordOf(f.data[1..3]), f.data[3], f.data[0] == SDO_ABORT,
                          WordOf(f.data[4..8])))
  }

  function ParseMotionFeedback(f: Frame): Option<MotionFeedback> {
    if f.extended || f.length < 8 || FunctionCode(f.id) != TPDO1 then None
    else Some(MotionFeedback(NodeOf(f.id), ToI32(WordOf(f.data[0..4])), ToI32(WordOf(f.data[4..8]))))
  }

  function ParseStatusFeedback(f: Frame): Option<StatusFeedback> {
    if f.extended || f.length < 2 || FunctionCode(f.id) != TPDO2 then None
    else Some(StatusFeedback(NodeOf(f.id), HalfWordOf(f.data[0..2])))
  }

  function ParseEmergency(f: Frame): Option<Emergency> {
    if f.extended || f.length < 2 || NodeOf(f.id) == 0 || FunctionCode(f.id) != EMCY then None
    else Some(Emergency(NodeOf(f.id), HalfWordOf(f.data[0..2])))
  }

  /** How many of the four receive parsers accept a frame. */
  function ParserCount(f: Frame): nat {
    (if ParseSdoResponse(f).Some? then 1 else 0) + (if ParseMotionFeedback(f).Some? then 1 else 0) +
    (if ParseStatusFeedback(f).Some? then 1 else 0) + (if ParseEmergency(f).Some? then 1 else 0)
  }

  /** Nothing the host builds for a real node is mistaken for feedback. */
  lemma HostFramesAreNotFeedback(node: nat, command: Byte, index: Word16, subindex: Byte, value: Word32, size: SdoSize,
                                 counts: int)
    requires IsNode(node)
    ensures ParserCount(NmtFrame(command, node)) == 0
    ensures ParserCount(SyncFrame()) == 0
    ensures ParserCount(SdoWriteFrame(node, index, subindex, value, size)) == 0
    ensures ParserCount(SdoReadFrame(node, index, subindex)) == 0
    ensures ParserCount(TargetPositionFrame(node, counts)) == 0
  {
    assert FunctionCode(RSDO + node) == RSDO;
    assert FunctionCode(RPDO1 + node) == RPDO1;
    assert FunctionCode(NMT) == NMT;
  }

  /** Which frames count as feedback: eleven-bit identifier, function code and length decide. */
  lemma ParsersAccept(f: Frame)
    requires f.id < 0x800
    ensures ParseSdoResponse(f).Some? <==> !f.extended && 0x580 <= f.id < 0x600 && f.length >= 8
    ensures ParseMotionFeedback(f).Some? <==> !f.extended && 0x180 <= f.id < 0x200 && f.length >= 8
    ensures ParseStatusFeedback(f).Some? <==> !f.extended && 0x280 <= f.id < 0x300 && f.length >= 2
    ensures ParseEmergency(f).Some? <==> !f.extended && 0x080 < f.id < 0x100 && f.length >= 2
  {
    hide HalfWordOf, WordOf, ToI32;
  }

  /** Every frame is accepted by at most one parser, so the order of the tests in rx_loop is irrelevant. */
  lemma ParsersAreExclusive(f: Frame)
    ensures ParserCount(f) <= 1
  {
  }

  /** What goes over the wire in the cyclic phase, byte by byte. */
  lemma CyclicBytes(n: nat)
    requires IsNode(n)
    ensures TargetPositionFrame(n, 0x0102_0304) == Frame(0x200 + n, false, 4, [0x04, 0x03, 0x02, 0x01, 0, 0, 0, 0])
    ensures TargetPositionFrame(n, -2) == Frame(0x200 + n, false, 4, [0xfe, 0xff, 0xff, 0xff, 0, 0, 0, 0])
    ensures SyncFrame() == Frame(0x080, false, 0, [0, 0, 0, 0, 0, 0, 0, 0])
  {
    FourBytes(0x0102_0304);
    FourBytes(0xffff_fffe);
    hide Le;
  }

  lemma FourBytes(v: Word32)
    ensures Le(v, 4) == [v % 256, v / 256 % 256, v / 0x1_0000 % 256, v / 0x100_0000 % 256]
  {
    Pow256Values();
    forall i | 0 <= i < 4 ensures Le(v, 4)[i] == v / Pow256(i) % 256 { LeAt(v, 4, i); }
    assert Pow256(0) == 1;
  }

  lemma TwoBytes(v: Word16)
    ensures Le(v, 2) == [v % 256, v / 256 % 256]
  {
    Pow256Values();
    LeAt(v, 2, 0);
    LeAt(v, 2, 1);
    assert Pow256(0) == 1;
  }

  lemma WordIs(a: Byte, b: Byte, c: Byte, d: Byte)
    ensures WordOf([a, b, c, d]) == a + 0x100 * b + 0x1_0000 * c + 0x100_0000 * d
    ensures HalfWordOf([a, b]) == a + 0x100 * b
  {
    assert LeValue([d]) == d + 0x100 * LeValue([d][1..]);
    assert [c, d][1..] == [d] && [b, c, d][1..] == [c, d] && [a, b, c, d][1..] == [b, c, d];
    assert LeValue([c, d]) == c + 0x100 * d && LeValue([b, c, d]) == b + 0x100 * LeValue([c, d]);
    assert LeValue([b]) == b + 0x100 * LeValue([b][1..]);
    assert [a, b][1..] == [b];
  }

  lemma CobFields(n: nat, code: nat)
    requires IsNode(n) && code in {EMCY, TPDO1, TPDO2, TSDO}
    ensures FunctionCode(code + n) == code && NodeOf(code + n) == n
  {
  }

  /** And what the host makes of a drive's bytes: position and velocity, ... */
  lemma MotionBytes(n: nat)
    requires IsNode(n)
    ensures ParseMotionFeedback(Frame(0x180 + n, false, 8, [0x04, 0x03, 0x02, 0x01, 0xfe, 0xff, 0xff, 0xff])) ==
            Some(MotionFeedback(n, 0x0102_0304, -2))
  {
    hide WordOf, FunctionCode, NodeOf;
    CobFields(n, TPDO1);
    WordIs(0x04, 0x03, 0x02, 0x01);
    WordIs(0xfe, 0xff, 0xff, 0xff);
    var data := [0x04, 0x03, 0x02, 0x01, 0xfe, 0xff, 0xff, 0xff];
    assert data[0..4] == [0x04, 0x03, 0x02, 0x01] && data[4..8] == [0xfe, 0xff, 0xff, 0xff];
  }

  /** ... status word and error code, ... */
  lemma StatusBytes(n: nat)
    requires IsNode(n)
    ensures ParseStatusFeedback(Frame(0x280 + n, false, 2, [0x37, 0x02, 0, 0, 0, 0, 0, 0])) ==
            Some(StatusFeedback(n, 0x0237))
    ensures ParseEmergency(Frame(0x080 + n, false, 8, [0x10, 0x23, 0, 0, 0, 0, 0, 0])) == Some(Emergency(n, 0x2310))
  {
    hide HalfWordOf, WordOf, FunctionCode, NodeOf;
    CobFields(n, TPDO2);
    CobFields(n, EMCY);
    WordIs(0x37, 0x02, 0, 0);
    WordIs(0x10, 0x23, 0, 0);
    assert [0x37, 0x02, 0, 0, 0, 0, 0, 0][0..2] == [0x37, 0x02];
    assert [0x10, 0x23, 0, 0, 0, 0, 0, 0][0..2] == [0x10, 0x23];
  }

  /** ... an SDO answer with data, and a refusal. */
  lemma AnswerBytes(n: nat)
    requires IsNode(n)
    ensures ParseSdoResponse(Frame(0x580 + n, false, 8, [0x4b, 0x41, 0x60, 0x00, 0x37, 0x02, 0x00, 0x00])) ==
            Some(SdoResponse(n, 0x6041, 0, false, 0x0237))
    ensures ParseSdoResponse(Frame(0x580 + n, false, 8, [0x80, 0x00, 0x1a, 0x02, 0x41, 0x00, 0x04, 0x06])) ==
            Some(SdoResponse(n, 0x1a00, 2, true, 0x0604_0041))
  {
    hide HalfWordOf, WordOf, FunctionCode, NodeOf;
    CobFields(n, TSDO);
    WordIs(0x41, 0x60, 0, 0);
    WordIs(0x00, 0x1a, 0, 0);
    WordIs(0x37, 0x02, 0x00, 0x00);
    WordIs(0x41, 0x00, 0x04, 0x06);
    var read, refused := [0x4b, 0x41, 0x60, 0x00, 0x37, 0x02, 0x00, 0x00],
                         [0x80, 0x00, 0x1a, 0x02, 0x41, 0x00, 0x04, 0x06];
    assert read[1..3] == [0x41, 0x60] && read[4..8] == [0x37, 0x02, 0x00, 0x00];
    assert refused[1..3] == [0x00, 0x1a] && refused[4..8] == [0x41, 0x00, 0x04, 0x06];
  }
}
