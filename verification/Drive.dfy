// The other end of the bus: one drive, as CiA 301 and CiA DSP 402 describe it.

/** A strict drive: it aborts every object write that the standards allow it to refuse. */
module Cia402Drive {
  import opened Wrappers
  import opened PxxCan

  datatype NmtState = PreOperational | Operational | Stopped

  /** Power states of CiA DSP 402 v2.0, section 10. */
  datatype Power =
    | NotReady
    | SwitchOnDisabled
    | ReadyToSwitchOn
    | SwitchedOn
    | OperationEnabled
    | QuickStopActive
    | FaultReaction
    | Fault

  /** Communication and mapping record of one PDO (CiA 301 section 7.5.2). */
  datatype Pdo = Pdo(disabled: bool, cobId: nat, transmission: nat, count: nat, entries: map<nat, nat>)

  /** The part of a drive that only the host's frames change. */
  datatype Core = Core(node: nat, nmt: NmtState, bit7: bool, mode: nat, target: int, buffer: Option<seq<Byte>>,
                       rpdo1: Pdo, tpdo1: Pdo, tpdo2: Pdo)

  /** What a status word holds besides the power state: bits 4 and 7 to 15, and bit 5 where no state is told by it. */
  type StatusBits = x: int | 0 <= x < 0x800

  datatype Drive = Drive(core: Core, power: Power, clearable: bool, position: int, velocity: int, code: Word16,
                         other: StatusBits)

  type Payload = p: seq<Byte> | |p| <= 8

  datatype DriveMessage =
    | Ack(index: Word16, subindex: Byte)
    | Data(index: Word16, subindex: Byte, value: Word32, size: SdoSize)
    | Abort(index: Word16, subindex: Byte, code: Word32)
    | Tpdo1(payload: Payload)
    | Tpdo2(payload: Payload)
    | Emcy(errorCode: Word16)
    | Heartbeat(state: Byte)

  const NO_SUCH_OBJECT := 0x0602_0000

  predicate IsSdo(m: DriveMessage) {
    m.Ack? || m.Data? || m.Abort?
  }

  // Power state machine --------------------------------------------------------------------------------------

  function Bit(word: nat, k: nat): bool
    requires k < 8
  {
    word / [1, 2, 4, 8, 16, 32, 64, 128][k] % 2 == 1
  }

  /** Transitions of the device control state machine for one received control word. */
  function ApplyControl(p: Power, clearable: bool, wasBit7: bool, word: nat): Power {
    if Bit(word, 7) then
      if p == Fault && clearable && !wasBit7 then SwitchOnDisabled else p       // 15
    else if !Bit(word, 1) then                                                 // disable voltage
      if p in {ReadyToSwitchOn, SwitchedOn, OperationEnabled, QuickStopActive} then SwitchOnDisabled else p
    else if !Bit(word, 2) then                                                 // quick stop
      if p in {ReadyToSwitchOn, SwitchedOn} then SwitchOnDisabled
      else if p == OperationEnabled then QuickStopActive else p
    else if !Bit(word, 0) then                                                 // shutdown: 2, 6, 8
      if p in {SwitchOnDisabled, SwitchedOn, OperationEnabled} then ReadyToSwitchOn else p
    else if !Bit(word, 3) then                                                 // switch on: 3, 5
      if p in {ReadyToSwitchOn, OperationEnabled} then SwitchedOn else p
    else                                                                       // enable operation: 4, 16
      if p in {SwitchedOn, QuickStopActive} then OperationEnabled else p
  }

  /** The bits of a status word that tell the power state. */
  function StateBits(p: Power): Word16 {
    match p
    case NotReady => 0x00
    case SwitchOnDisabled => 0x40
    case ReadyToSwitchOn => 0x21
    case SwitchedOn => 0x23
    case OperationEnabled => 0x27
    case QuickStopActive => 0x07
    case FaultReaction => 0x0F
    case Fault => 0x08
  }

  /** Bit 5 does not belong to the codes of these states. */
  predicate QuickStopBitFree(p: Power) {
    p in {NotReady, SwitchOnDisabled, FaultReaction, Fault}
  }

  function StatusWord(p: Power, other: StatusBits): Word16 {
    StateBits(p) + other % 2 * 0x10 + (if QuickStopBitFree(p) then other / 2 % 2 * 0x20 else 0) + other / 4 * 0x80
  }

  /** The code of CiA DSP 402 for p: bits 0 to 3 and 6, and 5 where it counts. */
  predicate Tells(status: Word16, p: Power) {
    && status % 16 == StateBits(p) % 16 && status / 64 % 2 == StateBits(p) / 64
    && (QuickStopBitFree(p) || status / 32 % 2 == StateBits(p) / 32 % 2)
  }

  function WordFrom(low: nat, bit4: nat, bit5: nat, bit6: nat, high: nat): nat {
    low + 0x10 * bit4 + 0x20 * bit5 + 0x40 * bit6 + 0x80 * high
  }

  lemma WordBits(low: nat, bit4: nat, bit5: nat, bit6: nat, high: nat)
    requires low < 16 && bit4 < 2 && bit5 < 2 && bit6 < 2
    ensures var w := WordFrom(low, bit4, bit5, bit6, high);
            w % 16 == low && w / 32 % 2 == bit5 && w / 64 % 2 == bit6
  {
    var w := WordFrom(low, bit4, bit5, bit6, high);
    assert w / 16 == bit4 + 2 * bit5 + 4 * bit6 + 8 * high;
    assert w / 32 == bit5 + 2 * bit6 + 4 * high;
    assert w / 64 == bit6 + 2 * high;
  }

  lemma WordOfBits(w: nat)
    ensures w == WordFrom(w % 16, w / 16 % 2, w / 32 % 2, w / 64 % 2, w / 128)
  {
    assert w / 32 == w / 16 / 2 && w / 64 == w / 32 / 2 && w / 128 == w / 64 / 2;
  }

  lemma StatusWordBits(p: Power, other: StatusBits)
    ensures StatusWord(p, other) == WordFrom(StateBits(p) % 16, other % 2,
                                         if QuickStopBitFree(p) then other / 2 % 2 else StateBits(p) / 32 % 2,
                                         StateBits(p) / 64, other / 4)
  {
  }

  /** The words a drive may show in state p are exactly those that carry the code of p. */
  lemma EveryStatusWordOccurs(p: Power, status: Word16)
    ensures Tells(status, p) <==> exists other: StatusBits :: StatusWord(p, other) == status
  {
    hide WordFrom, StatusWord, StateBits;
    forall other: StatusBits ensures Tells(StatusWord(p, other), p) { StatusWordTells(p, other); }
    if Tells(status, p) {
      var other := OtherBits(status);
      StatusWordBack(p, status);
    }
  }

  function OtherBits(status: Word16): StatusBits {
    status / 16 % 2 + status / 32 % 2 * 2 + status / 128 * 4
  }

  lemma StatusWordTells(p: Power, other: StatusBits)
    ensures Tells(StatusWord(p, other), p)
  {
    hide WordFrom;
    StatusWordBits(p, other);
    WordBits(StateBits(p) % 16, other % 2, if QuickStopBitFree(p) then other / 2 % 2 else StateBits(p) / 32 % 2,
             StateBits(p) / 64, other / 4);
  }

  lemma StatusWordBack(p: Power, status: Word16)
    requires Tells(status, p)
    ensures StatusWord(p, OtherBits(status)) == status
  {
    hide WordFrom;
    var a, b, c := status / 16 % 2, status / 32 % 2, status / 128;
    var other := OtherBits(status);
    assert other / 2 == b + 2 * c && other / 4 == c && other % 2 == a && other / 2 % 2 == b;
    StatusWordBits(p, other);
    WordOfBits(status);
  }

  /** The host's test of a status word: no fault bit, operation-enabled bit set. */
  predicate LooksEnabled(status: nat) {
    !Bit(status, 3) && Bit(status, 2)
  }

  /** Bits 2 and 3 decide, and they alone. */
  lemma TwoBitsDecide(status: nat)
    ensures LooksEnabled(status) <==> status / 4 % 4 == 1
  {
    BitIs(status);
    hide Bit;
    var k := status / 4;
    assert status / 8 == k / 2 && k % 4 == k / 2 % 2 * 2 + k % 2;
  }

  lemma EvenMore(x: nat, y: nat)
    ensures (2 * x + y) % 2 == y % 2
  {
  }

  lemma BitIs(word: nat)
    ensures Bit(word, 2) == (word / 4 % 2 == 1) && Bit(word, 3) == (word / 8 % 2 == 1)
  {
  }

  predicate ShowsEnabled(p: Power) {
    p == OperationEnabled || p == QuickStopActive
  }

  lemma LooksEnabledMeans(p: Power, other: StatusBits)
    ensures LooksEnabled(StatusWord(p, other)) <==> ShowsEnabled(p)
    ensures Bit(StatusWord(p, other), 3) <==> p == Fault || p == FaultReaction
  {
    hide StatusWord, Bit;
    StatusWordTells(p, other);
    LowBits(StatusWord(p, other));
    StateBitsMean(p);
  }

  lemma StateBitsMean(p: Power)
    ensures Bit(StateBits(p) % 16, 3) <==> p == Fault || p == FaultReaction
    ensures !Bit(StateBits(p) % 16, 3) && Bit(StateBits(p) % 16, 2) <==> ShowsEnabled(p)
  {
  }

  /** A bit of the low half byte. */
  lemma LowBits(word: nat)
    ensures Bit(word, 2) == Bit(word % 16, 2) && Bit(word, 3) == Bit(word % 16, 3)
  {
    BitIs(word);
    BitIs(word % 16);
    hide Bit;
    var q, r := word / 16, word % 16;
    assert word / 8 == 2 * q + r / 8 && word / 4 == 2 * (2 * q) + r / 4;
    EvenMore(q, r / 8);
    EvenMore(2 * q, r / 4);
  }

  // Object dictionary ----------------------------------------------------------------------------------------

  function MapEntry(index: nat, subindex: nat, bits: nat): nat {
    index * 0x1_0000 + subindex * 0x100 + bits
  }

  function EntryIndex(entry: nat): nat { entry / 0x1_0000 }

  function EntryBytes(entry: nat): nat { entry % 0x100 / 8 }

  /** A mapping entry holds index, subindex and length side by side. */
  lemma MapEntryUnpacks(index: Word16, subindex: Byte, bits: Byte)
    ensures var e := MapEntry(index, subindex, bits);
            EntryIndex(e) == index && e / 0x100 % 0x100 == subindex && EntryBytes(e) == bits / 8 && e < TWO_32
  {
    var e := MapEntry(index, subindex, bits);
    assert e / 0x100 == index * 0x100 + subindex;
  }

  /** Objects this drive accepts in a receive or transmit PDO; the length must be exact. */
  predicate Mappable(entry: nat, receive: bool) {
    if receive then
      entry == MapEntry(TARGET_POSITION, 0, 32) || entry == MapEntry(MODE_OF_OPERATION, 0, 8)
    else
      entry == MapEntry(POSITION_ACTUAL, 0, 32) || entry == MapEntry(VELOCITY_ACTUAL, 0, 32) ||
      entry == MapEntry(STATUS_WORD, 0, 16) || entry == MapEntry(ERROR_CODE, 0, 16)
  }

  function MappedBytes(entries: map<nat, nat>, i: nat, n: nat): nat
    requires i <= n
    decreases n - i
  {
    if i == n then 0
    else (if i + 1 in entries then EntryBytes(entries[i + 1]) else 0) + MappedBytes(entries, i + 1, n)
  }

  predicate MappingComplete(p: Pdo, count: nat, receive: bool) {
    && count <= 8
    && (forall i :: 1 <= i <= count ==> i in p.entries && Mappable(p.entries[i], receive))
    && MappedBytes(p.entries, 0, count) <= 8
  }

  /** 14xx / 18xx: the COB-ID bits of a PDO in use may not change. */
  function WriteCommunication(p: Pdo, subindex: nat, value: nat, size: nat): Option<Pdo> {
    if subindex == 1 && size == 4 then
      var id := value % PDO_DISABLED;
      if !p.disabled && id != p.cobId then None
      else Some(p.(disabled := value >= PDO_DISABLED, cobId := id))
    else if subindex == 2 && size == 1 then Some(p.(transmission := value))
    else None
  }

  /** 16xx / 1Axx: only in pre-operational, only while the PDO is disabled, entries only while the count is 0. */
  function WriteMapping(p: Pdo, nmt: NmtState, receive: bool, subindex: nat, value: nat, size: nat): Option<Pdo> {
    if nmt != PreOperational || !p.disabled then None
    else if subindex == 0 && size == 1 then
      if MappingComplete(p, value, receive) then Some(p.(count := value)) else None
    else if 1 <= subindex <= 8 && size == 4 then
      if p.count == 0 && Mappable(value, receive) then Some(p.(entries := p.entries[subindex := value])) else None
    else None
  }

  const MODES := {1, 3, 4, 7, 8, 9, 10}

  /** An SDO download into the object dictionary; None when the drive aborts it. */
  function WriteObject(c: Core, index: nat, subindex: nat, value: nat, size: nat): Option<Core> {
    if index == CONTROL_WORD then
      if subindex == 0 && size == 2 then Some(c.(bit7 := Bit(value, 7))) else None
    else if index == MODE_OF_OPERATION then
      if subindex == 0 && size == 1 && value in MODES then Some(c.(mode := value)) else None
    else if index == TARGET_POSITION then
      if subindex == 0 && size == 4 then Some(c.(target := ToI32(value % TWO_32))) else None
    else if index == RPDO1_COMMUNICATION then
      match WriteCommunication(c.rpdo1, subindex, value, size)
      case None => None
      case Some(p) => Some(c.(rpdo1 := p, buffer := if p.disabled then None else c.buffer))
    else if index == TPDO1_COMMUNICATION then
      match WriteCommunication(c.tpdo1, subindex, value, size)
      case None => None
      case Some(p) => Some(c.(tpdo1 := p))
    else if index == TPDO2_COMMUNICATION then
      match WriteCommunication(c.tpdo2, subindex, value, size)
      case None => None
      case Some(p) => Some(c.(tpdo2 := p))
    else if index == RPDO1_MAPPING then
      match WriteMapping(c.rpdo1, c.nmt, true, subindex, value, size)
      case None => None
      case Some(p) => Some(c.(rpdo1 := p))
    else if index == TPDO1_MAPPING then
      match WriteMapping(c.tpdo1, c.nmt, false, subindex, value, size)
      case None => None
      case Some(p) => Some(c.(tpdo1 := p))
    else if index == TPDO2_MAPPING then
      match WriteMapping(c.tpdo2, c.nmt, false, subindex, value, size)
      case None => None
      case Some(p) => Some(c.(tpdo2 := p))
    else None
  }

  /** Value of an object that can be uploaded or mapped into a TPDO. */
  function ObjectValue(d: Drive, index: nat): Word32 {
    if index == POSITION_ACTUAL then ToU32(d.position)
    else if index == VELOCITY_ACTUAL then ToU32(d.velocity)
    else if index == STATUS_WORD then StatusWord(d.power, d.other)
    else if index == ERROR_CODE then d.code
    else 0
  }

  // PDOs, interpreted through whatever mapping the drive holds -----------------------------------------------

  function Pack(d: Drive, entries: map<nat, nat>, i: nat, n: nat): seq<Byte>
    requires i <= n
    decreases n - i
  {
    if i == n || i + 1 !in entries then []
    else
      Le(ObjectValue(d, EntryIndex(entries[i + 1])), EntryBytes(entries[i + 1])) + Pack(d, entries, i + 1, n)
  }

  function Unpack(c: Core, entries: map<nat, nat>, i: nat, n: nat, payload: seq<Byte>): (c': Core)
    requires i <= n
    ensures c' == c.(target := c'.target, mode := c'.mode)
    decreases n - i
  {
    if i == n || i + 1 !in entries then c
    else
      var e := entries[i + 1];
      if |payload| < EntryBytes(e) then c
      else
        var value := LeValue(payload[..EntryBytes(e)]);
        var c1 := if EntryIndex(e) == TARGET_POSITION then c.(target := ToI32(value % TWO_32))
                  else if EntryIndex(e) == MODE_OF_OPERATION then c.(mode := value)
                  else c;
        Unpack(c1, entries, i + 1, n, payload[EntryBytes(e)..])
  }

  function ReceivePdo(c: Core, payload: seq<Byte>): Core {
    if c.nmt != Operational || c.rpdo1.disabled || c.rpdo1.cobId != RPDO1 + c.node ||
       |payload| < MappedBytes(c.rpdo1.entries, 0, c.rpdo1.count) then c
    else if c.rpdo1.transmission <= 240 then c.(buffer := Some(payload))
    else Unpack(c, c.rpdo1.entries, 0, c.rpdo1.count, payload)
  }

  function ReceiveSync(c: Core): Core {
    if c.nmt != Operational || c.rpdo1.disabled || c.buffer.None? then c
    else Unpack(c, c.rpdo1.entries, 0, c.rpdo1.count, c.buffer.value).(buffer := None)
  }

  predicate Sends(c: Core, p: Pdo, cobBase: nat) {
    c.nmt == Operational && !p.disabled && p.cobId == cobBase + c.node
  }

  /** TPDO1 and TPDO2 as they would go out now; a CAN frame carries at most eight bytes. */
  function EmitTpdo1(d: Drive): seq<DriveMessage> {
    var p := Pack(d, d.core.tpdo1.entries, 0, d.core.tpdo1.count);
    if Sends(d.core, d.core.tpdo1, TPDO1) && |p| <= 8 then [Tpdo1(p)] else []
  }

  function EmitTpdo2(d: Drive): seq<DriveMessage> {
    var p := Pack(d, d.core.tpdo2.entries, 0, d.core.tpdo2.count);
    if Sends(d.core, d.core.tpdo2, TPDO2) && |p| <= 8 then [Tpdo2(p)] else []
  }

  /** TPDOs sent on a SYNC. */
  function OnSync(d: Drive): seq<DriveMessage> {
    (if d.core.tpdo1.transmission == SYNC_EVERY then EmitTpdo1(d) else []) +
    (if d.core.tpdo2.transmission == SYNC_EVERY then EmitTpdo2(d) else [])
  }

  // One received message -------------------------------------------------------------------------------------

  predicate IsControl(m: HostMessage) {
    m.SdoWrite? && m.index == CONTROL_WORD && m.subindex == 0 && m.size == 2
  }

  predicate IsEnable(m: HostMessage) {
    IsControl(m) && !Bit(m.value, 7) && Bit(m.value, 0) && Bit(m.value, 1) && Bit(m.value, 2) && Bit(m.value, 3)
  }

  function CoreExec(c: Core, m: HostMessage): (c': Core)
    ensures c'.node == c.node
  {
    match m
    case Nmt(command) =>
      if command == NMT_START then c.(nmt := Operational)
      else if command == 0x02 then c.(nmt := Stopped)
      else if command == NMT_PRE_OPERATIONAL then c.(nmt := PreOperational)
      else c
    case SdoWrite(index, subindex, value, size) =>
      if c.nmt == Stopped then c
      else (match WriteObject(c, index, subindex, value, size)
            case None => c
            case Some(c') => c')
    case SdoRead(_, _) => c
    case Rpdo1(payload) => ReceivePdo(c, payload)
    case Sync => ReceiveSync(c)
  }

  function PowerExec(d: Drive, m: HostMessage): Power {
    if IsControl(m) && d.core.nmt != Stopped then ApplyControl(d.power, d.clearable, d.core.bit7, m.value) else d.power
  }

  function Exec(d: Drive, m: HostMessage): Drive {
    d.(core := CoreExec(d.core, m), power := PowerExec(d, m))
  }

  /** The SDO answer to a message; none in the Stopped state (CiA 301 section 7.3.2). */
  function Answer(d: Drive, m: HostMessage): (a: Option<DriveMessage>)
    ensures a.Some? ==> IsSdo(a.value)
  {
    if d.core.nmt == Stopped then None
    else
      match m
      case SdoWrite(index, subindex, value, size) =>
        if WriteObject(d.core, index, subindex, value, size).Some? then Some(Ack(index, subindex))
        else Some(Abort(index, subindex, NO_SUCH_OBJECT))
      case SdoRead(index, subindex) =>
        if subindex == 0 && index == POSITION_ACTUAL then Some(Data(index, subindex, ObjectValue(d, index), 4))
        else if subindex == 0 && (index == STATUS_WORD || index == ERROR_CODE) then
          Some(Data(index, subindex, ObjectValue(d, index), 2))
        else Some(Abort(index, subindex, NO_SUCH_OBJECT))
      case Nmt(_) => None
      case Rpdo1(_) => None
      case Sync => None
  }

  // On the wire ----------------------------------------------------------------------------------------------

  function WireFrame(node: nat, m: DriveMessage): Frame
  {
    match m
    case Ack(index, subindex) => Frame(TSDO + node, false, 8,
                                       SdoHeader(index, subindex, SDO_DOWNLOAD_RESPONSE) + Le(0, 4))
    case Data(index, subindex, value, size) =>
      Frame(TSDO + node, false, 8, SdoHeader(index, subindex, 0x43 + 4 * (4 - size)) + Le(value, 4))
    case Abort(index, subindex, code) => Frame(TSDO + node, false, 8,
                                               SdoHeader(index, subindex, SDO_ABORT) + Le(code, 4))
    case Tpdo1(p) => Frame(TPDO1 + node, false, |p|, p + ZEROS[..8 - |p|])
    case Tpdo2(p) => Frame(TPDO2 + node, false, |p|, p + ZEROS[..8 - |p|])
    case Emcy(code) => Frame(EMCY + node, false, 8, Le(code, 2) + ZEROS[..6])
    case Heartbeat(state) => Frame(HEARTBEAT + node, false, 1, [state] + ZEROS[..7])
  }

  function Response(node: nat, m: DriveMessage): SdoResponse
    requires IsSdo(m)
  {
    SdoResponse(node, m.index, m.subindex, m.Abort?,
                if m.Data? then m.value else if m.Abort? then m.code else 0)
  }

  lemma SdoHeardAs(node: nat, index: Word16, subindex: Byte, command: Byte, value: Word32)
    requires IsNode(node)
    ensures ParseSdoResponse(Frame(TSDO + node, false, 8, SdoHeader(index, subindex, command) + Le(value, 4))) ==
            Some(SdoResponse(node, index, subindex, command == SDO_ABORT, value))
  {
    Pow256Values();
    LeRoundTrip(index, 2);
    LeRoundTrip(value, 4);
    var head, tail := Le(index, 2), Le(value, 4);
    hide Le, LeValue, Pow256;
    var f := Frame(TSDO + node, false, 8, SdoHeader(index, subindex, command) + tail);
    assert f.data[1..3] == head && f.data[4..8] == tail;
  }

  lemma OnlyItsParser(f: Frame, node: nat, code: nat)
    requires IsNode(node) && f.id == code + node
    requires code in {EMCY, TPDO1, TPDO2, TSDO, HEARTBEAT}
    ensures FunctionCode(f.id) == code && NodeOf(f.id) == node
    ensures code != TSDO ==> ParseSdoResponse(f).None?
    ensures code != TPDO1 ==> ParseMotionFeedback(f).None?
    ensures code != TPDO2 ==> ParseStatusFeedback(f).None?
    ensures code != EMCY ==> ParseEmergency(f).None?
  {
  }

  lemma PdoHeardAs(node: nat, p: Payload)
    requires IsNode(node)
    ensures ParseMotionFeedback(WireFrame(node, Tpdo1(p))) ==
            (if |p| == 8 then Some(MotionFeedback(node, ToI32(WordOf(p[0..4])), ToI32(WordOf(p[4..8])))) else None)
    ensures ParseStatusFeedback(WireFrame(node, Tpdo2(p))) ==
            (if |p| >= 2 then Some(StatusFeedback(node, HalfWordOf(p[0..2]))) else None)
  {
    hide WordOf, HalfWordOf, ToI32;
    var data := p + ZEROS[..8 - |p|];
    assert |p| == 8 ==> data == p;
    assert |p| >= 2 ==> data[0..2] == p[0..2];
  }

  lemma EmcyHeardAs(node: nat, code: Word16)
    requires IsNode(node)
    ensures ParseEmergency(WireFrame(node, Emcy(code))) == Some(Emergency(node, code))
  {
    Pow256Values();
    LeRoundTrip(code, 2);
    assert (Le(code, 2) + ZEROS[..6])[0..2] == Le(code, 2);
  }

  /** What each parser makes of each kind of drive message. */
  lemma HeardAs(node: nat, m: DriveMessage)
    requires IsNode(node)
    ensures var f := WireFrame(node, m);
            && ParseSdoResponse(f) == (if IsSdo(m) then Some(Response(node, m)) else None)
            && ParseMotionFeedback(f) ==
               (if m.Tpdo1? && |m.payload| == 8
                then Some(MotionFeedback(node, ToI32(WordOf(m.payload[0..4])), ToI32(WordOf(m.payload[4..8]))))
                    else None)
            && ParseStatusFeedback(f) ==
               (if m.Tpdo2? && |m.payload| >= 2 then Some(StatusFeedback(node, HalfWordOf(m.payload[0..2]))) else None)
            && ParseEmergency(f) == (if m.Emcy? then Some(Emergency(node, m.errorCode)) else None)
  {
    hide ParseSdoResponse, ParseMotionFeedback, ParseStatusFeedback, ParseEmergency, Le, SdoHeader, WordOf, HalfWordOf,
         ToI32;
    var f := WireFrame(node, m);
    match m {
      case Ack(index, subindex) =>
        OnlyItsParser(f, node, TSDO);
        SdoHeardAs(node, index, subindex, SDO_DOWNLOAD_RESPONSE, 0);
      case Data(index, subindex, value, size) =>
        OnlyItsParser(f, node, TSDO);
        SdoHeardAs(node, index, subindex, 0x43 + 4 * (4 - size), value);
      case Abort(index, subindex, code) =>
        OnlyItsParser(f, node, TSDO);
        SdoHeardAs(node, index, subindex, SDO_ABORT, code);
      case Tpdo1(p) =>
        OnlyItsParser(f, node, TPDO1);
        PdoHeardAs(node, p);
      case Tpdo2(p) =>
        OnlyItsParser(f, node, TPDO2);
        PdoHeardAs(node, p);
      case Emcy(code) =>
        OnlyItsParser(f, node, EMCY);
        EmcyHeardAs(node, code);
      case Heartbeat(_) =>
        OnlyItsParser(f, node, HEARTBEAT);
    }
  }

  // The configuration the host establishes -------------------------------------------------------------------

  predicate RpdoConfigured(c: Core) {
    c.rpdo1 == Pdo(false, RPDO1 + c.node, SYNC_EVERY, 1, c.rpdo1.entries) &&
    1 in c.rpdo1.entries && c.rpdo1.entries[1] == MapEntry(TARGET_POSITION, 0, 32)
  }

  predicate Tpdo1Configured(c: Core) {
    c.tpdo1 == Pdo(false, TPDO1 + c.node, SYNC_EVERY, 2, c.tpdo1.entries) &&
    1 in c.tpdo1.entries && c.tpdo1.entries[1] == MapEntry(POSITION_ACTUAL, 0, 32) &&
    2 in c.tpdo1.entries && c.tpdo1.entries[2] == MapEntry(VELOCITY_ACTUAL, 0, 32)
  }

  predicate Tpdo2Configured(c: Core) {
    c.tpdo2 == Pdo(false, TPDO2 + c.node, SYNC_EVERY, 1, c.tpdo2.entries) &&
    1 in c.tpdo2.entries && c.tpdo2.entries[1] == MapEntry(STATUS_WORD, 0, 16)
  }

  predicate Configured(c: Core) {
    c.mode == CYCLIC_SYNC_POSITION && RpdoConfigured(c) && Tpdo1Configured(c) && Tpdo2Configured(c)
  }

  /** PDO COB-IDs follow the pre-defined connection set (CiA 301 section 7.3.3) wherever a PDO is in use. */
  predicate PredefinedIds(c: Core) {
    && (c.rpdo1.disabled || c.rpdo1.cobId == RPDO1 + c.node)
    && (c.tpdo1.disabled || c.tpdo1.cobId == TPDO1 + c.node)
    && (c.tpdo2.disabled || c.tpdo2.cobId == TPDO2 + c.node)
  }

  lemma EntryFields()
    ensures EntryIndex(MapEntry(TARGET_POSITION, 0, 32)) == TARGET_POSITION &&
            EntryBytes(MapEntry(TARGET_POSITION, 0, 32)) == 4
    ensures EntryIndex(MapEntry(POSITION_ACTUAL, 0, 32)) == POSITION_ACTUAL &&
            EntryBytes(MapEntry(POSITION_ACTUAL, 0, 32)) == 4
    ensures EntryIndex(MapEntry(VELOCITY_ACTUAL, 0, 32)) == VELOCITY_ACTUAL &&
            EntryBytes(MapEntry(VELOCITY_ACTUAL, 0, 32)) == 4
    ensures EntryIndex(MapEntry(STATUS_WORD, 0, 16)) == STATUS_WORD && EntryBytes(MapEntry(STATUS_WORD, 0, 16)) == 2
  {
  }

  lemma PackMotion(d: Drive)
    requires Tpdo1Configured(d.core)
    ensures Pack(d, d.core.tpdo1.entries, 0, 2) == Le(ToU32(d.position), 4) + Le(ToU32(d.velocity), 4)
  {
    var es := d.core.tpdo1.entries;
    EntryFields();
    assert Pack(d, es, 2, 2) == [];
    assert Pack(d, es, 1, 2) == Le(ToU32(d.velocity), 4) + [];
  }

  lemma SignedWord(x: int)
    requires IsInt32(x)
    ensures ToI32(WordOf(Le(ToU32(x), 4))) == x
  {
    Pow256Values();
    LeRoundTrip(ToU32(x), 4);
    SignedRoundTrip(x);
  }

  /** The drive's own reading of its TPDO1 mapping is the layout ParseMotionFeedback assumes. */
  lemma MotionLayoutAgrees(d: Drive)
    requires IsNode(d.core.node) && Tpdo1Configured(d.core) && IsInt32(d.position) && IsInt32(d.velocity)
    ensures var p := Pack(d, d.core.tpdo1.entries, 0, d.core.tpdo1.count);
            && |p| == 8
            && ParseMotionFeedback(WireFrame(d.core.node, Tpdo1(p))) ==
               Some(MotionFeedback(d.core.node, d.position, d.velocity))
  {
    PackMotion(d);
    var x, v := Le(ToU32(d.position), 4), Le(ToU32(d.velocity), 4);
    var p := x + v;
    assert p[0..4] == x && p[4..8] == v;
    SignedWord(d.position);
    SignedWord(d.velocity);
    HeardAs(d.core.node, Tpdo1(p));
  }

  lemma StatusLayoutAgrees(d: Drive)
    requires IsNode(d.core.node) && Tpdo2Configured(d.core)
    ensures var p := Pack(d, d.core.tpdo2.entries, 0, d.core.tpdo2.count);
            && |p| == 2
            && ParseStatusFeedback(WireFrame(d.core.node, Tpdo2(p))) ==
               Some(StatusFeedback(d.core.node, StatusWord(d.power, d.other)))
  {
    var es := d.core.tpdo2.entries;
    var word := StatusWord(d.power, d.other);
    var w := Le(word, 2);
    EntryFields();
    assert Pack(d, es, 1, 1) == [];
    assert Pack(d, es, 0, 1) == w + [] == w;
    assert LeValue(w) == word by {
      Pow256Values();
      LeRoundTrip(word, 2);
    }
    assert w[0..2] == w;
    HeardAs(d.core.node, Tpdo2(w));
  }

  /** A target position frame followed by a SYNC sets 607Ah to exactly the commanded counts and nothing else. */
  lemma TargetLayoutAgrees(c: Core, counts: int)
    requires IsNode(c.node) && c.nmt == Operational && RpdoConfigured(c) && IsInt32(counts)
    ensures var m := Decode(c.node, TargetPositionFrame(c.node, counts));
            && m.Some?
            && CoreExec(c, m.value) == c.(buffer := Some(Le(ToU32(counts), 4)))
            && CoreExec(CoreExec(c, m.value), Sync) == c.(buffer := None, target := counts)
  {
    TargetPositionDecodes(c.node, counts, c.node);
    UnpackTarget(c, counts);
    var p := Le(ToU32(counts), 4);
    var c1 := c.(buffer := Some(p));
    UnpackTarget(c1, counts);
    assert ReceivePdo(c, p) == c1;
    assert ReceiveSync(c1) == c1.(target := counts, buffer := None);
  }

  lemma CountsOnTheWire(x: int)
    requires IsInt32(x)
    ensures ToI32(LeValue(Le(ToU32(x), 4)) % TWO_32) == x
  {
    Pow256Values();
    LeRoundTrip(ToU32(x), 4);
    SignedRoundTrip(x);
  }

  lemma UnpackTarget(c: Core, counts: int)
    requires RpdoConfigured(c) && IsInt32(counts)
    ensures MappedBytes(c.rpdo1.entries, 0, 1) == 4
    ensures Unpack(c, c.rpdo1.entries, 0, 1, Le(ToU32(counts), 4)) == c.(target := counts)
  {
    EntryFields();
    CountsOnTheWire(counts);
    hide Le, LeValue, ToI32, ToU32, EntryBytes, EntryIndex;
    var es := c.rpdo1.entries;
    var p := Le(ToU32(counts), 4);
    assert MappedBytes(es, 1, 1) == 0;
    assert p[..4] == p;
    assert Unpack(c.(target := counts), es, 1, 1, p[4..]) == c.(target := counts);
  }
}
