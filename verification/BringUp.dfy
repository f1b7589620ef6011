// What configure_node's object writes do to a drive, write by write.

module BringUp {
  import opened Wrappers
  import opened PxxCan
  import opened Cia402Drive
  import opened CanNetwork
  import opened SdoTransactions
  import opened CyclicOperation
  import opened Sending

  /** Nothing under way to the drive, no SDO answer under way from it. */
  predicate Quiet(l: Link) {
    l.down == [] && NoSdo(l)
  }

  predicate NoMotionUnderWay(l: Link) {
    forall i :: 0 <= i < |l.up| ==> !l.up[i].msg.Tpdo1?
  }

  /** What a completed exchange that is no control word leaves alone. */
  predicate Calmly(a: Link, ta: nat, l: Link, t: nat) {
    && ta <= t && l.lost == a.lost
    && l.drive.clearable == a.drive.clearable && l.drive.core.node == a.drive.core.node
    && EnvPower(a.drive.power, l.drive.power)
    && (t == ta && Settled(a.drive.power) ==> l.drive.power == a.drive.power)
  }

  /** An acknowledged write: the object dictionary took exactly this value. */
  predicate Entered(a: Link, ta: nat, l: Link, t: nat, m: HostMessage)
    requires m.SdoWrite?
  {
    && a.drive.core.nmt != Stopped
    && WriteObject(a.drive.core, m.index, m.subindex, m.value, m.size) == Some(l.drive.core)
    && Quiet(l) && Calmly(a, ta, l, t) && l.reported == a.reported
    && (l.drive.core.nmt == PreOperational ==> NoMotionUnderWay(l))
  }

  predicate Accepts(c: Core, m: HostMessage)
    requires m.SdoWrite?
  {
    c.nmt != Stopped && WriteObject(c, m.index, m.subindex, m.value, m.size).Some?
  }

  predicate Written(w0: World, w: World, n: nat, m: HostMessage, ok: bool)
    requires m.SdoWrite?
  {
    && n in w0.links && n in w.links && OthersKept(w0, w, n) && w0.links[n].lost <= w.links[n].lost
    && (KeepsSilence(m) ==> SeedKept(w0, w, n))
    && var a, l := w0.links[n], w.links[n];
    && (Quiet(a) && ok ==> Entered(a, w0.trouble, l, w.trouble, m))
    && (Quiet(a) && w.trouble == w0.trouble && Accepts(a.drive.core, m) ==> ok)
  }

  lemma WriteAnswer(d: Drive, m: HostMessage)
    requires m.SdoWrite?
    ensures Answer(d, m).Some? ==> d.core.nmt != Stopped
    ensures Answer(d, m).Some? ==> !Answer(d, m).value.Data?
    ensures Answer(d, m).Some? ==>
              (Answer(d, m).value.Abort? <==> WriteObject(d.core, m.index, m.subindex, m.value, m.size).None?)
    ensures Answer(d, m).Some? && !Answer(d, m).value.Abort? ==>
              WriteObject(d.core, m.index, m.subindex, m.value, m.size) == Some(CoreExec(d.core, m))
    ensures !IsControl(m) ==> PowerExec(d, m) == d.power
  {
  }

  lemma EnvPowerTrans(p: Power, q: Power, r: Power)
    requires EnvPower(p, q) && EnvPower(q, r)
    ensures EnvPower(p, r)
  {
  }

  lemma EndsWritten(w0: World, w: World, n: nat, r: Request, answer: DriveMessage, ok: bool, value: Word32)
    requires Ends(w0, w, n, r, answer, ok, value) && r.msg.SdoWrite? && !IsControl(r.msg)
    ensures Written(w0, w, n, r.msg, ok)
  {
    hide OthersKept, SeedKept, NoSdo, Answer, CoreExec, PowerExec, WriteObject, Fold, IsControl, EnvPower;
    var a, l := w0.links[n], w.links[n];
    if Quiet(a) && (ok || w.trouble == w0.trouble) {
      var b := l.last.value.before;
      WriteAnswer(b, r.msg);
      EnvPowerTrans(a.drive.power, b.power, l.drive.power);
    }
  }

  // Remapping the PDOs ---------------------------------------------------------------------------------------

  const TARGET_ENTRY: nat := MapEntry(TARGET_POSITION, 0, 32)
  const POSITION_ENTRY: nat := MapEntry(POSITION_ACTUAL, 0, 32)
  const VELOCITY_ENTRY: nat := MapEntry(VELOCITY_ACTUAL, 0, 32)
  const STATUS_ENTRY: nat := MapEntry(STATUS_WORD, 0, 16)

  /** A PDO after k of the writes that remap it to a single entry. */
  function OneEntry(p: Pdo, id: nat, entry: nat, k: nat): Pdo {
    if k == 0 then p
    else if k == 1 then p.(disabled := true, cobId := id)
    else if k == 2 then p.(disabled := true, cobId := id, count := 0)
    else if k == 3 then p.(disabled := true, cobId := id, count := 0, entries := p.entries[1 := entry])
    else if k == 4 then p.(disabled := true, cobId := id, count := 1, entries := p.entries[1 := entry])
    else Pdo(k == 5, id, SYNC_EVERY, 1, p.entries[1 := entry])
  }

  /** A PDO after k of the writes that remap it to two entries. */
  function TwoEntries(p: Pdo, id: nat, e1: nat, e2: nat, k: nat): Pdo {
    if k == 0 then p
    else if k == 1 then p.(disabled := true, cobId := id)
    else if k == 2 then p.(disabled := true, cobId := id, count := 0)
    else if k == 3 then p.(disabled := true, cobId := id, count := 0, entries := p.entries[1 := e1])
    else if k == 4 then p.(disabled := true, cobId := id, count := 0, entries := p.entries[1 := e1][2 := e2])
    else if k == 5 then p.(disabled := true, cobId := id, count := 2, entries := p.entries[1 := e1][2 := e2])
    else Pdo(k == 6, id, SYNC_EVERY, 2, p.entries[1 := e1][2 := e2])
  }

  /** The host may take this PDO over: it is not in use, or in use under its pre-defined id. */
  predicate Free(p: Pdo, id: nat) {
    p.disabled || p.cobId == id
  }

  predicate Step1(o: Option<Pdo>, p: Pdo, sure: bool) {
    (o == None || o == Some(p)) && (sure ==> o == Some(p))
  }

  lemma MappableBytes(e: nat, receive: bool)
    requires Mappable(e, receive)
    ensures EntryBytes(e) <= 4
  {
  }

  lemma CompleteOne(p: Pdo, receive: bool)
    requires 1 in p.entries && Mappable(p.entries[1], receive)
    ensures MappingComplete(p, 0, receive) && MappingComplete(p, 1, receive)
  {
    hide Mappable, EntryBytes;
    MappableBytes(p.entries[1], receive);
    assert MappedBytes(p.entries, 1, 1) == 0;
  }

  lemma CompleteTwo(p: Pdo, receive: bool)
    requires 1 in p.entries && Mappable(p.entries[1], receive) && 2 in p.entries && Mappable(p.entries[2], receive)
    ensures MappingComplete(p, 2, receive)
  {
    hide Mappable, EntryBytes;
    MappableBytes(p.entries[1], receive);
    MappableBytes(p.entries[2], receive);
    assert MappedBytes(p.entries, 2, 2) == 0;
    assert MappedBytes(p.entries, 1, 2) == EntryBytes(p.entries[2]);
  }

  lemma CompleteNone(p: Pdo, receive: bool)
    ensures MappingComplete(p, 0, receive)
  {
    assert MappedBytes(p.entries, 0, 0) == 0;
  }

  lemma OneEntrySteps(p: Pdo, id: nat, entry: nat, nmt: NmtState, receive: bool)
    requires id < PDO_DISABLED && Mappable(entry, receive)
    ensures var can := nmt == PreOperational;
            && Step1(WriteCommunication(p, 1, PDO_DISABLED + id, 4), OneEntry(p, id, entry, 1), Free(p, id))
            && Step1(WriteMapping(OneEntry(p, id, entry, 1), nmt, receive, 0, 0, 1), OneEntry(p, id, entry, 2), can)
            && Step1(WriteMapping(OneEntry(p, id, entry, 2), nmt, receive, 1, entry, 4), OneEntry(p, id, entry, 3), can)
            && Step1(WriteMapping(OneEntry(p, id, entry, 3), nmt, receive, 0, 1, 1), OneEntry(p, id, entry, 4), can)
            && Step1(WriteCommunication(OneEntry(p, id, entry, 4), 2, SYNC_EVERY, 1), OneEntry(p, id, entry, 5), true)
            && Step1(WriteCommunication(OneEntry(p, id, entry, 5), 1, id, 4), OneEntry(p, id, entry, 6), true)
            && (nmt != PreOperational ==>
                  WriteMapping(OneEntry(p, id, entry, 1), nmt, receive, 0, 0, 1) == None)
  {
    hide Mappable, MappingComplete;
    CompleteNone(OneEntry(p, id, entry, 1), receive);
    CompleteOne(OneEntry(p, id, entry, 3), receive);
  }

  lemma TwoEntriesSteps(p: Pdo, id: nat, e1: nat, e2: nat, nmt: NmtState, receive: bool)
    requires id < PDO_DISABLED && Mappable(e1, receive) && Mappable(e2, receive)
    ensures var can := nmt == PreOperational;
            && Step1(WriteCommunication(p, 1, PDO_DISABLED + id, 4), TwoEntries(p, id, e1, e2, 1), Free(p, id))
            && Step1(WriteMapping(TwoEntries(p, id, e1, e2, 1), nmt, receive, 0, 0, 1),
                     TwoEntries(p, id, e1, e2, 2), can)
            && Step1(WriteMapping(TwoEntries(p, id, e1, e2, 2), nmt, receive, 1, e1, 4),
                     TwoEntries(p, id, e1, e2, 3), can)
            && Step1(WriteMapping(TwoEntries(p, id, e1, e2, 3), nmt, receive, 2, e2, 4),
                     TwoEntries(p, id, e1, e2, 4), can)
            && Step1(WriteMapping(TwoEntries(p, id, e1, e2, 4), nmt, receive, 0, 2, 1),
                     TwoEntries(p, id, e1, e2, 5), can)
            && Step1(WriteCommunication(TwoEntries(p, id, e1, e2, 5), 2, SYNC_EVERY, 1),
                     TwoEntries(p, id, e1, e2, 6), true)
            && Step1(WriteCommunication(TwoEntries(p, id, e1, e2, 6), 1, id, 4), TwoEntries(p, id, e1, e2, 7), true)
            && (nmt != PreOperational ==>
                  WriteMapping(TwoEntries(p, id, e1, e2, 1), nmt, receive, 0, 0, 1) == None)
  {
    hide Mappable, MappingComplete;
    CompleteNone(TwoEntries(p, id, e1, e2, 1), receive);
    CompleteTwo(TwoEntries(p, id, e1, e2, 4), receive);
  }

  lemma Entries()
    ensures Mappable(TARGET_ENTRY, true) && Mappable(POSITION_ENTRY, false) && Mappable(VELOCITY_ENTRY, false)
    ensures Mappable(STATUS_ENTRY, false)
    ensures TARGET_ENTRY < TWO_32 && POSITION_ENTRY < TWO_32 && VELOCITY_ENTRY < TWO_32 && STATUS_ENTRY < TWO_32
  {
  }

  function RpdoStage(c: Core, k: nat): Core {
    if k == 0 then c else c.(rpdo1 := OneEntry(c.rpdo1, RPDO1 + c.node, TARGET_ENTRY, k), buffer := None)
  }

  function Tpdo1Stage(c: Core, k: nat): Core {
    c.(tpdo1 := TwoEntries(c.tpdo1, TPDO1 + c.node, POSITION_ENTRY, VELOCITY_ENTRY, k))
  }

  function Tpdo2Stage(c: Core, k: nat): Core {
    c.(tpdo2 := OneEntry(c.tpdo2, TPDO2 + c.node, STATUS_ENTRY, k))
  }

  predicate Step2(o: Option<Core>, c: Core, sure: bool) {
    (o == None || o == Some(c)) && (sure ==> o == Some(c))
  }

  /** Each of the six RPDO1 writes either is refused or does its part; none is refused by a pre-operational drive. */
  lemma RpdoSteps(c: Core)
    requires IsNode(c.node)
    ensures var id := RPDO1 + c.node;
            var can := c.nmt == PreOperational && Free(c.rpdo1, id);
            && Step2(WriteObject(c, RPDO1_COMMUNICATION, 1, PDO_DISABLED + id, 4), RpdoStage(c, 1), can)
            && Step2(WriteObject(RpdoStage(c, 1), RPDO1_MAPPING, 0, 0, 1), RpdoStage(c, 2), can)
            && (WriteObject(RpdoStage(c, 1), RPDO1_MAPPING, 0, 0, 1).Some? ==> c.nmt == PreOperational)
            && Step2(WriteObject(RpdoStage(c, 2), RPDO1_MAPPING, 1, TARGET_ENTRY, 4), RpdoStage(c, 3), can)
            && Step2(WriteObject(RpdoStage(c, 3), RPDO1_MAPPING, 0, 1, 1), RpdoStage(c, 4), can)
            && Step2(WriteObject(RpdoStage(c, 4), RPDO1_COMMUNICATION, 2, SYNC_EVERY, 1), RpdoStage(c, 5), can)
            && Step2(WriteObject(RpdoStage(c, 5), RPDO1_COMMUNICATION, 1, id, 4), RpdoStage(c, 6), can)
            && RpdoConfigured(RpdoStage(c, 6))
  {
    hide WriteCommunication, WriteMapping, Mappable, MapEntry;
    Entries();
    OneEntrySteps(c.rpdo1, RPDO1 + c.node, TARGET_ENTRY, c.nmt, true);
  }

  lemma Tpdo1Steps(c: Core)
    requires IsNode(c.node)
    ensures var id := TPDO1 + c.node;
            var can := c.nmt == PreOperational && Free(c.tpdo1, id);
            && Step2(WriteObject(c, TPDO1_COMMUNICATION, 1, PDO_DISABLED + id, 4), Tpdo1Stage(c, 1), can)
            && Step2(WriteObject(Tpdo1Stage(c, 1), TPDO1_MAPPING, 0, 0, 1), Tpdo1Stage(c, 2), can)
            && (WriteObject(Tpdo1Stage(c, 1), TPDO1_MAPPING, 0, 0, 1).Some? ==> c.nmt == PreOperational)
            && Step2(WriteObject(Tpdo1Stage(c, 2), TPDO1_MAPPING, 1, POSITION_ENTRY, 4), Tpdo1Stage(c, 3), can)
            && Step2(WriteObject(Tpdo1Stage(c, 3), TPDO1_MAPPING, 2, VELOCITY_ENTRY, 4), Tpdo1Stage(c, 4), can)
            && Step2(WriteObject(Tpdo1Stage(c, 4), TPDO1_MAPPING, 0, 2, 1), Tpdo1Stage(c, 5), can)
            && Step2(WriteObject(Tpdo1Stage(c, 5), TPDO1_COMMUNICATION, 2, SYNC_EVERY, 1), Tpdo1Stage(c, 6), can)
            && Step2(WriteObject(Tpdo1Stage(c, 6), TPDO1_COMMUNICATION, 1, id, 4), Tpdo1Stage(c, 7), can)
            && Tpdo1Configured(Tpdo1Stage(c, 7))
  {
    hide WriteCommunication, WriteMapping, Mappable, MapEntry;
    Entries();
    TwoEntriesSteps(c.tpdo1, TPDO1 + c.node, POSITION_ENTRY, VELOCITY_ENTRY, c.nmt, false);
  }

  lemma Tpdo2Steps(c: Core)
    requires IsNode(c.node)
    ensures var id := TPDO2 + c.node;
            var can := c.nmt == PreOperational && Free(c.tpdo2, id);
            && Step2(WriteObject(c, TPDO2_COMMUNICATION, 1, PDO_DISABLED + id, 4), Tpdo2Stage(c, 1), can)
            && Step2(WriteObject(Tpdo2Stage(c, 1), TPDO2_MAPPING, 0, 0, 1), Tpdo2Stage(c, 2), can)
            && (WriteObject(Tpdo2Stage(c, 1), TPDO2_MAPPING, 0, 0, 1).Some? ==> c.nmt == PreOperational)
            && Step2(WriteObject(Tpdo2Stage(c, 2), TPDO2_MAPPING, 1, STATUS_ENTRY, 4), Tpdo2Stage(c, 3), can)
            && Step2(WriteObject(Tpdo2Stage(c, 3), TPDO2_MAPPING, 0, 1, 1), Tpdo2Stage(c, 4), can)
            && Step2(WriteObject(Tpdo2Stage(c, 4), TPDO2_COMMUNICATION, 2, SYNC_EVERY, 1), Tpdo2Stage(c, 5), can)
            && Step2(WriteObject(Tpdo2Stage(c, 5), TPDO2_COMMUNICATION, 1, id, 4), Tpdo2Stage(c, 6), can)
            && Tpdo2Configured(Tpdo2Stage(c, 6))
  {
    hide WriteCommunication, WriteMapping, Mappable, MapEntry;
    Entries();
    OneEntrySteps(c.tpdo2, TPDO2 + c.node, STATUS_ENTRY, c.nmt, false);
  }

  /** A run of accepted object writes leading from core c to core `done`; `can` says when none can be refused. */
  predicate Mapped(w0: World, w: World, n: nat, done: Core, can: bool, ok: bool) {
    && n in w0.links && n in w.links && OthersKept(w0, w, n)
    && var a, l := w0.links[n], w.links[n];
    && (ok ==> && Quiet(l) && Calmly(a, w0.trouble, l, w.trouble) && l.reported == a.reported
               && l.drive.core == done)
    && (w.trouble == w0.trouble && can ==> ok)
  }

  lemma MappedStart(w: World, n: nat, can: bool)
    requires n in w.links && Quiet(w.links[n])
    ensures Mapped(w, w, n, w.links[n].drive.core, can, true)
  {
    SinceRefl(w);
    forall k | k in w.links && k != n ensures Kept(w, w, k) { DriftRefl(w.links[k], w.trouble); hide Drift, Silent; }
  }

  /** One more write of such a run. */
  lemma MappedStep(w0: World, w1: World, w2: World, n: nat, c1: Core, c2: Core, can: bool, m: HostMessage, ok: bool)
    requires Mapped(w0, w1, n, c1, can, true) && m.SdoWrite? && Written(w1, w2, n, m, ok)
    requires c1.nmt != Stopped
    requires Step2(WriteObject(c1, m.index, m.subindex, m.value, m.size), c2, can)
    ensures Mapped(w0, w2, n, c2, can, ok)
    ensures ok ==> WriteObject(c1, m.index, m.subindex, m.value, m.size) == Some(c2)
    ensures ok && c2.nmt == PreOperational ==> NoMotionUnderWay(w2.links[n])
  {
    hide Kept, NoSdo, WriteObject, EnvPower, Silent;
    OthersKeptTrans(w0, w1, w2, n);
    var a, b, l := w0.links[n], w1.links[n], w2.links[n];
    if ok { EnvPowerTrans(a.drive.power, b.drive.power, l.drive.power); }
  }

  lemma MappedStop(w0: World, w1: World, n: nat, c1: Core, c2: Core, can: bool)
    requires Mapped(w0, w1, n, c1, can, false)
    ensures Mapped(w0, w1, n, c2, can, false)
  {
  }

  // Control words and reads ----------------------------------------------------------------------------------

  function Control(word: Word32): HostMessage {
    SdoWrite(CONTROL_WORD, 0, word, 2)
  }

  /** An acknowledged control word, sent with at most NMT commands and control words ahead of it. */
  predicate Acknowledged(a: Link, ta: nat, l: Link, t: nat, word: Word32) {
    && Quiet(l) && Similar(a.drive.core, l.drive.core) && l.drive.core.nmt != Stopped && l.reported == a.reported
    && ta <= t && a.lost <= l.lost && (t == ta ==> l.lost == a.lost)
    && l.drive.clearable == a.drive.clearable
    && (l.lost == a.lost ==> l.drive.core == Fold(a.drive.core, a.down).(bit7 := Bit(word, 7)))
    && (a.down == [] ==> l.lost == a.lost)
    && (OneNmt(a.down) ==> l.lost == a.lost ||
                           (l.lost == a.lost + 1 && l.drive.core == a.drive.core.(bit7 := Bit(word, 7))))
    && (word == ENABLE_OPERATION ==> l.drive.power != QuickStopActive)
    && (t == ta && Settled(a.drive.power) && NoControl(a.down) ==>
          && l.drive.power == ApplyControl(a.drive.power, a.drive.clearable, Fold(a.drive.core, a.down).bit7, word)
          && Settled(l.drive.power))
  }

  lemma ControlAnswer(d: Drive, word: Word32)
    ensures Answer(d, Control(word)).Some? ==>
              d.core.nmt != Stopped && !Answer(d, Control(word)).value.Abort? && !Answer(d, Control(word)).value.Data?
    ensures d.core.nmt != Stopped ==> CoreExec(d.core, Control(word)) == d.core.(bit7 := Bit(word, 7))
    ensures d.core.nmt != Stopped ==>
              PowerExec(d, Control(word)) == ApplyControl(d.power, d.clearable, d.core.bit7, word)
    ensures PowerExec(d, Control(ENABLE_OPERATION)) == QuickStopActive ==> d.core.nmt == Stopped
  {
  }

  lemma EndsControl(w0: World, w: World, n: nat, r: Request, answer: DriveMessage, ok: bool, value: Word32,
                    word: Word32)
    requires Ends(w0, w, n, r, answer, ok, value) && r.msg == Control(word)
    requires NoSdo(w0.links[n]) && AllInert(w0.links[n].down)
    ensures ok ==> Acknowledged(w0.links[n], w0.trouble, w.links[n], w.trouble, word)
    ensures w.trouble == w0.trouble ==> ok
  {
    hide OthersKept, SeedKept, NoSdo, Answer, CoreExec, PowerExec, WriteObject, Fold, AllInert, NoControl,
         ApplyControl, Bit;
    if ok || w.trouble == w0.trouble {
      ControlAnswer(w.links[n].last.value.before, word);
    }
  }

  /** A completed upload: `before` is the drive that answered. */
  predicate Uploaded(a: Link, ta: nat, l: Link, t: nat, index: Word16, value: Word32) {
    && Quiet(l) && l.drive.core == a.drive.core && a.drive.core.nmt != Stopped
    && Calmly(a, ta, l, t) && l.last.Some?
    && var b := l.last.value.before;
    && value == ObjectValue(b, index) && l.last.value.request.msg == SdoRead(index, 0)
    && EnvPower(a.drive.power, b.power)
    && (t == ta && Settled(a.drive.power) ==> b.power == a.drive.power)
    && (index != POSITION_ACTUAL ==> l.reported == a.reported)
    && (index == POSITION_ACTUAL ==>
          IsInt32(b.position) && l.reported == Some(Reading(b.position, l.last.value.request.epoch)))
    && (l.drive.core.nmt == PreOperational ==> NoMotionUnderWay(l))
  }

  lemma ReadAnswer(d: Drive, index: Word16)
    requires index in {POSITION_ACTUAL, STATUS_WORD, ERROR_CODE}
    ensures Answer(d, SdoRead(index, 0)).Some? ==>
              && d.core.nmt != Stopped
              && Answer(d, SdoRead(index, 0)).value.Data? &&
                  Answer(d, SdoRead(index, 0)).value.value == ObjectValue(d, index)
    ensures CoreExec(d.core, SdoRead(index, 0)) == d.core && PowerExec(d, SdoRead(index, 0)) == d.power
  {
  }

  lemma EndsRead(w0: World, w: World, n: nat, r: Request, answer: DriveMessage, ok: bool, value: Word32, index: Word16)
    requires Ends(w0, w, n, r, answer, ok, value) && r.msg == SdoRead(index, 0)
    requires index in {POSITION_ACTUAL, STATUS_WORD, ERROR_CODE} && Quiet(w0.links[n])
    ensures ok ==> Uploaded(w0.links[n], w0.trouble, w.links[n], w.trouble, index, value)
    ensures ok ==> w.links[n].last.value.request.epoch == r.epoch
    ensures w.trouble == w0.trouble ==> ok
  {
    hide OthersKept, SeedKept, NoSdo, Answer, CoreExec, PowerExec, WriteObject, Fold, ObjectValue, EnvPower;
    if ok || w.trouble == w0.trouble {
      var b := w.links[n].last.value.before;
      ReadAnswer(b, index);
      EnvPowerTrans(w0.links[n].drive.power, b.power, w.links[n].drive.power);
    }
  }

  // Sending to one drive -------------------------------------------------------------------------------------

  lemma MaySendToOne(w: World, f: Frame, n: nat, m: HostMessage, epoch: nat, next: nat)
    requires ForNodeOnly(f, n, m) && n in w.links && WorldOk(w, next) && MayPush(w.links[n], m, epoch)
    ensures MaySend(w, f, epoch)
  {
    WorldNodes(w, next);
    hide Decode, WorldOk, MayPush;
  }

  lemma WriteForNode(n: nat, index: Word16, subindex: Byte, value: Word32, size: SdoSize)
    requires IsNode(n) && value < Pow256(size)
    ensures ForNodeOnly(SdoWriteFrame(n, index, subindex, value, size), n, SdoWrite(index, subindex, value, size))
  {
    hide SdoWriteFrame, Decode, Pow256;
    forall k | IsNode(k)
      ensures Decode(k, SdoWriteFrame(n, index, subindex, value, size)) ==
              if k == n then Some(SdoWrite(index, subindex, value, size)) else None
    {
      SdoWriteDecodes(n, index, subindex, value, size, k);
      SmallRemainder(value, Pow256(size));
    }
  }

  lemma SmallRemainder(x: nat, d: nat)
    requires x < d
    ensures x % d == x
  {
  }

  lemma ReadForNode(n: nat, index: Word16, subindex: Byte)
    requires IsNode(n)
    ensures ForNodeOnly(SdoReadFrame(n, index, subindex), n, SdoRead(index, subindex))
  {
    hide SdoReadFrame, Decode;
    forall k | IsNode(k)
      ensures Decode(k, SdoReadFrame(n, index, subindex)) == if k == n then Some(SdoRead(index, subindex)) else None
    {
      SdoReadDecodes(n, index, subindex, k);
    }
  }

  lemma NmtForNode(n: nat, command: Byte)
    requires IsNode(n)
    ensures ForNodeOnly(NmtFrame(command, n), n, Nmt(command))
  {
    hide NmtFrame, Decode;
    forall k | IsNode(k) ensures Decode(k, NmtFrame(command, n)) == if k == n then Some(Nmt(command)) else None {
      NmtAndSyncDecode(command, n, k);
    }
  }

  lemma PlainWrite(l: Link, m: HostMessage, epoch: nat)
    requires m.SdoWrite? && m.index != CONTROL_WORD
    ensures MayPush(l, m, epoch) && !IsControl(m)
  {
  }

  lemma StageKeepsNmt(c: Core)
    ensures forall k :: RpdoStage(c, k).nmt == c.nmt
    ensures forall k :: Tpdo1Stage(c, k).nmt == c.nmt
    ensures forall k :: Tpdo2Stage(c, k).nmt == c.nmt
  {
  }

  lemma RpdoStageStarts(c: Core)
    ensures RpdoStage(c, 0) == c
  {
  }

  lemma Tpdo1StageStarts(c: Core)
    ensures Tpdo1Stage(c, 0) == c
  {
  }

  lemma Tpdo2StageStarts(c: Core)
    ensures Tpdo2Stage(c, 0) == c
  {
  }

  lemma EndsHere(w0: World, w: World, n: nat, r: Request, answer: DriveMessage, ok: bool, value: Word32)
    requires Ends(w0, w, n, r, answer, ok, value)
    ensures n in w.links && OthersKept(w0, w, n) && n in w0.links && w0.links[n].lost <= w.links[n].lost
  {
  }

  lemma MappedHere(w0: World, w: World, n: nat, done: Core, can: bool, ok: bool)
    requires Mapped(w0, w, n, done, can, ok)
    ensures n in w.links && OthersKept(w0, w, n)
  {
  }

  // NMT commands, fault reset and mode -----------------------------------------------------------------------

  predicate NmtSent(a: Link, ta: nat, l: Link, t: nat, command: Byte) {
    && ta <= t && a.lost <= l.lost && (t == ta ==> l.lost == a.lost) && l.drive.clearable == a.drive.clearable
    && (Bit7Clear(a) ==> Bit7Clear(l))
    && (t == ta ==> Carried(a, l, Nmt(command)))
    && (Quiet(a) ==>
          && |l.down| == 1 && l.down[0].msg == Nmt(command) && NoSdo(l) && l.lost == a.lost
          && l.drive.core == a.drive.core && l.reported == a.reported
          && EnvPower(a.drive.power, l.drive.power)
          && (t == ta && Settled(a.drive.power) ==> l.drive.power == a.drive.power))
  }

  lemma PushNmt(a: Link, ta: nat, l: Link, t: nat, command: Byte, id: nat, epoch: nat)
    requires command != 0x02
    requires Drift(a, ta, l, t)
    ensures NmtSent(a, ta, Push(l, Some(Nmt(command)), id, epoch), t, command)
  {
    hide CoreExec, Fold, Armed, PowerFold, Carried;
    RisingAppend(l.drive.core.bit7, l.down, Request(id, epoch, Nmt(command)));
    if t == ta { PushCarries(a, ta, l, Nmt(command), id, epoch); }
  }

  lemma PushCarries(a: Link, ta: nat, l: Link, m: HostMessage, id: nat, epoch: nat)
    requires Drift(a, ta, l, ta)
    ensures Carried(a, Push(l, Some(m), id, epoch), m)
  {
    hide CoreExec, NextPower, Fold, PowerFold, Bit7Clear, NoSdo, NoControl, Similar, Inert;
    FoldAppend(l.drive.core, l.down, Request(id, epoch, m));
    PowerFoldAppend(l.drive.core, l.drive.power, l.drive.clearable, l.down, Request(id, epoch, m));
  }

  lemma NmtCourse(w0: World, cs: seq<Choice>, w: World, f: Frame, n: nat, command: Byte, id: nat, epoch: nat, ok: bool)
    requires WorldOk(w0, id) && AllStale(w0, id) && n in w0.links && ForNodeOnly(f, n, Nmt(command)) && command != 0x02
    requires var mid := Run(w0, cs, All); w == if ok then Broadcast(mid, f, id, epoch) else Failed(mid, f)
    ensures OthersKept(w0, w, n) && n in w.links && SeedKept(w0, w, n)
    ensures AllStale(w, id + if ok then 1 else 0)
    ensures ok ==> NmtSent(w0.links[n], w0.trouble, w.links[n], w.trouble, command)
    ensures !ok ==> w0.trouble < w.trouble
    ensures w0.links[n].lost <= w.links[n].lost
  {
    hide WorldOk, AllStale, Run, Drift, Kept, Silent, ForNodeOnly, Decode, Broadcast, Failed, Push, Miss, NmtSent;
    var mid := Run(w0, cs, All);
    WorldOkRun(w0, id, cs, All);
    RunKeepsAllStale(w0, cs, All, id);
    RunDrifts(w0, cs, All);
    RunKeepsOthers(w0, cs, All, n);
    RunTrouble(w0, cs, All);
    NodesAreNodes(mid, id);
    BroadcastKeepsOthers(mid, f, n, Nmt(command), id, epoch);
    OthersKeptTrans(w0, mid, w, n);
    SentLost(w0.links[n], w0.trouble, mid.links[n], mid.trouble, Nmt(command), id, epoch);
    if ok {
      assert w.links[n] == Push(mid.links[n], Some(Nmt(command)), id, epoch);
      PushNmt(w0.links[n], w0.trouble, mid.links[n], mid.trouble, command, id, epoch);
      BroadcastTrouble(mid, f, id, epoch);
      BroadcastStale(mid, f, n, Nmt(command), id, epoch);
    } else {
      FailedStale(mid, f, id);
      FailedTrouble(mid, f);
    }
  }

  lemma SentLost(a: Link, ta: nat, l: Link, t: nat, m: HostMessage, id: nat, epoch: nat)
    requires Drift(a, ta, l, t)
    ensures a.lost <= Push(l, Some(m), id, epoch).lost && a.lost <= Miss(l, Some(m)).lost
  {
  }

  lemma NodesAreNodes(w: World, next: nat)
    requires WorldOk(w, next)
    ensures forall k :: k in w.links ==> IsNode(k)
  {
    WorldNodes(w, next);
  }

  lemma BroadcastTrouble(w: World, f: Frame, id: nat, epoch: nat)
    ensures Broadcast(w, f, id, epoch).trouble == w.trouble
  {
  }

  lemma FailedTrouble(w: World, f: Frame)
    ensures Failed(w, f).trouble == w.trouble + 1
  {
  }

  lemma BroadcastStale(w: World, f: Frame, n: nat, m: HostMessage, id: nat, epoch: nat)
    requires WorldOk(w, id) && AllStale(w, id) && ForNodeOnly(f, n, m)
    requires IsSdoRequest(m) ==> IsControlKey(m.index, m.subindex)
    ensures AllStale(Broadcast(w, f, id, epoch), id + 1)
  {
    var w' := Broadcast(w, f, id, epoch);
    WorldNodes(w, id);
    forall k | k in w'.links ensures StaleQueues(w'.links[k], w'.expired, id + 1) {
      hide StaleQueues, LinkOk, Decode, Push;
      var l := w.links[k];
      StaleLater(k, l, StoredFor(w, k), w.expired, id);
      if k == n { StalePush(k, l, StoredFor(w, k), m, w.expired, id, epoch); } else { PushNothing(l, id, epoch); }
    }
  }

  /** The mode write is acknowledged only by a drive that took it, whatever was left over before. */
  lemma EndsMode(w0: World, w: World, n: nat, r: Request, answer: DriveMessage, value: Word32)
    requires Ends(w0, w, n, r, answer, true, value)
    requires r.msg == SdoWrite(MODE_OF_OPERATION, 0, CYCLIC_SYNC_POSITION, 1)
    ensures Quiet(w.links[n]) && w.links[n].drive.core.mode == CYCLIC_SYNC_POSITION &&
            w.links[n].drive.core.nmt != Stopped
  {
    hide OthersKept, SeedKept, NoSdo, Fold, AllInert, NoControl, EnvPower;
    WriteAnswer(w.links[n].last.value.before, r.msg);
    ModeWrite(w.links[n].last.value.before.core);
    hide Answer, CoreExec, WriteObject, PowerExec;
  }

  /** Without trouble no drive refuses the mode. */
  lemma ModeAccepted(w0: World, w: World, n: nat, r: Request, answer: DriveMessage, ok: bool, value: Word32)
    requires Ends(w0, w, n, r, answer, ok, value) && w.trouble == w0.trouble
    requires r.msg == SdoWrite(MODE_OF_OPERATION, 0, CYCLIC_SYNC_POSITION, 1)
    ensures ok && Carried(w0.links[n], w.links[n], r.msg)
  {
    hide OthersKept, SeedKept, NoSdo, Fold, AllInert, NoControl, EnvPower, Carried, Ahead;
    WriteAnswer(w.links[n].last.value.before, r.msg);
    ModeWrite(w.links[n].last.value.before.core);
    hide Answer, CoreExec, WriteObject, PowerExec;
  }

  lemma ModeWrite(c: Core)
    ensures WriteObject(c, MODE_OF_OPERATION, 0, CYCLIC_SYNC_POSITION, 1) == Some(c.(mode := CYCLIC_SYNC_POSITION))
    ensures c.nmt != Stopped ==>
              CoreExec(c, SdoWrite(MODE_OF_OPERATION, 0, CYCLIC_SYNC_POSITION, 1)) == c.(mode := CYCLIC_SYNC_POSITION)
  {
  }

  lemma OneInert(l: Link, command: Byte)
    requires |l.down| == 1 && l.down[0].msg == Nmt(command)
    ensures AllInert(l.down) && NoControl(l.down)
    ensures Fold(l.drive.core, l.down) == CoreExec(l.drive.core, Nmt(command))
    ensures command == NMT_START ==> Fold(l.drive.core, l.down) == l.drive.core.(nmt := Operational)
    ensures command == NMT_PRE_OPERATIONAL ==> Fold(l.drive.core, l.down) == l.drive.core.(nmt := PreOperational)
  {
    assert l.down[1..] == [];
    assert Fold(CoreExec(l.drive.core, l.down[0].msg), l.down[1..]) == CoreExec(l.drive.core, l.down[0].msg);
  }

  lemma ControlMayPush(l: Link, word: Word32, epoch: nat)
    requires word == FAULT_RESET ==> Bit7Clear(l)
    requires word in {FAULT_RESET, SHUTDOWN, SWITCH_ON, ENABLE_OPERATION}
    requires word == ENABLE_OPERATION ==> l.down == [] && ReadyToEnable(l, epoch)
    ensures MayPush(l, Control(word), epoch)
  {
  }

  // Seeding and enabling -------------------------------------------------------------------------------------

  /** The drive's target is the position it has just reported. */
  predicate SeededAt(a: Link, ta: nat, l: Link, t: nat, epoch: nat, position: Word32) {
    && Quiet(l) && l.drive.core == a.drive.core.(target := ToI32(position))
    && l.reported == Some(Reading(ToI32(position), epoch)) && Calmly(a, ta, l, t)
    && (l.drive.core.nmt == PreOperational ==> NoMotionUnderWay(l))
  }

  lemma TargetWrite(c: Core, value: Word32)
    ensures WriteObject(c, TARGET_POSITION, 0, value, 4) == Some(c.(target := ToI32(value)))
  {
    SmallRemainder(value, TWO_32);
  }

  lemma SeedFrom(a: Link, ta: nat, l1: Link, t1: nat, l2: Link, t2: nat, epoch: nat, position: Word32)
    requires Uploaded(a, ta, l1, t1, POSITION_ACTUAL, position) && l1.last.value.request.epoch == epoch
    requires Entered(l1, t1, l2, t2, SdoWrite(TARGET_POSITION, 0, position, 4))
    ensures SeededAt(a, ta, l2, t2, epoch, position)
  {
    hide NoSdo, NoMotionUnderWay, EnvPower, ToI32, ToU32, WriteObject;
    var b := l1.last.value.before;
    TargetWrite(l1.drive.core, position);
    SignedRoundTrip(b.position);
    EnvPowerTrans(a.drive.power, l1.drive.power, l2.drive.power);
  }

  /** Power state after shutdown, switch on and enable operation. */
  function Walk(p: Power, clearable: bool): Power {
    var shut := ApplyControl(p, clearable, false, SHUTDOWN);
    var on := ApplyControl(shut, clearable, false, SWITCH_ON);
    ApplyControl(on, clearable, false, ENABLE_OPERATION)
  }

  /** A fault can be cleared by the one reset configure_node sends. */
  predicate Enableable(l: Link) {
    Ahead(l) == Fault ==> l.drive.clearable && !Fold(l.drive.core, l.down).bit7
  }

  /** From every settled state the five control words lead to Operation Enabled, unless a fault stands. */
  lemma WalkReaches(p: Power, clearable: bool, bit7: bool)
    requires Settled(p)
    ensures var q := Walk(ApplyControl(p, clearable, bit7, FAULT_RESET), clearable);
            && (p == Fault && !(clearable && !bit7) ==> q == Fault)
            && (!(p == Fault && !(clearable && !bit7)) ==> q == OperationEnabled)
    ensures forall b, w :: w in {SHUTDOWN, SWITCH_ON, ENABLE_OPERATION} ==>
                             ApplyControl(p, clearable, b, w) == ApplyControl(p, clearable, false, w)
  {
  }

  /** The NMT start sent over link a was the one frame lost, or the drive has taken it. */
  predicate StartDecides(a: Link, l: Link) {
    || (l.lost == a.lost && l.drive.core.nmt == Operational)
    || (l.lost == a.lost + 1 && l.drive.core.nmt == a.drive.core.nmt)
  }

  /** After NMT start and the three control words. */
  predicate Walked(a: Link, ta: nat, l: Link, t: nat) {
    && Quiet(l) && Similar(a.drive.core, l.drive.core) && l.drive.core.nmt != Stopped && l.reported == a.reported
    && ta <= t && a.lost <= l.lost && (t == ta ==> l.lost == a.lost)
    && l.drive.power != QuickStopActive
    && StartDecides(a, l)
    && (t == ta && Settled(a.drive.power) ==> l.drive.power == Walk(a.drive.power, a.drive.clearable))
  }

  lemma WalkFrom(a: Link, ta: nat, l1: Link, t1: nat, l2: Link, t2: nat, l3: Link, t3: nat, l4: Link, t4: nat)
    requires Quiet(a) && NmtSent(a, ta, l1, t1, NMT_START)
    requires Acknowledged(l1, t1, l2, t2, SHUTDOWN) && Acknowledged(l2, t2, l3, t3, SWITCH_ON)
    requires Acknowledged(l3, t3, l4, t4, ENABLE_OPERATION)
    ensures Walked(a, ta, l4, t4)
  {
    assert OneNmt(l1.down);
    hide CoreExec, NoSdo, ApplyControl, Fold, EnvPower, Bit;
    OneInert(l1, NMT_START);
    FoldNothing(l2.drive.core);
    FoldNothing(l3.drive.core);
    QuietIsInert(l2);
    QuietIsInert(l3);
    if ta == t4 && Settled(a.drive.power) {
      WalkReaches(l1.drive.power, a.drive.clearable, false);
      WalkReaches(l2.drive.power, a.drive.clearable, false);
      WalkReaches(l3.drive.power, a.drive.clearable, false);
    }
  }

  lemma FoldNothing(c: Core)
    ensures Fold(c, []) == c
  {
  }

  lemma QuietIsInert(l: Link)
    requires Quiet(l)
    ensures l.down == [] && NoSdo(l) && AllInert(l.down) && NoControl(l.down)
  {
  }

  // One node from start to end -------------------------------------------------------------------------------

  /** What a successful configure_node guarantees, whatever was lost or went wrong on the way. */
  predicate BroughtUp(w0: World, w: World, n: nat, epoch: nat) {
    && n in w0.links && n in w.links
    && var l := w.links[n];
    && Quiet(l) && Configured(l.drive.core) && l.drive.core.buffer == None && l.drive.core.nmt != Stopped
    && ReadyToEnable(l, epoch)
    && Silent(l) && PositionOf(w.log, n) == l.drive.core.target
    && w0.links[n].lost <= l.lost
    && (l.lost == w0.links[n].lost ==> l.drive.core.nmt == Operational)
    && l.last.Some? && l.last.value.request.msg == SdoRead(STATUS_WORD, 0)
    && l.last.value.before.power == OperationEnabled
  }

  /**
   The drive before configure_node: settled, and with usable PDO ids once everything under way has arrived. Whatever an
   earlier activation has left, target frames, SYNCs and requests included, may still be under way.
   */
  predicate Fit(l: Link) {
    Settled(l.drive.power) && PredefinedIds(Fold(l.drive.core, l.down))
  }

  /** Without any loss, fault or timeout, configure_node succeeds exactly when no fault stands in the way. */
  predicate Converges(w0: World, w: World, n: nat, ok: bool)
    requires n in w0.links && n in w.links
  {
    Fit(w0.links[n]) && w.trouble == w0.trouble ==>
      && (ok <==> Enableable(w0.links[n]))
      && (ok ==> w.links[n].drive.power == OperationEnabled && w.links[n].drive.core.nmt == Operational)
  }

  // The stages of configure_node -----------------------------------------------------------------------------

  lemma NmtMayPush(l: Link, command: Byte, epoch: nat)
    requires command != 0x02
    ensures MayPush(l, Nmt(command), epoch)
  {
  }

  /** What SendNmt establishes. */
  predicate NmtOutcome(w0: World, w: World, n: nat, command: Byte, ok: bool) {
    && n in w0.links && n in w.links && OthersKept(w0, w, n) && SeedKept(w0, w, n)
    && w0.links[n].lost <= w.links[n].lost
    && (ok ==> NmtSent(w0.links[n], w0.trouble, w.links[n], w.trouble, command))
    && (!ok ==> w0.trouble < w.trouble)
  }

  /** What a control word write establishes. */
  predicate ControlOutcome(w0: World, w: World, n: nat, word: Word32, ok: bool) {
    && n in w0.links && n in w.links && OthersKept(w0, w, n) && SeedKept(w0, w, n)
    && w0.links[n].lost <= w.links[n].lost
    && (w.trouble == w0.trouble ==> ok && Carried(w0.links[n], w.links[n], Control(word)))
    && (NoSdo(w0.links[n]) && AllInert(w0.links[n].down) && ok ==>
          Acknowledged(w0.links[n], w0.trouble, w.links[n], w.trouble, word))
  }

  lemma EndsControlOutcome(w0: World, w: World, n: nat, r: Request, answer: DriveMessage, ok: bool, value: Word32,
                           word: Word32)
    requires Ends(w0, w, n, r, answer, ok, value) && r.msg == Control(word)
    ensures ControlOutcome(w0, w, n, word, ok)
  {
    if NoSdo(w0.links[n]) && AllInert(w0.links[n].down) { EndsControl(w0, w, n, r, answer, ok, value, word); }
    hide OthersKept, SeedKept, NoSdo, AllInert, Acknowledged, Concluded, Carried;
  }

  /** The core after the k-th of the four stages, from the core b that the first stage left. */
  function CoreAt(b: Core, k: nat): Core {
    if k == 0 then b
    else if k == 1 then RpdoStage(b, 6)
    else if k == 2 then Tpdo1Stage(RpdoStage(b, 6), 7)
    else Tpdo2Stage(Tpdo1Stage(RpdoStage(b, 6), 7), 6)
  }

  function Reset(c: Core): Core {
    c.(nmt := PreOperational, bit7 := true, mode := CYCLIC_SYNC_POSITION)
  }

  /** Power state after what is under way and the fault reset. */
  function AfterReset(a: Link): Power {
    ApplyControl(Ahead(a), a.drive.clearable, Fold(a.drive.core, a.down).bit7, FAULT_RESET)
  }

  /** Where configure_node stands after k stages; `ok` says none has failed. */
  predicate Underway(w0: World, w: World, n: nat, b: Core, k: nat, ok: bool) {
    && n in w0.links && n in w.links && OthersKept(w0, w, n)
    && var a, l := w0.links[n], w.links[n];
    && (ok ==> && Quiet(l) && l.drive.core == CoreAt(b, k) && b.node == a.drive.core.node
               && b.mode == CYCLIC_SYNC_POSITION && b.nmt != Stopped && a.lost <= l.lost
               && (k >= 1 ==> b.nmt == PreOperational && NoMotionUnderWay(l)))
    && (Fit(a) && w.trouble == w0.trouble ==>
          && ok && b == Reset(Fold(a.drive.core, a.down)) && l.lost == a.lost
          && l.drive.power == AfterReset(a) && l.drive.clearable == a.drive.clearable && Settled(l.drive.power))
  }

  lemma UnderwayFrom(w0: World, w1: World, w2: World, w3: World, n: nat, ok: bool)
    requires NmtOutcome(w0, w1, n, NMT_PRE_OPERATIONAL, true) && ControlOutcome(w1, w2, n, FAULT_RESET, true)
    requires n in w3.links && OthersKept(w2, w3, n) && w2.links[n].lost <= w3.links[n].lost
    requires w3.trouble == w2.trouble ==>
               ok && Carried(w2.links[n], w3.links[n], SdoWrite(MODE_OF_OPERATION, 0, CYCLIC_SYNC_POSITION, 1))
    requires ok ==> && Quiet(w3.links[n]) && w3.links[n].drive.core.mode == CYCLIC_SYNC_POSITION
                    && w3.links[n].drive.core.nmt != Stopped
    requires w3.links[n].drive.core.node == w0.links[n].drive.core.node
    ensures Underway(w0, w3, n, w3.links[n].drive.core, 0, ok)
  {
    hide Kept, SeedKept, Acknowledged, NoSdo, Settled, PredefinedIds, AfterReset, Reset, Silent, Carried, AllInert;
    OthersKeptTrans(w0, w1, w2, n);
    OthersKeptTrans(w0, w2, w3, n);
    if Fit(w0.links[n]) && w3.trouble == w0.trouble {
      CalmChain(w0.links[n], w1.links[n], w2.links[n], w3.links[n]);
    }
  }

  /** NMT pre-operational, fault reset and mode, after whatever was under way. */
  lemma CalmChain(a: Link, l1: Link, l2: Link, l3: Link)
    requires Carried(a, l1, Nmt(NMT_PRE_OPERATIONAL)) && Carried(l1, l2, Control(FAULT_RESET))
    requires Carried(l2, l3, SdoWrite(MODE_OF_OPERATION, 0, CYCLIC_SYNC_POSITION, 1)) && l3.down == []
    requires Settled(a.drive.power)
    ensures l3.drive.core == Reset(Fold(a.drive.core, a.down)) && l3.lost == a.lost &&
            l3.drive.clearable == a.drive.clearable
    ensures l3.drive.power == AfterReset(a) && Settled(l3.drive.power)
  {
    hide Fold, PowerFold, ApplyControl, AllInert, WriteObject;
    var c := Fold(a.drive.core, a.down);
    FoldNothing(l3.drive.core);
    PowerFoldNothing(l3.drive.core, l3.drive.power, l3.drive.clearable);
    NmtExec(c);
    ControlExec(CoreExec(c, Nmt(NMT_PRE_OPERATIONAL)), FAULT_RESET);
    ModeWrite(CoreExec(CoreExec(c, Nmt(NMT_PRE_OPERATIONAL)), Control(FAULT_RESET)));
    hide CoreExec;
  }

  lemma PowerFoldNothing(c: Core, p: Power, clearable: bool)
    ensures PowerFold(c, p, clearable, []) == p
  {
  }

  lemma NmtExec(c: Core)
    ensures CoreExec(c, Nmt(NMT_PRE_OPERATIONAL)) == c.(nmt := PreOperational)
  {
  }

  lemma ControlExec(c: Core, word: Word32)
    requires c.nmt != Stopped
    ensures CoreExec(c, Control(word)) == c.(bit7 := Bit(word, 7))
  {
  }

  lemma NmtSentIsInert(a: Link, ta: nat, l: Link, t: nat, command: Byte)
    requires NmtSent(a, ta, l, t, command) && Quiet(a)
    ensures NoSdo(l) && AllInert(l.down)
  {
  }

  lemma UnderwayMap(w0: World, w1: World, w2: World, n: nat, b: Core, k: nat, can: bool, ok: bool)
    requires Underway(w0, w1, n, b, k, true) && Mapped(w1, w2, n, CoreAt(b, k + 1), can, ok)
    requires ok ==> b.nmt == PreOperational && NoMotionUnderWay(w2.links[n])
    requires var a := w0.links[n]; Fit(a) && b == Reset(Fold(a.drive.core, a.down)) ==> can
    ensures Underway(w0, w2, n, b, k + 1, ok)
  {
    hide Kept, NoSdo, Settled, PredefinedIds, ApplyControl, NoMotionUnderWay, CoreAt, EnvPower;
    OthersKeptTrans(w0, w1, w2, n);
  }

  /** In a drive with pre-defined PDO ids each remapping finds its PDO free. */
  lemma PdosAreFree(c: Core)
    requires PredefinedIds(c)
    ensures Free(CoreAt(Reset(c), 0).rpdo1, RPDO1 + c.node)
    ensures Free(CoreAt(Reset(c), 1).tpdo1, TPDO1 + c.node)
    ensures Free(CoreAt(Reset(c), 2).tpdo2, TPDO2 + c.node)
  {
  }

  lemma CoreAtKeeps(b: Core, k: nat)
    ensures CoreAt(b, k).nmt == b.nmt && CoreAt(b, k).node == b.node && CoreAt(b, k).mode == b.mode
  {
  }

  lemma FullyMapped(b: Core)
    requires IsNode(b.node) && b.mode == CYCLIC_SYNC_POSITION
    ensures Configured(CoreAt(b, 3)) && CoreAt(b, 3).buffer == None && CoreAt(b, 3).tpdo1.transmission == SYNC_EVERY
  {
    hide MapEntry;
    var c1 := RpdoStage(b, 6);
    var c2 := Tpdo1Stage(c1, 7);
    assert RpdoConfigured(c1);
    assert Tpdo1Configured(c2);
    assert Tpdo2Configured(Tpdo2Stage(c2, 6));
  }

  /** What Seed establishes: the drive will hold the position it has just reported, and so will the feedback table. */
  predicate SeedOutcome(w0: World, w: World, n: nat, epoch: nat, position: Word32, ok: bool) {
    && n in w0.links && n in w.links && OthersKept(w0, w, n)
    && var a, l := w0.links[n], w.links[n];
    && (Quiet(a) ==>
          && (ok ==> SeededAt(a, w0.trouble, l, w.trouble, epoch, position))
          && (ok && Silent(a) ==> Silent(l) && PositionOf(w.log, n) == ToI32(position))
          && (w.trouble == w0.trouble && a.drive.core.nmt != Stopped ==> ok))
  }

  lemma SeedReadFailed(w0: World, w1: World, n: nat, r: Request, answer: DriveMessage, value: Word32, epoch: nat,
                       position: Word32)
    requires Ends(w0, w1, n, r, answer, false, value) && r.msg == SdoRead(POSITION_ACTUAL, 0)
    ensures SeedOutcome(w0, w1, n, epoch, position, false)
  {
    if Quiet(w0.links[n]) { EndsRead(w0, w1, n, r, answer, false, value, POSITION_ACTUAL); }
    hide OthersKept, SeedKept, Quiet, Concluded;
  }

  lemma SeedWritten(w0: World, w1: World, w2: World, n: nat, r: Request, answer: DriveMessage, position: Word32,
                    ok: bool)
    requires Ends(w0, w1, n, r, answer, true, position) && r.msg == SdoRead(POSITION_ACTUAL, 0)
    requires Written(w1, w2, n, SdoWrite(TARGET_POSITION, 0, position, 4), ok)
    ensures n in w0.links && n in w2.links && OthersKept(w0, w2, n)
    ensures Quiet(w0.links[n]) ==>
              && (ok ==> SeededAt(w0.links[n], w0.trouble, w2.links[n], w2.trouble, r.epoch, position))
              && (w2.trouble == w0.trouble && w0.links[n].drive.core.nmt != Stopped ==> ok)
              && (Silent(w0.links[n]) ==> Silent(w2.links[n]))
  {
    hide Kept, Silent, Concluded, Entered, Uploaded, NoSdo, WriteObject, SeededAt;
    OthersKeptTrans(w0, w1, w2, n);
    if Quiet(w0.links[n]) {
      EndsRead(w0, w1, n, r, answer, true, position, POSITION_ACTUAL);
      UploadedQuiet(w0.links[n], w0.trouble, w1.links[n], w1.trouble, POSITION_ACTUAL, position);
      TargetWrite(w1.links[n].drive.core, position);
      if ok {
        SeedFrom(w0.links[n], w0.trouble, w1.links[n], w1.trouble, w2.links[n], w2.trouble, r.epoch, position);
      }
    }
  }

  lemma UploadedQuiet(a: Link, ta: nat, l: Link, t: nat, index: Word16, value: Word32)
    requires Uploaded(a, ta, l, t, index, value)
    ensures Quiet(l) && l.drive.core == a.drive.core && ta <= t && a.lost <= l.lost
  {
  }

  /** Storing the seed in the feedback table. */
  lemma SeedStored(w0: World, w: World, n: nat, epoch: nat, position: Word32)
    requires n in w0.links && n in w.links && OthersKept(w0, w, n)
    requires Quiet(w0.links[n]) ==>
               && SeededAt(w0.links[n], w0.trouble, w.links[n], w.trouble, epoch, position)
               && (Silent(w0.links[n]) ==> Silent(w.links[n]))
    ensures SeedOutcome(w0, Note(w, n, ToI32(position)), n, epoch, position, true)
  {
    hide Drift, Silent, SeededAt, Quiet, ToI32, Live, Since;
    var e := Seeded(n, ToI32(position));
    assert (w.log + [e])[..|w.log + [e]| - 1] == w.log;
    NotingSince(w, n, ToI32(position));
    SinceTrans(w0, w, Note(w, n, ToI32(position)));
    forall k | k in w0.links && k != n ensures Kept(w0, Note(w, n, ToI32(position)), k) {
      assert PositionOf(w.log + [e], k) == PositionOf(w.log, k);
    }
  }

  lemma NotingSince(w: World, n: nat, counts: int)
    ensures Since(w, Note(w, n, counts))
  {
  }

  /** What Enable establishes. */
  predicate EnableOutcome(w0: World, w: World, n: nat, ok: bool) {
    && n in w0.links && n in w.links && OthersKept(w0, w, n) && SeedKept(w0, w, n)
    && (Quiet(w0.links[n]) ==>
          && (ok ==> Walked(w0.links[n], w0.trouble, w.links[n], w.trouble))
          && (w.trouble == w0.trouble ==> ok))
  }

  /** Where the three control words stand: k of them acknowledged, or one refused. */
  predicate Walking(w0: World, w: World, n: nat, ok: bool) {
    && n in w0.links && n in w.links && OthersKept(w0, w, n) && SeedKept(w0, w, n)
    && (w.trouble == w0.trouble ==> ok)
    && w0.links[n].lost <= w.links[n].lost
  }

  lemma WalkingStart(w0: World, w: World, n: nat, command: Byte, ok: bool)
    requires NmtOutcome(w0, w, n, command, ok)
    ensures Walking(w0, w, n, ok)
  {
    hide OthersKept, SeedKept, NmtSent;
  }

  lemma WalkingStep(w0: World, w1: World, w2: World, n: nat, word: Word32, ok: bool)
    requires Walking(w0, w1, n, true) && ControlOutcome(w1, w2, n, word, ok)
    requires NoSdo(w1.links[n]) && AllInert(w1.links[n].down)
    ensures Walking(w0, w2, n, ok)
    ensures ok ==> Acknowledged(w1.links[n], w1.trouble, w2.links[n], w2.trouble, word)
  {
    hide Kept, Silent, Acknowledged, NoSdo, AllInert;
    OthersKeptTrans(w0, w1, w2, n);
  }

  lemma AcknowledgedQuiet(a: Link, ta: nat, l: Link, t: nat, word: Word32, epoch: nat)
    requires Acknowledged(a, ta, l, t, word)
    ensures Quiet(l) && NoSdo(l) && AllInert(l.down) && l.down == []
    ensures ReadyToEnable(a, epoch) ==> ReadyToEnable(l, epoch)
  {
    hide NoSdo, Fold, ApplyControl;
  }

  /** The status word answered looks enabled. */
  predicate Checked(a: Link, ta: nat, l: Link, t: nat) {
    && l.last.Some?
    && var d := l.last.value.before;
    && LooksEnabled(StatusWord(d.power, d.other)) && Uploaded(a, ta, l, t, STATUS_WORD, StatusWord(d.power, d.other))
  }

  predicate StatusOutcome(w0: World, w: World, n: nat, ok: bool) {
    && n in w0.links && n in w.links && OthersKept(w0, w, n) && SeedKept(w0, w, n)
    && var a, l := w0.links[n], w.links[n];
    && (Quiet(a) ==>
          && (ok ==> Checked(a, w0.trouble, l, w.trouble))
          && (w.trouble == w0.trouble && Settled(a.drive.power) ==> (ok <==> ShowsEnabled(a.drive.power))))
  }

  lemma StatusRead(w0: World, w: World, n: nat, r: Request, answer: DriveMessage, ok: bool, value: Word32)
    requires Ends(w0, w, n, r, answer, ok, value) && r.msg == SdoRead(STATUS_WORD, 0)
    ensures StatusOutcome(w0, w, n, ok && LooksEnabled(value))
  {
    hide OthersKept, SeedKept, NoSdo, Concluded, StatusWord, LooksEnabled;
    if Quiet(w0.links[n]) {
      EndsRead(w0, w, n, r, answer, ok, value, STATUS_WORD);
      var d := w.links[n].last;
      if d.Some? { LooksEnabledMeans(d.value.before.power, d.value.before.other); }
    }
  }

  /** Reading the error code afterwards changes no verdict. */
  lemma StatusFailed(w0: World, w1: World, w2: World, n: nat, r: Request, answer: DriveMessage, ok: bool, value: Word32)
    requires StatusOutcome(w0, w1, n, false) && Ends(w1, w2, n, r, answer, ok, value) && r.msg == SdoRead(ERROR_CODE, 0)
    ensures StatusOutcome(w0, w2, n, false)
  {
    hide Kept, Silent, Concluded, Checked, StatusWord, Quiet, LooksEnabled, Settled;
    OthersKeptTrans(w0, w1, w2, n);
  }

  /** A drive that was fit and met no trouble cannot have made configure_node fail here. */
  predicate Stalled(w0: World, w: World, n: nat) {
    && n in w0.links && n in w.links && OthersKept(w0, w, n)
    && (Fit(w0.links[n]) ==> w0.trouble < w.trouble)
  }

  /** What configure_node establishes. */
  predicate NodeOutcome(w0: World, w: World, n: nat, epoch: nat, ok: bool) {
    && n in w0.links && n in w.links && OthersKept(w0, w, n)
    && (ok ==> BroughtUp(w0, w, n, epoch))
    && Converges(w0, w, n, ok)
  }

  lemma StalledOutcome(w0: World, w: World, n: nat, epoch: nat)
    requires Stalled(w0, w, n)
    ensures NodeOutcome(w0, w, n, epoch, false)
  {
    hide OthersKept, Fit, Enableable;
  }

  lemma RemapStalled(w0: World, w: World, n: nat, b: Core, k: nat)
    requires Underway(w0, w, n, b, k, false)
    ensures Stalled(w0, w, n)
  {
    hide Kept, Fit;
  }

  lemma SeedStalled(w0: World, w1: World, w2: World, n: nat, b: Core, epoch: nat, position: Word32)
    requires Underway(w0, w1, n, b, 3, true) && SeedOutcome(w1, w2, n, epoch, position, false)
    ensures Stalled(w0, w2, n)
  {
    CoreAtKeeps(b, 3);
    hide Kept, Fit, NoSdo, CoreAt, ApplyControl;
    OthersKeptTrans(w0, w1, w2, n);
  }

  lemma EnableStalled(w0: World, w1: World, w2: World, w3: World, n: nat, b: Core, epoch: nat, position: Word32)
    requires Underway(w0, w1, n, b, 3, true) && SeedOutcome(w1, w2, n, epoch, position, true)
    requires EnableOutcome(w2, w3, n, false)
    ensures Stalled(w0, w3, n)
  {
    hide Kept, Fit, NoSdo, CoreAt, ApplyControl, Silent;
    OthersKeptTrans(w0, w1, w2, n);
    OthersKeptTrans(w0, w2, w3, n);
  }

  lemma SilentOnceMapped(l: Link, b: Core)
    requires l.drive.core == CoreAt(b, 3) && IsNode(b.node) && b.mode == CYCLIC_SYNC_POSITION
    requires l.down == [] && NoMotionUnderWay(l)
    ensures Silent(l)
  {
    FullyMapped(b);
    hide CoreAt;
  }

  /** The link after a successful configure_node. */
  predicate LinkUp(l: Link, epoch: nat) {
    && Quiet(l) && Configured(l.drive.core) && l.drive.core.buffer == None && l.drive.core.nmt != Stopped
    && ReadyToEnable(l, epoch)
    && l.last.Some? && l.last.value.request.msg == SdoRead(STATUS_WORD, 0)
    && l.last.value.before.power == OperationEnabled
  }

  lemma SeedingConfigures(l1: Link, t1: nat, l2: Link, t2: nat, b: Core, epoch: nat, position: Word32)
    requires l1.drive.core == CoreAt(b, 3) && IsNode(b.node) && b.mode == CYCLIC_SYNC_POSITION
    requires SeededAt(l1, t1, l2, t2, epoch, position)
    ensures Configured(l2.drive.core) && l2.drive.core.buffer == None && ReadyToEnable(l2, epoch) && Quiet(l2)
    ensures l2.drive.core.target == ToI32(position) && l1.lost <= l2.lost && t1 <= t2 &&
            (t1 == t2 ==> l1.lost == l2.lost)
    ensures t1 == t2 && Settled(l1.drive.power) ==> l2.drive.power == l1.drive.power
    ensures l2.drive.clearable == l1.drive.clearable && l2.drive.core.nmt == b.nmt
  {
    FullyMapped(b);
    CoreAtKeeps(b, 3);
    hide CoreAt, ToI32, NoSdo;
  }

  lemma EnablingKeeps(l2: Link, t2: nat, l3: Link, t3: nat, l4: Link, t4: nat, epoch: nat)
    requires Configured(l2.drive.core) && l2.drive.core.buffer == None && ReadyToEnable(l2, epoch)
    requires Walked(l2, t2, l3, t3) && Checked(l3, t3, l4, t4) && l2.drive.core.nmt == PreOperational
    ensures StartDecides(l2, l4)
    ensures LinkUp(l4, epoch) && l4.drive.core.target == l2.drive.core.target && l2.lost <= l4.lost
    ensures l4.lost == l2.lost ==> l4.drive.core.nmt == Operational
    ensures t4 == t2 && Settled(l2.drive.power) ==>
              l4.drive.power == OperationEnabled && l4.drive.core.nmt == Operational
  {
    hide NoSdo, ApplyControl, MapEntry;
    LooksEnabledMeans(l4.last.value.before.power, l4.last.value.before.other);
    hide LooksEnabled, StatusWord, Walk;
  }

  /** Configure_node came to its end: every earlier stage succeeded. */
  lemma NodeDone(w0: World, w1: World, w2: World, w3: World, w4: World, n: nat, b: Core, epoch: nat, position: Word32,
                 ok: bool)
    requires Underway(w0, w1, n, b, 3, true) && IsNode(b.node)
    requires SeedOutcome(w1, w2, n, epoch, position, true) && EnableOutcome(w2, w3, n, true) &&
             StatusOutcome(w3, w4, n, ok)
    ensures NodeOutcome(w0, w4, n, epoch, ok)
  {
    hide Kept, NoSdo, CoreAt, Configured, ReadyToEnable, ApplyControl, Walk, SeededAt, Walked, Checked, LooksEnabled,
         Silent;
    hide NoMotionUnderWay, StatusWord, PredefinedIds, Reset, Settled, LinkUp;
    OthersKeptTrans(w0, w1, w2, n);
    OthersKeptTrans(w0, w2, w3, n);
    OthersKeptTrans(w0, w3, w4, n);
    var l1, l2, l3, l4 := w1.links[n], w2.links[n], w3.links[n], w4.links[n];
    SilentOnceMapped(l1, b);
    SeedingConfigures(l1, w1.trouble, l2, w2.trouble, b, epoch, position);
    WalkedQuiet(l2, w2.trouble, l3, w3.trouble);
    if ok {
      EnablingKeeps(l2, w2.trouble, l3, w3.trouble, l4, w4.trouble, epoch);
      UpFrom(w0, w4, n, epoch);
    }
    if Fit(w0.links[n]) && w4.trouble == w0.trouble {
      Decides(w0.links[n], l2, l3);
    }
  }

  lemma WalkedQuiet(a: Link, ta: nat, l: Link, t: nat)
    requires Walked(a, ta, l, t)
    ensures Quiet(l) && ta <= t && a.lost <= l.lost
    ensures t == ta && Settled(a.drive.power) ==> l.drive.power == Walk(a.drive.power, a.drive.clearable)
  {
    hide NoSdo, Walk, Settled;
  }

  lemma UpFrom(w0: World, w: World, n: nat, epoch: nat)
    requires n in w0.links && n in w.links && LinkUp(w.links[n], epoch) && Silent(w.links[n])
    requires PositionOf(w.log, n) == w.links[n].drive.core.target && w0.links[n].lost <= w.links[n].lost
    requires w.links[n].lost == w0.links[n].lost ==> w.links[n].drive.core.nmt == Operational
    ensures BroughtUp(w0, w, n, epoch)
  {
  }

  lemma {:induction false} AheadSettled(c: Core, p: Power, clearable: bool, down: seq<Request>)
    requires Settled(p)
    ensures Settled(PowerFold(c, p, clearable, down))
    decreases |down|
  {
    if down != [] {
      AheadSettled(CoreExec(c, down[0].msg), NextPower(c, p, clearable, down[0].msg), clearable, down[1..]);
    }
  }

  /** With no trouble on the way, the status word tells whether a fault stood in the way. */
  lemma Decides(a: Link, l2: Link, l3: Link)
    requires Settled(a.drive.power) && l2.drive.power == AfterReset(a)
    requires l2.drive.clearable == a.drive.clearable
    requires l3.drive.power == Walk(l2.drive.power, l2.drive.clearable)
    ensures Settled(l3.drive.power) && (ShowsEnabled(l3.drive.power) <==> Enableable(a))
  {
    AheadSettled(a.drive.core, a.drive.power, a.drive.clearable, a.down);
    WalkReaches(Ahead(a), a.drive.clearable, Fold(a.drive.core, a.down).bit7);
    hide Ahead, Fold;
  }

  // Gluing the stages together -------------------------------------------------------------------------------

  lemma NmtKeepsBit7Clear(w0: World, w: World, n: nat, command: Byte)
    requires NmtOutcome(w0, w, n, command, true) && Bit7Clear(w0.links[n])
    ensures Bit7Clear(w.links[n])
  {
    hide OthersKept, SeedKept, Bit7Clear, Quiet;
  }

  lemma NmtFailed(w0: World, w: World, n: nat)
    requires NmtOutcome(w0, w, n, NMT_PRE_OPERATIONAL, false)
    ensures Underway(w0, w, n, w.links[n].drive.core, 0, false)
  {
    hide OthersKept, SeedKept, Fit, ApplyControl, Quiet;
  }

  lemma ResetFailed(w0: World, w1: World, w: World, n: nat)
    requires NmtOutcome(w0, w1, n, NMT_PRE_OPERATIONAL, true) && ControlOutcome(w1, w, n, FAULT_RESET, false)
    ensures Underway(w0, w, n, w.links[n].drive.core, 0, false)
  {
    hide Kept, SeedKept, NmtSent, Acknowledged, AfterReset, NoSdo, AllInert, Settled, PredefinedIds, Silent, Carried;
    OthersKeptTrans(w0, w1, w, n);
  }

  lemma SameNode(w0: World, next0: nat, w: World, next: nat, n: nat)
    requires WorldOk(w0, next0) && WorldOk(w, next) && n in w0.links && n in w.links
    ensures w.links[n].drive.core.node == w0.links[n].drive.core.node
  {
    WorldNodes(w0, next0);
    WorldNodes(w, next);
  }

  lemma CoreNode(w: World, next: nat, n: nat)
    requires WorldOk(w, next) && n in w.links
    ensures w.links[n].drive.core.node == n
  {
    WorldNodes(w, next);
  }

  lemma UnderwayHere(w0: World, w: World, n: nat, b: Core, k: nat)
    requires Underway(w0, w, n, b, k, true)
    ensures n in w.links && Quiet(w.links[n]) && w.links[n].drive.core == CoreAt(b, k) &&
            w.links[n].drive.core.nmt != Stopped
  {
    CoreAtKeeps(b, k);
    hide OthersKept, Fit, ApplyControl, CoreAt, NoSdo;
  }

  /** One of the three remappings. */
  lemma MapAllStep(w0: World, w1: World, w2: World, n: nat, b: Core, k: nat, ok: bool)
    requires Underway(w0, w1, n, b, k, true) && k < 3 && b.node == n && n in w1.links && n in w2.links
    requires var c := w1.links[n].drive.core;
             && (k == 0 ==> Mapped(w1, w2, n, RpdoStage(c, 6), c.nmt == PreOperational && Free(c.rpdo1, RPDO1 + n), ok))
             && (k == 1 ==>
                   Mapped(w1, w2, n, Tpdo1Stage(c, 7), c.nmt == PreOperational && Free(c.tpdo1, TPDO1 + n), ok))
             && (k == 2 ==>
                   Mapped(w1, w2, n, Tpdo2Stage(c, 6), c.nmt == PreOperational && Free(c.tpdo2, TPDO2 + n), ok))
             && (ok ==> c.nmt == PreOperational && NoMotionUnderWay(w2.links[n]))
    ensures Underway(w0, w2, n, b, k + 1, ok)
  {
    UnderwayHere(w0, w1, n, b, k);
    CoreAtKeeps(b, k);
    var c := CoreAt(b, k);
    var can := c.nmt == PreOperational &&
               if k == 0 then Free(c.rpdo1, RPDO1 + n)
               else if k == 1 then Free(c.tpdo1, TPDO1 + n)
               else Free(c.tpdo2, TPDO2 + n);
    var a := w0.links[n];
    if Fit(a) && b == Reset(Fold(a.drive.core, a.down)) { PdosAreFree(Fold(a.drive.core, a.down)); }
    hide Free, Mapped, NoMotionUnderWay, RpdoStage, Tpdo1Stage, Tpdo2Stage, Underway, Fit;
    UnderwayMap(w0, w1, w2, n, b, k, can, ok);
  }

  lemma SeedWriteFailed(w0: World, w: World, n: nat, epoch: nat, position: Word32)
    requires n in w0.links && n in w.links && OthersKept(w0, w, n)
    requires Quiet(w0.links[n]) ==> w.trouble == w0.trouble && w0.links[n].drive.core.nmt != Stopped ==> false
    ensures SeedOutcome(w0, w, n, epoch, position, false)
  {
    hide OthersKept, Quiet;
  }

  lemma LogApart(w: World, next: nat, n: nat, counts: int)
    requires WorldOk(w, next)
    ensures WorldOk(Note(w, n, counts), next) && WorldOk(ClearTable(w), next)
    ensures AllStale(w, next) ==> AllStale(Note(w, n, counts), next) && AllStale(ClearTable(w), next)
  {
  }

  lemma StartSent(w0: World, w: World, n: nat, epoch: nat, ok: bool)
    requires NmtOutcome(w0, w, n, NMT_START, ok) && Quiet(w0.links[n]) && ReadyToEnable(w0.links[n], epoch)
    ensures Walking(w0, w, n, ok)
    ensures ok ==> NoSdo(w.links[n]) && AllInert(w.links[n].down) && ReadyToEnable(w.links[n], epoch)
  {
    if ok { NmtSentIsInert(w0.links[n], w0.trouble, w.links[n], w.trouble, NMT_START); }
    WalkingStart(w0, w, n, NMT_START, ok);
    hide OthersKept, SeedKept, NoSdo;
  }

  lemma ControlStep(w0: World, w1: World, w2: World, n: nat, word: Word32, epoch: nat, ok: bool)
    requires Walking(w0, w1, n, true) && ControlOutcome(w1, w2, n, word, ok)
    requires NoSdo(w1.links[n]) && AllInert(w1.links[n].down) && ReadyToEnable(w1.links[n], epoch)
    ensures Walking(w0, w2, n, ok)
    ensures ok ==> && Acknowledged(w1.links[n], w1.trouble, w2.links[n], w2.trouble, word)
                   && NoSdo(w2.links[n]) && AllInert(w2.links[n].down) && w2.links[n].down == []
                   && ReadyToEnable(w2.links[n], epoch)
  {
    WalkingStep(w0, w1, w2, n, word, ok);
    hide Walking, ControlOutcome, Acknowledged, NoSdo, AllInert, ReadyToEnable;
    if ok { AcknowledgedQuiet(w1.links[n], w1.trouble, w2.links[n], w2.trouble, word, epoch); }
  }

  lemma EnableDone(w0: World, w1: World, w2: World, w3: World, w4: World, n: nat)
    requires NmtOutcome(w0, w1, n, NMT_START, true) && Walking(w0, w4, n, true) && Quiet(w0.links[n])
    requires n in w2.links && n in w3.links
    requires Acknowledged(w1.links[n], w1.trouble, w2.links[n], w2.trouble, SHUTDOWN)
    requires Acknowledged(w2.links[n], w2.trouble, w3.links[n], w3.trouble, SWITCH_ON)
    requires Acknowledged(w3.links[n], w3.trouble, w4.links[n], w4.trouble, ENABLE_OPERATION)
    ensures EnableOutcome(w0, w4, n, true)
  {
    hide OthersKept, SeedKept, Acknowledged, NmtSent, Walked, Quiet;
    WalkFrom(w0.links[n], w0.trouble, w1.links[n], w1.trouble, w2.links[n], w2.trouble, w3.links[n], w3.trouble,
             w4.links[n], w4.trouble);
  }

  /** Between w0 and w the start command was sent, which led to w1; whether it arrived decides the NMT state. */
  predicate Started(w0: World, w1: World, w: World, n: nat)
    requires IsNode(n)
  {
    && n in w0.links && n in w1.links && n in w.links && Since(w0, w1) && Since(w1, w) && |w0.trace| < |w1.trace|
    && var last := w1.trace[|w1.trace| - 1];
    && last.Sent? && last.frame == NmtFrame(NMT_START, n)
    && w1.links[n].drive.core == w0.links[n].drive.core
    && StartDecides(w1.links[n], w.links[n])
  }

  lemma StartedFrom(w0: World, w1: World, w: World, n: nat)
    requires IsNode(n) && NmtOutcome(w0, w1, n, NMT_START, true) && Quiet(w0.links[n])
    requires OthersKept(w1, w, n) && EnableOutcome(w0, w, n, true)
    requires w1.trace != [] && var last := w1.trace[|w1.trace| - 1]; last.Sent? && last.frame == NmtFrame(NMT_START, n)
    requires |w0.trace| < |w1.trace|
    ensures Started(w0, w1, w, n)
  {
    hide Kept, SeedKept, NoSdo, AllOnward, NmtFrame, Walk, EnvPower, Settled, Carried, Bit7Clear;
  }

  /** The start command goes to a pre-operational drive, and neither what precedes it nor the status check matters. */
  lemma NodeStarted(w0: World, w1: World, w2: World, sent: World, w3: World, w4: World, n: nat, b: Core, epoch: nat,
                    position: Word32)
    requires IsNode(n) && b.node == n && Underway(w0, w1, n, b, 3, true) &&
             SeedOutcome(w1, w2, n, epoch, position, true)
    requires Started(w2, sent, w3, n) && EnableOutcome(w2, w3, n, true) && StatusOutcome(w3, w4, n, true)
    ensures n in w4.links && |w0.trace| < |sent.trace| && Since(sent, w4)
    ensures sent.links[n].drive.core.nmt == PreOperational && StartDecides(sent.links[n], w4.links[n])
  {
    hide Kept, SeedKept, AllOnward, NmtFrame, NoSdo, EnvPower, Settled, Since, StatusWord, LooksEnabled, CoreAt;
    hide Configured, ReadyToEnable, ApplyControl, Fit, Silent, SeededAt, Walked;
    OthersSince(w0, w1, n);
    OthersSince(w1, w2, n);
    OthersSince(w3, w4, n);
    SinceTrans(sent, w3, w4);
    SinceLength(w0, w1);
    SinceLength(w1, w2);
    SeedingConfigures(w1.links[n], w1.trouble, w2.links[n], w2.trouble, b, epoch, position);
    WalkedQuiet(w2.links[n], w2.trouble, w3.links[n], w3.trouble);
  }

  /** The drive ends with the seed as its target. */
  lemma TargetIsSeed(w0: World, w1: World, w2: World, w3: World, w4: World, n: nat, b: Core, epoch: nat,
                     position: Word32)
    requires Underway(w0, w1, n, b, 3, true) && IsNode(b.node) && SeedOutcome(w1, w2, n, epoch, position, true)
    requires EnableOutcome(w2, w3, n, true) && StatusOutcome(w3, w4, n, true)
    ensures n in w4.links && w4.links[n].drive.core.target == ToI32(position)
  {
    hide Kept, SeedKept, AllOnward, NoSdo, EnvPower, Settled, Since, StatusWord, LooksEnabled, CoreAt, ToI32;
    hide Configured, ReadyToEnable, ApplyControl, Fit, Silent, SeededAt, Walk;
    SeedingConfigures(w1.links[n], w1.trouble, w2.links[n], w2.trouble, b, epoch, position);
  }

  lemma SentHere(w0: World, w1: World, w: World, n: nat)
    requires IsNode(n) && Started(w0, w1, w, n)
    ensures n in w1.links && w1.trace != []
    ensures w1.trace[|w1.trace| - 1].Sent? && w1.trace[|w1.trace| - 1].frame == NmtFrame(NMT_START, n)
  {
    hide Since, StartDecides, NmtFrame;
  }

  lemma SinceLength(w0: World, w: World)
    requires Since(w0, w)
    ensures |w0.trace| <= |w.trace| && w.trace[..|w0.trace|] == w0.trace
  {
  }

  lemma ControlsKeep(w1: World, w2: World, w3: World, w4: World, n: nat)
    requires ControlOutcome(w1, w2, n, SHUTDOWN, true) && ControlOutcome(w2, w3, n, SWITCH_ON, true)
    requires ControlOutcome(w3, w4, n, ENABLE_OPERATION, true)
    ensures OthersKept(w1, w4, n)
  {
    hide OthersKept, SeedKept, Carried, Acknowledged;
    OthersKeptTrans(w1, w2, w3, n);
    OthersKeptTrans(w1, w3, w4, n);
  }

  lemma SentLast(w0: World, cs: seq<Choice>, w: World, f: Frame, id: nat, epoch: nat)
    requires w == Broadcast(Run(w0, cs, All), f, id, epoch)
    ensures |w0.trace| < |w.trace| && w.trace[|w.trace| - 1] == Sent(f, id, epoch)
  {
    RunSince(w0, cs, All);
    hide Run, Decode, Push;
  }

  /** What an attempt to read an object establishes. */
  predicate ReadOutcome(w0: World, w: World, n: nat, index: Word16, ok: bool, value: Word32) {
    && n in w0.links && n in w.links && OthersKept(w0, w, n) && SeedKept(w0, w, n)
    && (Quiet(w0.links[n]) ==>
          && (ok ==> Uploaded(w0.links[n], w0.trouble, w.links[n], w.trouble, index, value))
          && (w.trouble == w0.trouble ==> ok))
  }

  lemma ReadInVain(w0: World, w: World, n: nat, index: Word16, value: Word32, other: Word32)
    requires ReadOutcome(w0, w, n, index, false, value)
    ensures ReadOutcome(w0, w, n, index, false, other)
  {
    hide OthersKept, SeedKept, Quiet, Uploaded;
  }

  lemma ReadConcluded(w0: World, w: World, n: nat, r: Request, answer: DriveMessage, ok: bool, value: Word32,
                      index: Word16)
    requires Ends(w0, w, n, r, answer, ok, value) && r.msg == SdoRead(index, 0)
    requires index in {POSITION_ACTUAL, STATUS_WORD, ERROR_CODE}
    ensures ReadOutcome(w0, w, n, index, ok, value)
  {
    if Quiet(w0.links[n]) { EndsRead(w0, w, n, r, answer, ok, value, index); }
    hide OthersKept, SeedKept, Quiet, Concluded, Uploaded, Carried;
  }

  /** On a fit drive without an uncleared fault configure_node fails only if something has gone wrong meanwhile. */
  lemma FailureHasACause(w0: World, w: World, n: nat, epoch: nat)
    requires NodeOutcome(w0, w, n, epoch, false) && Fit(w0.links[n]) && Enableable(w0.links[n])
    ensures w0.trouble < w.trouble && |w0.trace| <= |w.trace| && w.trace[..|w0.trace|] == w0.trace
  {
    hide Kept, BroughtUp, Fit, Enableable;
  }

  lemma OthersSince(w0: World, w: World, n: nat)
    requires OthersKept(w0, w, n)
    ensures Since(w0, w)
  {
    hide Kept, AllOnward, Since;
  }

  lemma EnableFailed(w0: World, w: World, n: nat)
    requires Walking(w0, w, n, false)
    ensures EnableOutcome(w0, w, n, false)
  {
    hide OthersKept, SeedKept, Quiet;
  }

  lemma SeededMeansReady(w0: World, w1: World, w2: World, n: nat, b: Core, epoch: nat, position: Word32)
    requires Underway(w0, w1, n, b, 3, true) && SeedOutcome(w1, w2, n, epoch, position, true) && IsNode(b.node)
    ensures Quiet(w2.links[n]) && ReadyToEnable(w2.links[n], epoch)
  {
    hide OthersKept, NoSdo, CoreAt, Silent, SeededAt, ReadyToEnable, Configured, ApplyControl, Fit;
    SeedingConfigures(w1.links[n], w1.trouble, w2.links[n], w2.trouble, b, epoch, position);
  }

  // What a lost start command does ---------------------------------------------------------------------------

  /**
   NMT commands are not acknowledged. A pre-operational drive that never sees the start command still acknowledges the
   three control words and then looks enabled, from every power state the fault reset can lead to but Fault; so
   configure_node succeeds. But the drive sends no feedback and takes no target.
   */
  lemma LostStartGoesUnnoticed(d: Drive, p: Power, bit7: bool)
    requires d.core.nmt == PreOperational && Settled(p)
    requires d.power == ApplyControl(p, d.clearable, bit7, FAULT_RESET) && d.power != Fault
    ensures var d1 := Exec(d, Control(SHUTDOWN));
            var d2 := Exec(d1, Control(SWITCH_ON));
            var d3 := Exec(d2, Control(ENABLE_OPERATION));
            && Answer(d, Control(SHUTDOWN)) == Answer(d1, Control(SWITCH_ON)) == Answer(d2, Control(ENABLE_OPERATION))
               == Some(Ack(CONTROL_WORD, 0))
            && d3.power == OperationEnabled && LooksEnabled(StatusWord(d3.power, d3.other))
            && d3.core.nmt == PreOperational
            && EmitTpdo1(d3) == [] && EmitTpdo2(d3) == []
            && CoreExec(d3.core, Sync) == d3.core && forall p :: CoreExec(d3.core, Rpdo1(p)) == d3.core
  {
    hide Exec, Answer, ApplyControl, CoreExec, EmitTpdo1, EmitTpdo2, LooksEnabled, StatusWord, Bit;
    var d1 := Exec(d, Control(SHUTDOWN));
    var d2 := Exec(d1, Control(SWITCH_ON));
    var d3 := Exec(d2, Control(ENABLE_OPERATION));
    WalkReaches(p, d.clearable, bit7);
    ResetSettles(p, d.clearable, bit7);
    WalkReaches(d.power, d.clearable, d.core.bit7);
    ControlTaken(d, SHUTDOWN);
    ControlTaken(d1, SWITCH_ON);
    ControlTaken(d2, ENABLE_OPERATION);
    SettledStays(d, SHUTDOWN);
    SettledStays(d1, SWITCH_ON);
    WalkReaches(d1.power, d.clearable, false);
    WalkReaches(d2.power, d.clearable, false);
    DeafDrive(d3);
    LooksEnabledMeans(d3.power, d3.other);
  }

  lemma ControlTaken(d: Drive, word: Word32)
    requires d.core.nmt == PreOperational
    ensures Answer(d, Control(word)) == Some(Ack(CONTROL_WORD, 0))
    ensures Exec(d, Control(word)) == d.(core := d.core.(bit7 := Bit(word, 7)),
                                         power := ApplyControl(d.power, d.clearable, d.core.bit7, word))
  {
  }

  lemma SettledStays(d: Drive, word: Word32)
    ensures Settled(d.power) ==> Settled(ApplyControl(d.power, d.clearable, d.core.bit7, word))
  {
  }

  lemma ResetSettles(p: Power, clearable: bool, bit7: bool)
    requires Settled(p)
    ensures Settled(ApplyControl(p, clearable, bit7, FAULT_RESET))
    ensures p == Fault && !(clearable && !bit7) ==> ApplyControl(p, clearable, bit7, FAULT_RESET) == Fault
  {
  }

  lemma DeafDrive(d: Drive)
    requires d.core.nmt == PreOperational
    ensures EmitTpdo1(d) == [] && EmitTpdo2(d) == []
    ensures CoreExec(d.core, Sync) == d.core && forall p :: CoreExec(d.core, Rpdo1(p)) == d.core
  {
    hide Pack, Unpack, MappedBytes;
  }

  /**
   A drive configured once has its PDOs under their pre-defined ids: the next activation finds it fit for remapping.
   */
  lemma ConfiguredIsPredefined(c: Core)
    requires Configured(c)
    ensures PredefinedIds(c)
  {
    hide MapEntry;
  }
}
