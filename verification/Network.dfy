// The CAN bus between the host and the drives, and everything that can happen on it while the host is not looking.

/**
 One link per drive: frames the host has sent and the drive has not taken yet, the drive, and frames the drive has
 sent and the host has not taken yet. Both directions are FIFO and may lose frames. Request ids, epochs (activation
 numbers), the histories (`reported`, `enables`, `resets`) and the counters of frames that never reached the drive
 (`lost`: all, `missed`: shutdown control words) are bookkeeping; no drive and no host code looks at them.
 */
module CanNetwork {
  import opened Wrappers
  import opened PxxCan
  import opened Cia402Drive

  datatype Request = Request(id: nat, epoch: nat, msg: HostMessage)

  /** `id` is the request answered, or the last request served when the frame was sent. */
  datatype Reply = Reply(id: nat, msg: DriveMessage)

  datatype Served = Served(request: Request, before: Drive)

  /** A position the drive reported by SDO, and the activation that asked for it. */
  datatype Reading = Reading(counts: int, epoch: nat)

  /** One entry into Operation Enabled: mode and target at that moment, and the activation that commanded it. */
  datatype Enabling = Enabling(mode: nat, target: int, reported: Option<Reading>, epoch: nat)

  datatype Link = Link(drive: Drive, down: seq<Request>, up: seq<Reply>, last: Option<Served>,
                       reported: Option<Reading>, enables: seq<Enabling>, resets: seq<bool>, lost: nat, missed: nat)

  datatype Stored = Stored(id: nat, response: SdoResponse)

  datatype RxEvent = Heard(node: nat, msg: DriveMessage) | Seeded(node: nat, counts: int)

  /** One thing that has happened: a step of the environment or the receive thread, or an action of the main thread. */
  datatype Happening =
    | Passed(choice: Choice, mode: Listening)
    | Sent(frame: Frame, id: nat, epoch: nat)
    | Refused(frame: Frame)
    | Forgot                                // the stored response was reset
    | GaveUp(id: nat)                       // a transaction timed out
    | Noted(node: nat, counts: int)         // a seed was stored in the feedback table
    | Cleared                               // the feedback table was cleared

  /** Network plus the state the receive thread shares with the main thread, and everything that has led to it. */
  datatype World = World(links: map<nat, Link>, stored: Option<Stored>, log: seq<RxEvent>, expired: set<nat>,
                         trouble: nat,
                         trace: seq<Happening>)

  // What can happen to a link --------------------------------------------------------------------------------

  datatype Event =
    | Deliver
    | LoseDown
    | LoseUp
    | Fail(errorCode: Word16)   // the drive trips
    | Settle                    // fault reaction finished
    | Boot                      // initialisation finished
    | Move(position: int, velocity: int, other: StatusBits)   // other: the status bits beside the power state
    | Beat(state: Byte)         // heartbeat
    | Async1                    // TPDO1 / TPDO2 on the drive's own initiative
    | Async2

  function LastId(l: Link): nat {
    if l.last.None? then 0 else l.last.value.request.id
  }

  function Tag(id: nat, ms: seq<DriveMessage>): (s: seq<Reply>)
    ensures |s| == |ms|
    ensures forall i :: 0 <= i < |s| ==> s[i] == Reply(id, ms[i])
  {
    seq(|ms|, i requires 0 <= i < |ms| => Reply(id, ms[i]))
  }

  function ToSeq(a: Option<DriveMessage>): seq<DriveMessage> {
    if a.Some? then [a.value] else []
  }

  predicate IsReset(m: HostMessage) {
    IsControl(m) && Bit(m.value, 7)
  }

  /** The drive takes the oldest frame addressed to it. */
  function DeliverHead(l: Link): Link
    requires l.down != []
  {
    var r, d := l.down[0], l.drive;
    var d', a := Exec(d, r.msg), Answer(d, r.msg);
    Link(d', l.down[1..],
         l.up + Tag(r.id, ToSeq(a) + if r.msg.Sync? then OnSync(d') else []),
         Some(Served(r, d)),
         if r.msg == SdoRead(POSITION_ACTUAL, 0) && a.Some? then Some(Reading(d.position, r.epoch)) else l.reported,
         if d.power != OperationEnabled && d'.power == OperationEnabled
         then l.enables + [Enabling(d.core.mode, d.core.target, l.reported, r.epoch)] else l.enables,
         if IsReset(r.msg) && d.core.nmt != Stopped then l.resets + [!d.core.bit7] else l.resets,
         l.lost, l.missed)
  }

  predicate IsShutdown(m: HostMessage) {
    m == SdoWrite(CONTROL_WORD, 0, SHUTDOWN, 2)
  }

  /** A frame for this drive never got there. */
  function Lost(l: Link, m: HostMessage): Link {
    l.(lost := l.lost + 1, missed := l.missed + if IsShutdown(m) then 1 else 0)
  }

  function Emit(l: Link, ms: seq<DriveMessage>): Link {
    l.(up := l.up + Tag(LastId(l), ms))
  }

  function LinkStep(l: Link, e: Event): Link {
    match e
    case Deliver => if l.down == [] then l else DeliverHead(l)
    case LoseDown => if l.down == [] then l else Lost(l.(down := l.down[1..]), l.down[0].msg)
    case LoseUp => if l.up == [] then l else l.(up := l.up[1..])
    case Fail(code) =>
      if l.drive.power in {NotReady, Fault} then l
      else Emit(l.(drive := l.drive.(power := FaultReaction, code := code)), [Emcy(code)])
    case Settle => if l.drive.power == FaultReaction then l.(drive := l.drive.(power := Fault)) else l
    case Boot => if l.drive.power == NotReady then l.(drive := l.drive.(power := SwitchOnDisabled)) else l
    case Move(p, v, o) =>
      if IsInt32(p) && IsInt32(v) then l.(drive := l.drive.(position := p, velocity := v, other := o)) else l
    case Beat(state) => Emit(l, [Heartbeat(state)])
    case Async1 => if l.drive.core.tpdo1.transmission == SYNC_EVERY then l else Emit(l, EmitTpdo1(l.drive))
    case Async2 => if l.drive.core.tpdo2.transmission == SYNC_EVERY then l else Emit(l, EmitTpdo2(l.drive))
  }

  /** A frame really lost, or a fault of a drive that had none. */
  predicate Costs(l: Link, e: Event) {
    (e.LoseDown? && l.down != []) || (e.LoseUp? && l.up != []) || (e.Fail? && l.drive.power !in {NotReady, Fault})
  }

  /**
   What becomes of a frame that reaches the host: dropped (socket closed), taken unless it is an SDO answer (the main
   thread holds the mutex), taken.
   */
  datatype Listening = Off | NoAnswers | All

  datatype Choice = At(node: nat, event: Event) | Hear(node: nat)

  /** An answer whose transaction has already given up never reaches the host (see README, assumptions). */
  function Stepped(w: World, c: Choice, mode: Listening): World {
    if c.node !in w.links then w
    else
      var l := w.links[c.node];
      match c
      case At(n, e) =>
        w.(links := w.links[n := LinkStep(l, e)], trouble := w.trouble + if Costs(l, e) then 1 else 0)
      case Hear(n) =>
        if l.up == [] then w
        else
          var reply := l.up[0];
          var popped := w.links[n := l.(up := l.up[1..])];
          if mode.Off? then w.(links := popped)
          else if !IsSdo(reply.msg) then w.(links := popped, log := w.log + [Heard(n, reply.msg)])
          else if mode.NoAnswers? then w
          else if reply.id in w.expired then w.(links := popped)
          else
            w.(links := popped, stored := Some(Stored(reply.id, Response(n, reply.msg))),
               log := w.log + [Heard(n, reply.msg)])
  }

  function Add(w: World, h: Happening): World {
    w.(trace := w.trace + [h])
  }

  function Step(w: World, c: Choice, mode: Listening): World {
    Add(Stepped(w, c, mode), Passed(c, mode))
  }

  function Run(w: World, cs: seq<Choice>, mode: Listening): World {
    if cs == [] then w else Step(Run(w, cs[..|cs| - 1], mode), cs[|cs| - 1], mode)
  }

  function StoredFor(w: World, n: nat): Option<Stored> {
    if w.stored.Some? && w.stored.value.response.node == n then w.stored else None
  }

  // Sending --------------------------------------------------------------------------------------------------

  function Push(l: Link, m: Option<HostMessage>, id: nat, epoch: nat): Link {
    if m.None? then l else l.(down := l.down + [Request(id, epoch, m.value)])
  }

  function Miss(l: Link, m: Option<HostMessage>): Link {
    if m.None? then l else Lost(l, m.value)
  }

  function Broadcast(w: World, f: Frame, id: nat, epoch: nat): World {
    Add(w.(links := map n | n in w.links :: Push(w.links[n], Decode(n, f), id, epoch)), Sent(f, id, epoch))
  }

  function Failed(w: World, f: Frame): World {
    Add(w.(links := map n | n in w.links :: Miss(w.links[n], Decode(n, f)), trouble := w.trouble + 1), Refused(f))
  }

  // What else the main thread does ---------------------------------------------------------------------------

  function Forget(w: World): World {
    Add(w.(stored := None), Forgot)
  }

  function GiveUp(w: World, id: nat): World {
    Add(w.(expired := w.expired + {id}, trouble := w.trouble + 1), GaveUp(id))
  }

  function Note(w: World, n: nat, counts: int): World {
    Add(w.(log := w.log + [Seeded(n, counts)]), Noted(n, counts))
  }

  function ClearTable(w: World): World {
    Add(w.(log := []), Cleared)
  }

  // The whole story ------------------------------------------------------------------------------------------

  function Apply(w: World, h: Happening): World {
    match h
    case Passed(c, mode) => Step(w, c, mode)
    case Sent(f, id, epoch) => Broadcast(w, f, id, epoch)
    case Refused(f) => Failed(w, f)
    case Forgot => Forget(w)
    case GaveUp(id) => GiveUp(w, id)
    case Noted(n, counts) => Note(w, n, counts)
    case Cleared => ClearTable(w)
  }

  /** The world that a trace leads to. */
  function Replay(origin: World, trace: seq<Happening>): World {
    if trace == [] then origin.(trace := [])
    else Apply(Replay(origin, trace[..|trace| - 1]), trace[|trace| - 1])
  }

  /** Every frame the main thread handed to the socket. */
  function FramesOf(trace: seq<Happening>): seq<Frame> {
    if trace == [] then []
    else
      var h := trace[|trace| - 1];
      FramesOf(trace[..|trace| - 1]) + if h.Sent? || h.Refused? then [h.frame] else []
  }

  function StepCost(w: World, c: Choice): nat {
    if c.At? && c.node in w.links && Costs(w.links[c.node], c.event) then 1 else 0
  }

  /** What a happening adds to the trouble. */
  function Cost(w: World, h: Happening): nat {
    match h
    case Passed(c, _) => StepCost(w, c)
    case Refused(_) => 1
    case GaveUp(_) => 1
    case _ => 0
  }

  /** Among the happenings from index `from` on there is a loss, a fault, a refused frame or a timeout. */
  ghost predicate WentWrong(origin: World, trace: seq<Happening>, from: nat) {
    exists k :: from <= k < |trace| && Cost(Replay(origin, trace[..k]), trace[k]) > 0
  }

  /** The story of w continues that of w0. */
  predicate Since(w0: World, w: World) {
    |w0.trace| <= |w.trace| && w.trace[..|w0.trace|] == w0.trace
  }

  lemma SinceRefl(w: World)
    ensures Since(w, w)
  {
  }

  lemma SinceTrans(a: World, b: World, c: World)
    requires Since(a, b) && Since(b, c)
    ensures Since(a, c)
  {
    assert c.trace[..|a.trace|] == c.trace[..|b.trace|][..|a.trace|];
  }

  lemma ApplyCosts(w: World, h: Happening)
    ensures Apply(w, h).trouble == w.trouble + Cost(w, h)
    ensures Apply(w, h).trace == w.trace + [h]
  {
  }

  lemma {:induction false} ReplayTrace(origin: World, trace: seq<Happening>)
    ensures Replay(origin, trace).trace == trace
  {
    hide Apply, Cost;
    if trace != [] {
      var earlier, last := trace[..|trace| - 1], trace[|trace| - 1];
      ReplayTrace(origin, earlier);
      ApplyCosts(Replay(origin, earlier), last);
      assert trace == earlier + [last];
    }
  }

  lemma ReplayMore(origin: World, trace: seq<Happening>, h: Happening)
    ensures Replay(origin, trace + [h]) == Apply(Replay(origin, trace), h)
  {
    hide Apply;
    assert (trace + [h])[..|trace + [h]| - 1] == trace;
  }

  /** One more happening. */
  lemma WentWrongMore(origin: World, trace: seq<Happening>, h: Happening, from: nat)
    requires from <= |trace|
    ensures WentWrong(origin, trace + [h], from) <==>
            WentWrong(origin, trace, from) || Cost(Replay(origin, trace), h) > 0
  {
    hide Replay, Cost;
    var more := trace + [h];
    assert more[..|trace|] == trace && more[|trace|] == h;
    if WentWrong(origin, trace, from) {
      var k :| from <= k < |trace| && Cost(Replay(origin, trace[..k]), trace[k]) > 0;
      assert more[..k] == trace[..k] && more[k] == trace[k];
    }
    if WentWrong(origin, more, from) {
      var k :| from <= k < |more| && Cost(Replay(origin, more[..k]), more[k]) > 0;
      if k < |trace| { assert more[..k] == trace[..k] && more[k] == trace[k]; }
    }
  }

  /** Trouble has grown since `from` exactly if something has gone wrong since then. */
  lemma {:induction false} TroubleMeansSomethingWentWrong(origin: World, trace: seq<Happening>, from: nat)
    requires from <= |trace|
    ensures Replay(origin, trace[..from]).trouble <= Replay(origin, trace).trouble
    ensures Replay(origin, trace[..from]).trouble < Replay(origin, trace).trouble <==> WentWrong(origin, trace, from)
    decreases |trace|
  {
    if from == |trace| {
      assert trace[..from] == trace;
    } else {
      var earlier, h := trace[..|trace| - 1], trace[|trace| - 1];
      assert trace == earlier + [h] && earlier[..from] == trace[..from];
      hide Apply, Cost, Replay, WentWrong;
      TroubleMeansSomethingWentWrong(origin, earlier, from);
      ReplayMore(origin, earlier, h);
      ApplyCosts(Replay(origin, earlier), h);
      WentWrongMore(origin, earlier, h, from);
    }
  }

  // Invariants of every link, always -------------------------------------------------------------------------

  predicate SortedReplies(up: seq<Reply>) {
    forall i, j :: 0 <= i < j < |up| ==>
                     up[i].id <= up[j].id && (IsSdo(up[i].msg) && IsSdo(up[j].msg) ==> up[i].id < up[j].id)
  }

  predicate RepliesUpTo(up: seq<Reply>, id: nat) {
    forall i :: 0 <= i < |up| ==> up[i].id <= id
  }

  predicate SortedRequests(down: seq<Request>, low: nat, high: nat) {
    && (forall i :: 0 <= i < |down| ==> low < down[i].id < high)
    && (forall i, j :: 0 <= i < j < |down| ==> down[i].id < down[j].id)
  }

  predicate StoredBefore(s: Option<Stored>, up: seq<Reply>, id: nat) {
    s.Some? ==>
      && s.value.id <= id
      && (forall i :: 0 <= i < |up| ==> s.value.id <= up[i].id && (IsSdo(up[i].msg) ==> s.value.id < up[i].id))
  }

  /** Ids grow along the path request -> drive -> answer -> stored answer. */
  predicate Ordered(l: Link, s: Option<Stored>, next: nat) {
    && LastId(l) < next
    && SortedRequests(l.down, LastId(l), next)
    && RepliesUpTo(l.up, LastId(l))
    && SortedReplies(l.up)
    && StoredBefore(s, l.up, LastId(l))
  }

  predicate IsSdoRequest(m: HostMessage) {
    m.SdoWrite? || m.SdoRead?
  }

  predicate IsControlKey(index: nat, subindex: nat) {
    index == CONTROL_WORD && subindex == 0
  }

  predicate PlainRequest(m: HostMessage) {
    IsSdoRequest(m) && IsControlKey(m.index, m.subindex) ==> IsControl(m)
  }

  predicate PlainAnswer(m: DriveMessage) {
    IsSdo(m) && IsControlKey(m.index, m.subindex) ==> m.Ack?
  }

  /** All SDO traffic about 6040h:0 is control words and their acknowledgements. */
  predicate PlainAcks(l: Link, s: Option<Stored>) {
    && (forall i :: 0 <= i < |l.up| ==> PlainAnswer(l.up[i].msg))
    && (forall i :: 0 <= i < |l.down| ==> PlainRequest(l.down[i].msg))
    && (s.Some? && IsControlKey(s.value.response.index, s.value.response.subindex) ==> !s.value.response.aborted)
  }

  /** Messages that leave mode, target and reported position alone. */
  predicate Inert(m: HostMessage) {
    m.Nmt? || IsControl(m)
  }

  predicate ReadyToEnable(l: Link, epoch: nat) {
    l.drive.core.mode == CYCLIC_SYNC_POSITION && l.reported == Some(Reading(l.drive.core.target, epoch))
  }

  /** An enable command under way finds the drive seeded, and nothing ahead of it can change that. */
  predicate EnableGuard(l: Link) {
    forall i :: 0 <= i < |l.down| && IsEnable(l.down[i].msg) ==>
                  ReadyToEnable(l, l.down[i].epoch) && forall j :: 0 <= j < i ==> Inert(l.down[j].msg)
  }

  /** The drive was enabled holding the position it had reported in that same activation. */
  predicate NoJump(e: Enabling) {
    e.mode == CYCLIC_SYNC_POSITION && e.reported == Some(Reading(e.target, e.epoch))
  }

  /** State of the drive's core once it has taken everything under way. */
  function Fold(c: Core, down: seq<Request>): Core
    decreases |down|
  {
    if down == [] then c else Fold(CoreExec(c, down[0].msg), down[1..])
  }

  function NextPower(c: Core, p: Power, clearable: bool, m: HostMessage): Power {
    if IsControl(m) && c.nmt != Stopped then ApplyControl(p, clearable, c.bit7, m.value) else p
  }

  function PowerFold(c: Core, p: Power, clearable: bool, down: seq<Request>): Power
    decreases |down|
  {
    if down == [] then p
    else PowerFold(CoreExec(c, down[0].msg), NextPower(c, p, clearable, down[0].msg), clearable, down[1..])
  }

  /** Power state the control words under way lead to, if the drive stays healthy. */
  function Ahead(l: Link): Power {
    PowerFold(l.drive.core, l.drive.power, l.drive.clearable, l.down)
  }

  /** Bit 7 as the worst case has it: set by a fault reset, cleared by a shutdown, whatever else may get lost. */
  function Armed(bit: bool, down: seq<Request>): bool
    decreases |down|
  {
    if down == [] then bit
    else Armed(IsReset(down[0].msg) || (bit && !IsShutdown(down[0].msg)), down[1..])
  }

  /** Every fault reset under way will find bit 7 clear. */
  predicate Rising(bit: bool, down: seq<Request>)
    decreases |down|
  {
    down == [] ||
    ((IsReset(down[0].msg) ==> !bit) && Rising(IsReset(down[0].msg) || (bit && !IsShutdown(down[0].msg)), down[1..]))
  }

  /** A drive whose bit 7 is set listens to control words, and nothing under way will stop it. */
  predicate Obedient(l: Link) {
    && (l.drive.core.bit7 ==> l.drive.core.nmt != Stopped)
    && (forall i :: 0 <= i < |l.down| ==> l.down[i].msg != Nmt(0x02))
  }

  /** If no shutdown control word was ever lost, bit 7 will be clear once everything under way has arrived. */
  predicate Bit7Clear(l: Link) {
    Obedient(l) && (l.missed == 0 ==> !Armed(l.drive.core.bit7, l.down))
  }

  /** While no shutdown control word has been lost, every fault reset is a rising edge of bit 7. */
  predicate Edges(l: Link) {
    && Obedient(l)
    && (l.missed == 0 ==> (forall i :: 0 <= i < |l.resets| ==> l.resets[i]) && Rising(l.drive.core.bit7, l.down))
  }

  /** The host has had this drive report its position, or has enabled it. */
  predicate Woken(l: Link) {
    l.reported.Some? || l.enables != []
  }

  /** Such a drive is not in the NMT state Stopped. */
  predicate Awake(l: Link) {
    Woken(l) ==> l.drive.core.nmt != Stopped
  }

  predicate LinkOk(n: nat, l: Link, s: Option<Stored>, next: nat) {
    && l.drive.core.node == n
    && IsInt32(l.drive.position) && IsInt32(l.drive.velocity)
    && Ordered(l, s, next)
    && EnableGuard(l)
    && (forall i :: 0 <= i < |l.enables| ==> NoJump(l.enables[i]))
    && Edges(l)
    && Awake(l)
    && PlainAcks(l, s)
  }

  predicate WorldOk(w: World, next: nat) {
    && 0 < next
    && (forall n :: n in w.links ==> IsNode(n) && LinkOk(n, w.links[n], StoredFor(w, n), next))
    && (w.stored.Some? ==> w.stored.value.response.node in w.links)
  }

  /** What one received message does to mode, target and the enable command. */
  lemma ExecKeepsPose(d: Drive, m: HostMessage)
    ensures Inert(m) ==> CoreExec(d.core, m).mode == d.core.mode && CoreExec(d.core, m).target == d.core.target
    ensures Exec(d, m).power == OperationEnabled && d.power != OperationEnabled ==> IsEnable(m)
    ensures IsEnable(m) ==> Inert(m) && !IsReset(m)
  {
  }

  /** Frames a drive adds keep the order: at most one answer, and only when the tag is new. */
  lemma AppendReplies(up: seq<Reply>, s: Option<Stored>, last: nat, id: nat, ms: seq<DriveMessage>)
    requires SortedReplies(up) && RepliesUpTo(up, last) && StoredBefore(s, up, last) && last <= id
    requires forall i :: 0 <= i < |ms| && IsSdo(ms[i]) ==> i == 0 && last < id
    ensures var up' := up + Tag(id, ms); SortedReplies(up') && RepliesUpTo(up', id) && StoredBefore(s, up', id)
  {
    var t := Tag(id, ms);
    var up' := up + t;
    forall i, j | 0 <= i < j < |up'|
      ensures up'[i].id <= up'[j].id && (IsSdo(up'[i].msg) && IsSdo(up'[j].msg) ==> up'[i].id < up'[j].id)
    {
      if j >= |up| {
        assert up'[j] == t[j - |up|];
        if i >= |up| { assert up'[i] == t[i - |up|]; }
      }
    }
  }

  lemma NoSdoInPdos(d: Drive)
    ensures forall i :: 0 <= i < |EmitTpdo1(d)| ==> EmitTpdo1(d)[i].Tpdo1?
    ensures forall i :: 0 <= i < |EmitTpdo2(d)| ==> EmitTpdo2(d)[i].Tpdo2?
    ensures forall i :: 0 <= i < |OnSync(d)| ==> !IsSdo(OnSync(d)[i])
    ensures d.core.nmt != Operational ==> EmitTpdo1(d) == [] && EmitTpdo2(d) == []
  {
  }

  lemma NoAnswerToOthers(d: Drive, m: HostMessage)
    ensures Answer(d, m).Some? ==> (m.SdoWrite? || m.SdoRead?) && IsSdo(Answer(d, m).value)
  {
  }

  lemma PopReplies(up: seq<Reply>, s: Option<Stored>, last: nat)
    requires SortedReplies(up) && RepliesUpTo(up, last) && StoredBefore(s, up, last) && up != []
    ensures SortedReplies(up[1..]) && RepliesUpTo(up[1..], last) && StoredBefore(s, up[1..], last)
  {
  }

  lemma OrderedStep(l: Link, s: Option<Stored>, next: nat, e: Event)
    requires Ordered(l, s, next)
    ensures Ordered(LinkStep(l, e), s, next)
  {
    NoSdoInPdos(l.drive);
    hide Exec, Answer, OnSync, EmitTpdo1, EmitTpdo2, SortedReplies, RepliesUpTo, StoredBefore, IsSdo;
    match e {
      case Deliver =>
        if l.down != [] {
          var r := l.down[0];
          NoAnswerToOthers(l.drive, r.msg);
          NoSdoInPdos(Exec(l.drive, r.msg));
          var ms := ToSeq(Answer(l.drive, r.msg)) + if r.msg.Sync? then OnSync(Exec(l.drive, r.msg)) else [];
          AppendReplies(l.up, s, LastId(l), r.id, ms);
        }
      case LoseUp => if l.up != [] { PopReplies(l.up, s, LastId(l)); }
      case Fail(code) => PlainFrames(code); AppendReplies(l.up, s, LastId(l), LastId(l), [Emcy(code)]);
      case Beat(state) => PlainFrames(state); AppendReplies(l.up, s, LastId(l), LastId(l), [Heartbeat(state)]);
      case Async1 => PlainFrames(0); AppendReplies(l.up, s, LastId(l), LastId(l), EmitTpdo1(l.drive));
      case Async2 => PlainFrames(0); AppendReplies(l.up, s, LastId(l), LastId(l), EmitTpdo2(l.drive));
      case _ =>
    }
  }

  lemma PlainFrames(x: Word16)
    ensures !IsSdo(Emcy(x)) && (x < 256 ==> !IsSdo(Heartbeat(x)))
    ensures forall m: DriveMessage :: m.Tpdo1? || m.Tpdo2? ==> !IsSdo(m)
  {
  }

  lemma EnableStep(l: Link, e: Event)
    requires EnableGuard(l) && forall i :: 0 <= i < |l.enables| ==> NoJump(l.enables[i])
    ensures var l' := LinkStep(l, e); EnableGuard(l') && forall i :: 0 <= i < |l'.enables| ==> NoJump(l'.enables[i])
  {
    var l' := LinkStep(l, e);
    if l.down != [] && (e.Deliver? || e.LoseDown?) {
      ExecKeepsPose(l.drive, l.down[0].msg);
      forall i | 0 <= i < |l'.down| && IsEnable(l'.down[i].msg)
        ensures ReadyToEnable(l', l'.down[i].epoch) && forall j :: 0 <= j < i ==> Inert(l'.down[j].msg)
      {
        assert l'.down[i] == l.down[i + 1];
        assert Inert(l.down[0].msg);
        forall j | 0 <= j < i ensures Inert(l'.down[j].msg) { assert l'.down[j] == l.down[j + 1]; }
      }
    }
  }

  lemma EdgesStep(l: Link, e: Event)
    requires Edges(l)
    ensures Edges(LinkStep(l, e))
  {
    if l.down != [] {
      var c, m := l.drive.core, l.down[0].msg;
      var next := IsReset(m) || (c.bit7 && !IsShutdown(m));
      assert Rising(c.bit7, l.down) ==> Rising(next, l.down[1..]) && (IsReset(m) ==> !c.bit7);
      BitSeven(c, m);
      RisingLess(next, CoreExec(c, m).bit7, l.down[1..]);
      if !IsShutdown(m) { RisingLess(next, c.bit7, l.down[1..]); }
    }
    hide CoreExec, PowerExec, Rising, Answer, OnSync, EmitTpdo1, EmitTpdo2, IsReset, IsShutdown;
  }

  lemma Bit7ClearStep(l: Link, e: Event)
    requires Bit7Clear(l)
    ensures Bit7Clear(LinkStep(l, e))
  {
    if l.down != [] {
      var c, m := l.drive.core, l.down[0].msg;
      var next := IsReset(m) || (c.bit7 && !IsShutdown(m));
      assert Armed(c.bit7, l.down) == Armed(next, l.down[1..]);
      BitSeven(c, m);
      RisingLess(next, CoreExec(c, m).bit7, l.down[1..]);
      if !IsShutdown(m) { RisingLess(next, c.bit7, l.down[1..]); }
    }
    hide CoreExec, PowerExec, Armed, Answer, OnSync, EmitTpdo1, EmitTpdo2, IsReset, IsShutdown;
  }

  lemma {:induction false} RisingLess(bit: bool, bit': bool, down: seq<Request>)
    requires bit' ==> bit
    ensures Rising(bit, down) ==> Rising(bit', down)
    ensures Armed(bit', down) ==> Armed(bit, down)
    decreases |down|
  {
    if down != [] {
      var r, s := IsReset(down[0].msg), IsShutdown(down[0].msg);
      RisingLess(r || (bit && !s), r || (bit' && !s), down[1..]);
    }
  }

  /** What a message can do to bit 7 of the last control word. */
  lemma BitSeven(c: Core, m: HostMessage)
    requires c.bit7 ==> c.nmt != Stopped
    ensures CoreExec(c, m).bit7 ==> IsReset(m) || (c.bit7 && !IsShutdown(m))
    ensures m != Nmt(0x02) ==> (CoreExec(c, m).bit7 ==> CoreExec(c, m).nmt != Stopped)
  {
  }

  lemma AwakeStep(l: Link, e: Event)
    requires Awake(l) && Obedient(l)
    ensures Awake(LinkStep(l, e))
  {
    if l.down != [] { WakingExec(l.drive, l.down[0].msg); }
    hide CoreExec, PowerExec, Answer, OnSync, EmitTpdo1, EmitTpdo2, IsReset;
  }

  /** Only a drive that is not stopped answers and is enabled, and only NMT stop would stop it. */
  lemma WakingExec(d: Drive, m: HostMessage)
    ensures Answer(d, m).Some? || (d.power != OperationEnabled && PowerExec(d, m) == OperationEnabled) ==>
            d.core.nmt != Stopped
    ensures d.core.nmt != Stopped && m != Nmt(0x02) ==> CoreExec(d.core, m).nmt != Stopped
  {
  }

  lemma ControlIsAcked(d: Drive, m: HostMessage)
    requires PlainRequest(m)
    ensures Answer(d, m).Some? ==> PlainAnswer(Answer(d, m).value)
  {
  }

  lemma AppendPlain(up: seq<Reply>, id: nat, ms: seq<DriveMessage>)
    requires forall i :: 0 <= i < |up| ==> PlainAnswer(up[i].msg)
    requires forall i :: 0 <= i < |ms| ==> PlainAnswer(ms[i])
    ensures forall i :: 0 <= i < |up + Tag(id, ms)| ==> PlainAnswer((up + Tag(id, ms))[i].msg)
  {
    hide PlainAnswer;
    forall i | |up| <= i < |up + Tag(id, ms)| ensures PlainAnswer((up + Tag(id, ms))[i].msg) {
      assert (up + Tag(id, ms))[i] == Tag(id, ms)[i - |up|];
    }
  }

  lemma NoSdoIsPlain(ms: seq<DriveMessage>)
    ensures forall i :: 0 <= i < |ms| && !IsSdo(ms[i]) ==> PlainAnswer(ms[i])
  {
  }

  lemma PlainStep(l: Link, s: Option<Stored>, e: Event)
    requires PlainAcks(l, s)
    ensures PlainAcks(LinkStep(l, e), s)
  {
    hide Exec, Answer, OnSync, EmitTpdo1, EmitTpdo2, PlainAnswer, PlainRequest, IsSdo, IsControlKey;
    NoSdoInPdos(l.drive);
    match e {
      case Deliver =>
        if l.down != [] {
          var r, d' := l.down[0], Exec(l.drive, l.down[0].msg);
          NoSdoInPdos(d');
          ControlIsAcked(l.drive, r.msg);
          NoSdoIsPlain(OnSync(d'));
          AppendPlain(l.up, r.id, ToSeq(Answer(l.drive, r.msg)) + if r.msg.Sync? then OnSync(d') else []);
        }
      case Fail(code) => PlainFrames(code); NoSdoIsPlain([Emcy(code)]); AppendPlain(l.up, LastId(l), [Emcy(code)]);
      case Beat(state) =>
        PlainFrames(state);
        NoSdoIsPlain([Heartbeat(state)]);
        AppendPlain(l.up, LastId(l), [Heartbeat(state)]);
      case Async1 => PlainFrames(0); NoSdoIsPlain(EmitTpdo1(l.drive)); AppendPlain(l.up, LastId(l), EmitTpdo1(l.drive));
      case Async2 => PlainFrames(0); NoSdoIsPlain(EmitTpdo2(l.drive)); AppendPlain(l.up, LastId(l), EmitTpdo2(l.drive));
      case _ =>
    }
  }

  lemma LinkOkStep(n: nat, l: Link, s: Option<Stored>, next: nat, e: Event)
    requires LinkOk(n, l, s, next)
    ensures LinkOk(n, LinkStep(l, e), s, next)
  {
    OrderedStep(l, s, next, e);
    EnableStep(l, e);
    EdgesStep(l, e);
    AwakeStep(l, e);
    PlainStep(l, s, e);
    hide Ordered, EnableGuard, NoJump, Edges, Awake, PlainAcks;
    StepKeepsDrive(n, l, e);
  }

  lemma StepKeepsDrive(n: nat, l: Link, e: Event)
    requires l.drive.core.node == n && IsInt32(l.drive.position) && IsInt32(l.drive.velocity)
    ensures var d := LinkStep(l, e).drive; d.core.node == n && IsInt32(d.position) && IsInt32(d.velocity)
  {
    hide CoreExec, PowerExec;
  }

  lemma LinkOkHear(n: nat, l: Link, s: Option<Stored>, next: nat)
    requires LinkOk(n, l, s, next) && l.up != []
    ensures var l' := l.(up := l.up[1..]);
            && LinkOk(n, l', s, next)
            && (IsSdo(l.up[0].msg) ==> LinkOk(n, l', Some(Stored(l.up[0].id, Response(n, l.up[0].msg))), next))
  {
  }

  lemma LinkOkForget(n: nat, l: Link, s: Option<Stored>, next: nat)
    requires LinkOk(n, l, s, next)
    ensures LinkOk(n, l, None, next)
  {
  }

  /** The receive thread took the oldest frame of drive n. */
  predicate Heeded(w: World, w': World, n: nat, m: DriveMessage, id: nat) {
    && (IsSdo(m) ==> id !in w.expired)
    && w'.log == w.log + [Heard(n, m)]
    && StoredFor(w', n) == (if IsSdo(m) then Some(Stored(id, Response(n, m))) else StoredFor(w, n))
  }

  /** What a step does as seen from drive n. */
  predicate SeenFrom(w: World, w': World, c: Choice, n: nat)
    requires n in w.links && n in w'.links
  {
    var l, l' := w.links[n], w'.links[n];
    if c.node != n then
      && l' == l
      && (StoredFor(w', n) == StoredFor(w, n) || StoredFor(w', n) == None)
      && (w'.log == w.log || (|w'.log| > 0 && w'.log[|w'.log| - 1].Heard? && w'.log[|w'.log| - 1].node != n &&
                              w'.log[..|w'.log| - 1] == w.log))
    else if c.At? then
      l' == LinkStep(l, c.event) && w'.log == w.log && StoredFor(w', n) == StoredFor(w, n)
    else
      (l' == l && w'.log == w.log && StoredFor(w', n) == StoredFor(w, n)) ||
      (&& l.up != [] && l' == l.(up := l.up[1..])
       && ((w'.log == w.log && StoredFor(w', n) == StoredFor(w, n)) || Heeded(w, w', n, l.up[0].msg, l.up[0].id)))
  }

  lemma StepKeepsNodes(w: World, c: Choice, mode: Listening)
    ensures var w' := Step(w, c, mode);
            && w'.links.Keys == w.links.Keys
            && (w'.stored == w.stored || (w'.stored.Some? && w'.stored.value.response.node in w.links))
  {
  }

  lemma StepSeenFrom(w: World, c: Choice, mode: Listening, n: nat)
    requires n in w.links
    ensures var w' := Step(w, c, mode);
            && w'.links.Keys == w.links.Keys && w'.expired == w.expired
            && w'.trouble == w.trouble + StepCost(w, c)
            && SeenFrom(w, w', c, n)
  {
    var w' := Step(w, c, mode);
    if w'.log != w.log {
      assert w'.log[..|w'.log| - 1] == w.log;
    }
  }

  lemma WorldOkStep(w: World, next: nat, c: Choice, mode: Listening)
    requires WorldOk(w, next)
    ensures WorldOk(Step(w, c, mode), next)
    ensures Step(w, c, mode).links.Keys == w.links.Keys
  {
    hide Step, LinkOk, LinkStep;
    var w' := Step(w, c, mode);
    StepKeepsNodes(w, c, mode);
    forall n | n in w.links ensures LinkOk(n, w'.links[n], StoredFor(w', n), next) {
      StepSeenFrom(w, c, mode, n);
      var l, s := w.links[n], StoredFor(w, n);
      LinkOkForget(n, l, s, next);
      if c.At? { LinkOkStep(n, l, s, next, c.event); }
      if l.up != [] { LinkOkHear(n, l, s, next); }
    }
  }

  lemma {:induction false} WorldOkRun(w: World, next: nat, cs: seq<Choice>, mode: Listening)
    requires WorldOk(w, next)
    ensures WorldOk(Run(w, cs, mode), next)
    ensures Run(w, cs, mode).links.Keys == w.links.Keys
  {
    if cs != [] {
      WorldOkRun(w, next, cs[..|cs| - 1], mode);
      WorldOkStep(Run(w, cs[..|cs| - 1], mode), next, cs[|cs| - 1], mode);
    }
  }
}
