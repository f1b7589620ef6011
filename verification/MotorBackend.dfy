// SocketCanMotorBackend: activation, SDO transactions, cyclic read and write, and the body of the receive loop.

module MotorBackend {
  import opened Wrappers
  import opened PxxCan
  import opened Cia402Drive
  import opened CanNetwork
  import opened SdoTransactions
  import opened CyclicOperation
  import opened Sending
  import opened BringUp
  import opened BringUpScript
  import opened CommandHistory
  import opened Lifecycle
  import opened CanTransport
  import opened Counts

  datatype MotorFeedback = MotorFeedback(position: int, velocity: int, statusWord: Word16, errorCode: Word16)

  const TABLE_SIZE := 128

  /** What the table must hold for node n: the last value heard (or seeded) for each field since activation. */
  function TableEntry(log: seq<RxEvent>, n: nat): MotorFeedback {
    MotorFeedback(PositionOf(log, n), VelocityOf(log, n), StatusOf(log, n), ErrorOf(log, n))
  }

  lemma TableEntryAppend(log: seq<RxEvent>, e: RxEvent, n: nat)
    ensures e.node != n ==> TableEntry(log + [e], n) == TableEntry(log, n)
    ensures e.node == n && e.Seeded? ==> TableEntry(log + [e], n) == TableEntry(log, n).(position := e.counts)
    ensures e.node == n && e.Heard? ==>
              TableEntry(log + [e], n) ==
              (if IsMotion(e.msg) then TableEntry(log, n).(position := ToI32(WordOf(e.msg.payload[0..4])),
                                                       velocity := ToI32(WordOf(e.msg.payload[4..8])))
               else if e.msg.Tpdo2? && |e.msg.payload| >= 2
                   then TableEntry(log, n).(statusWord := HalfWordOf(e.msg.payload[0..2]))
               else if e.msg.Emcy? then TableEntry(log, n).(errorCode := e.msg.errorCode)
               else TableEntry(log, n))
  {
    assert (log + [e])[..|log + [e]| - 1] == log;
  }

  datatype JointState = JointState(position: real, velocity: real)

  /** The joint state a read takes from what was heard of drive n. */
  function StateOf(log: seq<RxEvent>, n: nat, gear: real): JointState
    requires gear != 0.0
  {
    JointState(CountsToRad(PositionOf(log, n)) / gear, VelocityToRadS(VelocityOf(log, n)) / gear)
  }

  /** At the motor shaft the state is the angle and the speed that counts and counts per second stand for. */
  predicate AtTheShaft(state: JointState, counts: int, rate: int, gear: real) {
    state.position * gear == CountsToRad(counts) && state.velocity * gear == CountsToRad(rate)
  }

  lemma StateAtTheShaft(log: seq<RxEvent>, n: nat, gear: real)
    requires gear != 0.0
    ensures AtTheShaft(StateOf(log, n, gear), PositionOf(log, n), VelocityOf(log, n), gear)
  {
    hide PositionOf, VelocityOf;
    var p, v := CountsToRad(PositionOf(log, n)), VelocityToRadS(VelocityOf(log, n));
    assert p / gear * gear == p && v / gear * gear == v;
  }

  /** Velocity is the rate of position at the joint: of a drive that moved t seconds at the speed it reported. */
  lemma VelocityIsRate(log: seq<RxEvent>, later: seq<RxEvent>, n: nat, gear: real, t: int)
    requires gear != 0.0 && PositionOf(later, n) == PositionOf(log, n) + VelocityOf(log, n) * t
    ensures StateOf(later, n, gear).position - StateOf(log, n, gear).position ==
            StateOf(log, n, gear).velocity * t as real
  {
    hide PositionOf, VelocityOf;
    var p, v, q := PositionOf(log, n) as real, VelocityOf(log, n) as real, PositionOf(later, n) as real;
    assert q == p + v * t as real by { ProductAsReal(VelocityOf(log, n), t); }
    ScaledRate(p, v, q, t as real, TWO_PI, COUNTS_PER_REV, gear);
  }

  lemma ProductAsReal(a: int, b: int)
    ensures (a * b) as real == a as real * b as real
  {
  }

  lemma ScaledRate(p: real, v: real, q: real, t: real, turn: real, counts: real, gear: real)
    requires q == p + v * t && counts != 0.0 && gear != 0.0
    ensures q * turn / counts / gear - p * turn / counts / gear == v * turn / counts / gear * t
  {
    var x, y, z := q * turn / counts / gear, p * turn / counts / gear, v * turn / counts / gear;
    assert q * turn == x * gear * counts && p * turn == y * gear * counts && v * turn == z * gear * counts;
    assert q * turn == p * turn + v * turn * t;
    assert (x - y - z * t) * (gear * counts) == 0.0;
  }

  /** std::vector::resize */
  function Resized(states: seq<JointState>, n: nat): (r: seq<JointState>)
    ensures |r| == n
    ensures forall i :: 0 <= i < n && i < |states| ==> r[i] == states[i]
    ensures |states| == n ==> r == states
  {
    if |states| >= n then states[..n] else states + seq(n - |states|, _ => JointState(0.0, 0.0))
  }

  /** The first k drives last reported a status word without the fault bit. */
  predicate NoFaultUpTo(log: seq<RxEvent>, nodes: seq<nat>, k: nat)
    requires k <= |nodes|
  {
    forall i :: 0 <= i < k ==> !Bit(StatusOf(log, nodes[i]), 3)
  }

  predicate SameKind(a: DriveMessage, b: DriveMessage) {
    (a.Tpdo1? && b.Tpdo1?) || (a.Tpdo2? && b.Tpdo2?) || (a.Emcy? && b.Emcy?)
  }

  /** The k-th entry is m from drive n, and nothing later for n replaces what m says. */
  predicate LastReportAt(log: seq<RxEvent>, n: nat, m: DriveMessage, k: nat) {
    && k < |log| && log[k] == Heard(n, m)
    && forall j :: k < j < |log| && log[j].node == n ==> !(log[j].Heard? && SameKind(log[j].msg, m)) &&
                                                         !(log[j].Seeded? && m.Tpdo1?)
  }

  /** The last report of this kind heard from drive n is m. */
  ghost predicate LastReport(log: seq<RxEvent>, n: nat, m: DriveMessage) {
    exists k :: LastReportAt(log, n, m, k)
  }

  lemma {:induction false} LastReportCounts(log: seq<RxEvent>, n: nat, m: DriveMessage, k: nat)
    requires LastReportAt(log, n, m, k)
    ensures IsMotion(m) ==> PositionOf(log, n) == ToI32(WordOf(m.payload[0..4])) &&
                            VelocityOf(log, n) == ToI32(WordOf(m.payload[4..8]))
    ensures m.Tpdo2? && |m.payload| >= 2 ==> StatusOf(log, n) == HalfWordOf(m.payload[0..2])
    ensures m.Emcy? ==> ErrorOf(log, n) == m.errorCode
  {
    hide HalfWordOf, WordOf;
    if k + 1 < |log| { LastReportCounts(log[..|log| - 1], n, m, k); }
  }

  /** After the last report of a configured drive the table shows the drive as it was when it reported. */
  lemma TableShowsTheDrive(log: seq<RxEvent>, d: Drive, m: DriveMessage)
    requires Configured(d.core) && IsNode(d.core.node) && IsInt32(d.position) && IsInt32(d.velocity)
    requires LastReport(log, d.core.node, m)
    ensures m in EmitTpdo1(d) ==>
              PositionOf(log, d.core.node) == d.position && VelocityOf(log, d.core.node) == d.velocity
    ensures m in EmitTpdo2(d) ==> StatusOf(log, d.core.node) == StatusWord(d.power, d.other)
    ensures m == Emcy(d.code) ==> ErrorOf(log, d.core.node) == d.code
  {
    hide Pack, WordOf, HalfWordOf, StatusWord, ToI32, PositionOf, VelocityOf, StatusOf, ErrorOf, MapEntry;
    var k :| LastReportAt(log, d.core.node, m, k);
    LastReportCounts(log, d.core.node, m, k);
    MotionLayoutAgrees(d);
    StatusLayoutAgrees(d);
    HeardAs(d.core.node, m);
  }

  /** With one status word heard of every drive, read() fails exactly if one of them was in fault when it sent it. */
  lemma ReadFailsOnFaults(log: seq<RxEvent>, nodes: seq<nat>, drives: seq<Drive>, reports: seq<DriveMessage>)
    requires |reports| == |drives| == |nodes|
    requires forall i :: 0 <= i < |nodes| ==> Reporting(log, nodes[i], drives[i], reports[i])
    ensures NoFaultUpTo(log, nodes, |nodes|) <==>
            forall i :: 0 <= i < |nodes| ==> drives[i].power != Fault && drives[i].power != FaultReaction
  {
    hide Reporting, StatusOf, Bit, StatusWord;
    forall i | 0 <= i < |nodes|
      ensures Bit(StatusOf(log, nodes[i]), 3) <==> drives[i].power == Fault || drives[i].power == FaultReaction
    {
      ReportedStatus(log, nodes[i], drives[i], reports[i]);
      LooksEnabledMeans(drives[i].power, drives[i].other);
    }
  }

  /** The last status word heard from node n is m, sent by the configured drive d. */
  ghost predicate Reporting(log: seq<RxEvent>, n: nat, d: Drive, m: DriveMessage) {
    && Configured(d.core) && d.core.node == n && IsNode(n) && IsInt32(d.position) && IsInt32(d.velocity)
    && m in EmitTpdo2(d) && LastReport(log, n, m)
  }

  lemma ReportedStatus(log: seq<RxEvent>, n: nat, d: Drive, m: DriveMessage)
    requires Reporting(log, n, d, m)
    ensures StatusOf(log, n) == StatusWord(d.power, d.other)
  {
    hide StatusOf, StatusWord, Configured, EmitTpdo1, EmitTpdo2, LastReport;
    TableShowsTheDrive(log, d, m);
  }

  lemma TableEntryFields(log: seq<RxEvent>, n: nat)
    ensures TableEntry(log, n) == MotorFeedback(PositionOf(log, n), VelocityOf(log, n), StatusOf(log, n),
                                                ErrorOf(log, n))
  {
  }

  /** A link nothing has travelled over yet; its last control word had bit 7 clear. */
  predicate FreshLink(n: nat, l: Link) {
    && l == Link(l.drive, [], [], None, None, [], [], 0, 0)
    && l.drive.core.node == n && !l.drive.core.bit7
    && IsInt32(l.drive.position) && IsInt32(l.drive.velocity)
  }

  lemma FreshIsOk(n: nat, l: Link, expired: set<nat>)
    requires FreshLink(n, l)
    ensures LinkOk(n, l, None, 1) && Bit7Clear(l) && !Raising(l) && StaleQueues(l, expired, 1)
  {
  }

  lemma StoryBegins(w: World)
    requires w.trace == []
    ensures Replay(w, []) == w
  {
  }

  lemma EmptyEntry(n: nat)
    ensures TableEntry([], n) == MotorFeedback(0, 0, 0, 0)
  {
  }

  /**
   The main thread looked at w4: a response that passes the test ends the transaction, well unless it is an abort;
   without one the transaction is given up.
   */
  predicate Looked(w4: World, w: World, node: nat, r: Request, ok: bool, value: Word32)
    requires IsSdoRequest(r.msg)
  {
    if w4.stored.Some? && Matches(w4.stored.value.response, node, r.msg) then
      w == w4 && ok == !w4.stored.value.response.aborted && (ok ==> value == w4.stored.value.response.value)
    else !ok && w == GiveUp(w4, r.id)
  }

  /** How far a failed activation came: the drives brought up, and what it tried on the next one. */
  datatype Part = Part(joints: seq<Joint>, position: Word32, checked: bool)

  /** From o on, the scripts of the drives brought up and, to the failing frame, that of the next one. */
  predicate CutOff(o: seq<Frame>, o': seq<Frame>, nodes: seq<nat>, part: Part)
    requires DistinctNodes(nodes)
  {
    && |part.joints| < |nodes| && (forall i :: 0 <= i < |part.joints| ==> part.joints[i].node == nodes[i])
    && Attempted(o, o', ActivationScript(part.joints) + NodeScript(nodes[|part.joints|], part.position, part.checked),
                 false)
  }

  /** The same, followed by the shutdown of all drives. */
  predicate CutShort(o: seq<Frame>, o': seq<Frame>, nodes: seq<nat>, part: Part)
    requires DistinctNodes(nodes)
  {
    var tail := ShutdownFrames(nodes, |nodes|);
    EndsWith(o', tail) && CutOff(o, o'[..|o'| - |tail|], nodes, part)
  }

  lemma ThenShutDown(o: seq<Frame>, o1: seq<Frame>, o2: seq<Frame>, nodes: seq<nat>, part: Part)
    requires DistinctNodes(nodes) && CutOff(o, o1, nodes, part) && o2 == o1 + ShutdownFrames(nodes, |nodes|)
    ensures CutShort(o, o2, nodes, part)
  {
    hide CutOff, ShutdownFrames;
    assert o2[..|o1|] == o1;
  }

  lemma NothingActivated(o: seq<Frame>)
    ensures Attempted(o, o, ActivationScript([]), true)
  {
  }

  predicate EndsWith<T(==)>(s: seq<T>, t: seq<T>) {
    |t| <= |s| && s[|s| - |t|..] == t
  }

  class SocketCanMotorBackend {
    const nodeIds: seq<nat>
    const gearRatios: seq<real>
    const transport: Transport
    const feedback: array<MotorFeedback>
    var rxRunning: bool
    var rxThread: bool                      // the receive thread exists (joinable)
    var sdoResponse: Option<SdoResponse>
    var epoch: nat                          // activations so far
    ghost const genesis: World               // the world as it was at the start
    ghost var trace: seq<Happening>          // everything that has happened since
    ghost var responseId: nat
    ghost var log: seq<RxEvent>
    ghost var logEpoch: nat                  // the activation `log` began with
    ghost var joints: seq<Joint>             // node, gear ratio, seed and frames lost before, of this activation
    ghost var written: seq<seq<Command>>     // commands of every completed write() of this activation
    ghost var shutAt: Option<nat>            // happenings before the last shutdown began

    ghost predicate Structure()
      reads this, transport
    {
      && feedback.Length == TABLE_SIZE
      && |gearRatios| == |nodeIds|
      && DistinctNodes(nodeIds)
      && (forall i :: 0 <= i < |nodeIds| ==> nodeIds[i] in transport.links && gearRatios[i] != 0.0)
    }

    ghost function Now(): World
      reads this, transport
    {
      World(transport.links, if sdoResponse.None? then None else Some(Stored(responseId, sdoResponse.value)),
            log, transport.expired, transport.trouble, trace)
    }

    /** The world after the first k happenings. */
    ghost function At(k: nat): World
      requires k <= |trace|
      reads this
    {
      Replay(genesis, trace[..k])
    }

    ghost predicate Valid()
      reads this, transport, feedback
    {
      && Structure()
      && WorldOk(Now(), transport.nextId)
      && Now() == Replay(genesis, trace)
      && (forall n :: 0 <= n < TABLE_SIZE ==> feedback[n] == TableEntry(log, n))
    }

    /** Socket, flag and thread agree. */
    ghost predicate Consistent()
      reads this, transport
    {
      transport.isOpen == rxRunning == rxThread
    }

    /**
     Between activations: nothing but shutdown answers left over, bit 7 of every drive clear or about to be, and every
     drive that was ever enabled halting.
     */
    ghost predicate Idle()
      reads this, transport, feedback
    {
      && Valid() && Consistent() && !rxThread && Resting(Now(), nodeIds, transport.nextId)
      && Retired(genesis, Now(), nodeIds, shutAt)
    }

    /** Between the calls of an activation. */
    ghost predicate Operating()
      reads this, transport, feedback
    {
      && Valid() && Consistent() && rxThread && logEpoch == epoch
      && JointsMatch() && Steady(Now(), joints, written, transport.nextId)
    }

    ghost predicate JointsMatch()
      reads this
    {
      |joints| == |nodeIds| == |gearRatios| &&
      forall i :: 0 <= i < |joints| ==> joints[i].node == nodeIds[i] && joints[i].gear == gearRatios[i]
    }

    ghost function Mode(locked: bool): Listening
      reads this
    {
      if !rxThread then Off else if locked then NoAnswers else All
    }

    constructor (transport: Transport, nodeIds: seq<nat>, gearRatios: seq<real>)
      requires !transport.isOpen && transport.nextId == 1
      requires forall n :: n in transport.links ==> IsNode(n) && FreshLink(n, transport.links[n])
      requires |gearRatios| == |nodeIds|
      requires forall i :: 0 <= i < |nodeIds| ==>
                             IsNode(nodeIds[i]) && nodeIds[i] in transport.links && gearRatios[i] != 0.0
      requires forall i, j :: 0 <= i < j < |nodeIds| ==> nodeIds[i] != nodeIds[j]
      ensures Idle()
      ensures this.transport == transport && this.nodeIds == nodeIds && this.gearRatios == gearRatios && fresh(feedback)
    {
      hide TableEntry, LinkOk, FreshLink, StaleQueues, Bit7Clear, Raising, Replay;
      this.transport := transport;
      this.nodeIds := nodeIds;
      this.gearRatios := gearRatios;
      genesis := World(transport.links, None, [], transport.expired, transport.trouble, []);
      trace := [];
      feedback := new MotorFeedback[TABLE_SIZE](_ => MotorFeedback(0, 0, 0, 0));
      rxRunning, rxThread, sdoResponse, epoch := false, false, None, 0;
      responseId, log, logEpoch, joints, written, shutAt := 0, [], 0, [], [], None;
      new;
      StoryBegins(genesis);
      forall n | n in transport.links
        ensures LinkOk(n, transport.links[n], None, 1) && Bit7Clear(transport.links[n]) && !Raising(transport.links[n])
        ensures StaleQueues(transport.links[n], transport.expired, 1)
      {
        FreshIsOk(n, transport.links[n], transport.expired);
      }
      forall n | 0 <= n < TABLE_SIZE ensures feedback[n] == TableEntry([], n) { EmptyEntry(n); }
    }

    // The receive thread and the rest of the world -----------------------------------------------------------

    /** The parsers of rx_loop, tried in its order. */
    method Dispatch(n: nat, reply: Reply)
      requires feedback.Length == TABLE_SIZE && IsNode(n)
      requires forall k :: 0 <= k < TABLE_SIZE ==> feedback[k] == TableEntry(log, k)
      modifies this`sdoResponse, this`responseId, this`log, feedback
      ensures log == old(log) + [Heard(n, reply.msg)]
      ensures forall k :: 0 <= k < TABLE_SIZE ==> feedback[k] == TableEntry(log, k)
      ensures if IsSdo(reply.msg) then sdoResponse == Some(Response(n, reply.msg)) && responseId == reply.id
              else sdoResponse == old(sdoResponse) && responseId == old(responseId)
    {
      hide TableEntry, WireFrame, ParseSdoResponse, ParseMotionFeedback, ParseStatusFeedback, ParseEmergency;
      hide WordOf, HalfWordOf, ToI32;
      var frame := WireFrame(n, reply.msg);
      HeardAs(n, reply.msg);
      TableEntryAppends(log, Heard(n, reply.msg));
      var motion, status := ParseMotionFeedback(frame), ParseStatusFeedback(frame);
      var emergency, response := ParseEmergency(frame), ParseSdoResponse(frame);
      if motion.Some? {
        feedback[motion.value.node] :=
          feedback[motion.value.node].(position := motion.value.position, velocity := motion.value.velocity);
      } else if status.Some? {
        feedback[status.value.node] := feedback[status.value.node].(statusWord := status.value.statusWord);
      } else if emergency.Some? {
        feedback[emergency.value.node] := feedback[emergency.value.node].(errorCode := emergency.value.errorCode);
      } else if response.Some? {
        sdoResponse := response;
        responseId := reply.id;
      }
      log := log + [Heard(n, reply.msg)];
    }

    /** One pass of rx_loop over the oldest frame of node n; `locked` says the main thread holds the SDO mutex. */
    method RxLoopBody(n: nat, locked: bool)
      requires Valid() && rxThread && n in transport.links
      modifies this`sdoResponse, this`responseId, this`log, this`trace, transport`links, feedback
      ensures Valid() && Now() == Step(old(Now()), Hear(n), Mode(locked))
    {
      hide WorldOk, TableEntry, Replay;
      WorldNodes(Now(), transport.nextId);
      WorldOkStep(Now(), transport.nextId, Hear(n), Mode(locked));
      ReplayMore(genesis, trace, Passed(Hear(n), Mode(locked)));
      trace := trace + [Passed(Hear(n), Mode(locked))];
      if transport.links[n].up == [] {
        return;
      }
      var reply := transport.links[n].up[0];
      if IsSdo(reply.msg) && locked {
        return;
      }
      transport.links := transport.links[n := transport.links[n].(up := transport.links[n].up[1..])];
      if !(IsSdo(reply.msg) && reply.id in transport.expired) {
        Dispatch(n, reply);
      }
    }

    /** One thing the environment or the receive thread does. */
    method TakeStep(c: Choice, locked: bool)
      requires Valid()
      modifies this`sdoResponse, this`responseId, this`log, this`trace, transport`links, transport`trouble, feedback
      ensures Valid() && Now() == Step(old(Now()), c, Mode(locked))
    {
      hide WorldOk, LinkStep, TableEntry, Replay;
      WorldOkStep(Now(), transport.nextId, c, Mode(locked));
      ReplayMore(genesis, trace, Passed(c, Mode(locked)));
      if c.Hear? && rxThread && c.node in transport.links {
        RxLoopBody(c.node, locked);
      } else {
        trace := trace + [Passed(c, Mode(locked))];
        if c.node in transport.links {
          match c {
            case At(n, e) =>
              transport.trouble := transport.trouble + if Costs(transport.links[n], e) then 1 else 0;
              transport.links := transport.links[n := LinkStep(transport.links[n], e)];
            case Hear(n) =>
              if transport.links[n].up != [] {
                transport.links := transport.links[n := transport.links[n].(up := transport.links[n].up[1..])];
              }
          }
        }
      }
    }

    /** Any number of such things, in any order: what may happen between two statements of the main thread. */
    method Interleave(locked: bool) returns (ghost cs: seq<Choice>)
      requires Valid()
      modifies this`sdoResponse, this`responseId, this`log, this`trace, transport`links, transport`trouble, feedback
      ensures Valid() && Now() == Run(old(Now()), cs, Mode(locked))
    {
      cs := [];
      var steps: nat := *;
      while steps > 0
        invariant Valid() && Now() == Run(old(Now()), cs, Mode(locked))
      {
        var c: Choice := *;
        ghost var next := cs + [c];
        assert next[..|next| - 1] == cs;
        TakeStep(c, locked);
        cs := next;
        steps := steps - 1;
      }
    }

    // Sending ------------------------------------------------------------------------------------------------

    /** send_frame, after whatever else happens before the frame reaches the socket. */
    method SendFrame(f: Frame, locked: bool) returns (ok: bool, ghost cs: seq<Choice>)
      requires Valid() && transport.isOpen && f.length <= 8 && MaySend(Now(), f, epoch)
      modifies this`sdoResponse, this`responseId, this`log, this`trace, transport`links, transport`nextId,
               transport`offered, transport`trouble, feedback
      ensures Valid()
      ensures transport.nextId == old(transport.nextId) + if ok then 1 else 0
      ensures transport.offered == old(transport.offered) + [f]
      ensures var mid := Run(old(Now()), cs, Mode(locked));
              Now() == if ok then Broadcast(mid, f, old(transport.nextId), epoch) else Failed(mid, f)
    {
      hide WorldOk, Run, MaySend, Push, Miss, TableEntry, Decode, Replay;
      ghost var start, id := Now(), transport.nextId;
      cs := Interleave(locked);
      SendAfterRun(start, cs, Mode(locked), f, id, epoch);
      ReplayMore(genesis, trace, Sent(f, id, epoch));
      ReplayMore(genesis, trace, Refused(f));
      ok := transport.Send(f, epoch);
      trace := trace + [if ok then Sent(f, id, epoch) else Refused(f)];
    }

    // SDO ----------------------------------------------------------------------------------------------------

    /** Ready for configuration traffic: socket open, receive thread running, only shutdown answers left over. */
    ghost predicate Ready()
      reads this, transport, feedback
    {
      Valid() && transport.isOpen && rxThread && rxRunning && logEpoch == epoch && AllStale(Now(), transport.nextId)
    }

    /**
     One request and the wait for its answer. The mutex is held from the reset of the response until the wait, so no
     answer is stored in between; then anything may happen until the main thread looks, or gives up.
     */
    method SdoTransaction(request: Frame, ghost n: nat, ghost m: HostMessage)
      returns (ok: bool, value: Word32, ghost r: Request, ghost answer: DriveMessage)
      requires Ready() && n in transport.links
      requires ForNodeOnly(request, n, m) && IsSdoRequest(m) && request.length <= 8 && MaySend(Now(), request, epoch)
      requires NodeOf(request.id) == n && HalfWordOf(request.data[1..3]) == m.index && request.data[3] == m.subindex
      modifies this`sdoResponse, this`responseId, this`log, this`trace, transport`links, transport`nextId,
               transport`offered, transport`trouble, transport`expired, feedback
      ensures transport.offered == old(transport.offered) + [request]
      ensures Ready() && r.msg == m && r.epoch == epoch
      ensures Ends(old(Now()), Now(), n, r, answer, ok, value) && n in transport.links
    {
      hide WorldOk, Run, AllStale, ForNodeOnly, TableEntry, Broadcast, OnTheBus, Ends, MaySend, OthersKept;
      hide SeedKept, HalfWordOf, Replay, NodeOf, IsSdoRequest;
      ghost var w0 := Now();
      r := Request(transport.nextId, epoch, m);
      var sent, w2 := ResetAndSend(request, n, m);
      if sent {
        ghost var cs;
        ok, value, answer, cs :=
          AwaitAnswer(NodeOf(request.id), HalfWordOf(request.data[1..3]), request.data[3], request, w0, w2, r);
      } else {
        ok, value, answer := false, 0, Heartbeat(0);
        NothingSent(w0, Now(), n, r, answer);
      }
      EndsHere(w0, Now(), n, r, answer, ok, value);
    }

    /** The part of sdo_transaction that waits: the mutex is free until the main thread looks, or gives up. */
    method AwaitAnswer(node: nat, index: Word16, subindex: Byte, request: Frame,
                       ghost w0: World, ghost w2: World, ghost r: Request)
      returns (ok: bool, value: Word32, ghost answer: DriveMessage, ghost cs: seq<Choice>)
      requires Valid() && rxThread && OnTheBus(w0, w2, node, r.id) && ForNodeOnly(request, node, r.msg)
      requires Now() == Broadcast(w2, request, r.id, r.epoch) && transport.nextId == r.id + 1
      requires IsSdoRequest(r.msg) && r.msg.index == index && r.msg.subindex == subindex
      modifies this`sdoResponse, this`responseId, this`log, this`trace, transport`links, transport`trouble,
               transport`expired, feedback
      ensures Valid() && AllStale(Now(), transport.nextId) && Ends(w0, Now(), node, r, answer, ok, value)
      ensures Looked(Run(old(Now()), cs, All), Now(), node, r, ok, value)
    {
      hide WorldOk, Run, AllStale, ForNodeOnly, TableEntry, Broadcast, OnTheBus, Ends, AtTheEnd, Replay;
      cs := Interleave(false);
      ghost var w4 := Now();
      AfterTheWait(w0, w2, cs, request, node, r.msg, r.id, r.epoch);
      if sdoResponse.Some? && sdoResponse.value.node == node && sdoResponse.value.index == index &&
         sdoResponse.value.subindex == subindex {
        ok := !sdoResponse.value.aborted;
        value := if ok then sdoResponse.value.value else 0;
        answer := Outcome(w0, w2, w4, cs, request, node, r, ok, value);
      } else {
        var id := transport.nextId - 1;
        ok, value, answer := false, 0, Heartbeat(0);
        ReplayMore(genesis, trace, GaveUp(id));
        transport.GiveUp(id);
        trace := trace + [GaveUp(id)];
        TimedOut(w0, w2, w4, Now(), cs, request, node, r, answer);
      }
    }

    method ForgetResponse()
      requires Valid()
      modifies this`sdoResponse, this`trace
      ensures Valid() && Now() == Forget(old(Now()))
    {
      hide LinkOk, TableEntry, Replay;
      ForgetOk(Now(), transport.nextId);
      ReplayMore(genesis, trace, Forgot);
      hide WorldOk;
      sdoResponse := None;
      trace := trace + [Forgot];
    }

    /** The part of sdo_transaction under the mutex: reset the response, send the request. */
    method ResetAndSend(request: Frame, ghost n: nat, ghost m: HostMessage) returns (sent: bool, ghost w2: World)
      requires Ready() && n in transport.links
      requires ForNodeOnly(request, n, m) && request.length <= 8 && MaySend(Now(), request, epoch)
      modifies this`sdoResponse, this`responseId, this`log, this`trace, transport`links, transport`nextId,
               transport`offered, transport`trouble, feedback
      ensures Valid() && transport.offered == old(transport.offered) + [request]
      ensures OnTheBus(old(Now()), w2, n, old(transport.nextId))
      ensures sent ==> transport.nextId == old(transport.nextId) + 1 &&
                       Now() == Broadcast(w2, request, old(transport.nextId), epoch)
      ensures !sent ==> && AllStale(Now(), transport.nextId) && old(transport.trouble) < transport.trouble
                        && OthersKept(old(Now()), Now(), n) && old(transport.links[n].lost) <= transport.links[n].lost
                        && (KeepsSilence(m) ==> SeedKept(old(Now()), Now(), n))
    {
      hide WorldOk, Run, AllStale, MaySend, OthersKept, SeedKept, ForNodeOnly, TableEntry, Decode, Broadcast, Failed,
           Replay;
      hide OnTheBus;
      ghost var w0, id := Now(), transport.nextId;
      NeverStops(w0, request, n, m, epoch, id);
      ghost var cs1 := Interleave(false);
      BeforeSending(w0, cs1, request, id, epoch);
      ForgetResponse();
      ghost var w1 := Now();
      ghost var cs2;
      sent, cs2 := SendFrame(request, true);
      w2 := Run(w1, cs2, NoAnswers);
      OnTheBusAfter(w0, w1, w2, cs1, cs2, n, id);
      if !sent { RequestRefused(w0, w2, request, n, m, id, epoch); }
    }

    method SdoWriteTo(n: nat, index: Word16, subindex: Byte, value: Word32, size: SdoSize)
      returns (ok: bool, ghost r: Request, ghost answer: DriveMessage, ghost v: Word32)
      requires Ready() && n in transport.links && value < Pow256(size)
      requires MayPush(transport.links[n], SdoWrite(index, subindex, value, size), epoch)
      modifies this`sdoResponse, this`responseId, this`log, this`trace, transport`links, transport`nextId,
               transport`offered, transport`trouble, transport`expired, feedback
      ensures IsNode(n) && transport.offered == old(transport.offered) +
              [SdoWriteFrame(n, index, subindex, value, size)]
      ensures Ready() && r.msg == SdoWrite(index, subindex, value, size) && r.epoch == epoch
      ensures Ends(old(Now()), Now(), n, r, answer, ok, v) && n in transport.links
      ensures !IsControl(r.msg) ==> Written(old(Now()), Now(), n, r.msg, ok)
    {
      hide WorldOk, TableEntry, AllStale, ForNodeOnly, MayPush, MaySend, Ends, Written, SdoWriteFrame, Pow256,
           HalfWordOf;
      ghost var w0, m := Now(), SdoWrite(index, subindex, value, size);
      WorldNodes(w0, transport.nextId);
      var request := MakeSdoWriteFrame(n, index, subindex, value, size);
      WriteForNode(n, index, subindex, value, size);
      SdoKeyOfRequest(n, index, subindex, value, size);
      MaySendToOne(w0, request, n, m, epoch, transport.nextId);
      ok, v, r, answer := SdoTransaction(request, n, m);
      if !IsControl(m) { EndsWritten(w0, Now(), n, r, answer, ok, v); }
    }

    method SdoReadFrom(n: nat, index: Word16, subindex: Byte)
      returns (ok: bool, value: Word32, ghost r: Request, ghost answer: DriveMessage)
      requires Ready() && n in transport.links && index != CONTROL_WORD
      modifies this`sdoResponse, this`responseId, this`log, this`trace, transport`links, transport`nextId,
               transport`offered, transport`trouble, transport`expired, feedback
      ensures IsNode(n) && transport.offered == old(transport.offered) + [SdoReadFrame(n, index, subindex)]
      ensures Ready() && r.msg == SdoRead(index, subindex) && r.epoch == epoch
      ensures Ends(old(Now()), Now(), n, r, answer, ok, value) && n in transport.links
    {
      hide WorldOk, TableEntry, AllStale, ForNodeOnly, MaySend, Ends, SdoReadFrame, HalfWordOf, Pow256;
      ghost var w0, m := Now(), SdoRead(index, subindex);
      WorldNodes(w0, transport.nextId);
      var request := MakeSdoReadFrame(n, index, subindex);
      ReadForNode(n, index, subindex);
      SdoKeyOfRequest(n, index, subindex, 0, 1);
      MaySendToOne(w0, request, n, m, epoch, transport.nextId);
      ok, value, r, answer := SdoTransaction(request, n, m);
    }

    /** One link of configure_node's chain of writes: skipped once a write has failed. */
    method WriteNext(so: bool, n: nat, index: Word16, subindex: Byte, value: Word32, size: SdoSize,
                     ghost w0: World, ghost c: Core, ghost next: Core, ghost can: bool,
                     ghost o: seq<Frame>, ghost script: seq<Frame>, ghost k: nat)
      returns (ok: bool)
      requires Ready() && Mapped(w0, Now(), n, c, can, so)
      requires Line(n, index, subindex, value, size, c, next, can, script, k)
      requires Partly(o, transport.offered, script, k, so)
      modifies this`sdoResponse, this`responseId, this`log, this`trace, transport`links, transport`nextId,
               transport`offered, transport`trouble, transport`expired, feedback
      ensures Partly(o, transport.offered, script, k + 1, ok)
      ensures Ready() && Mapped(w0, Now(), n, next, can, ok) && n in transport.links
      ensures ok ==> && so && WriteObject(c, index, subindex, value, size) == Some(next)
                     && (next.nmt == PreOperational ==> NoMotionUnderWay(transport.links[n]))
    {
      hide WorldOk, TableEntry, AllStale, Ends, Written, Mapped, WriteObject, Pow256, Step2, NoMotionUnderWay;
      hide MayPush, IsControl, Partly, SdoWriteFrame;
      ghost var w, o1 := Now(), transport.offered;
      MappedHere(w0, w, n, c, can, so);
      if so {
        ghost var r, a, v;
        PlainWrite(transport.links[n], SdoWrite(index, subindex, value, size), epoch);
        ok, r, a, v := SdoWriteTo(n, index, subindex, value, size);
        MappedStep(w0, w, Now(), n, c, next, can, r.msg, ok);
      } else {
        ok := false;
        MappedStop(w0, w, n, c, next, can);
      }
      OneFrameMore(o, o1, transport.offered, script, k, so, ok);
    }

    lemma ReadyNode(n: nat)
      requires Ready() && n in transport.links
      ensures IsNode(n) && transport.links[n].drive.core.node == n
    {
      hide Ordered, EnableGuard, Edges, Awake, PlainAcks, TableEntry, AllStale, Replay;
    }

    /** RPDO1: 607Ah target position, applied on SYNC. */
    method MapRpdo1(n: nat) returns (ok: bool)
      requires Ready() && n in transport.links
      requires Quiet(transport.links[n]) && transport.links[n].drive.core.nmt != Stopped
      modifies this`sdoResponse, this`responseId, this`log, this`trace, transport`links, transport`nextId,
               transport`offered, transport`trouble, transport`expired, feedback
      ensures Ready() && n in transport.links
      ensures IsNode(n) && Attempted(old(transport.offered), transport.offered, Rpdo1Script(n), ok)
      ensures var c := old(transport.links[n].drive.core);
              && Mapped(old(Now()), Now(), n, RpdoStage(c, 6), c.nmt == PreOperational && Free(c.rpdo1, RPDO1 + n), ok)
              && (ok ==> c.nmt == PreOperational && NoMotionUnderWay(transport.links[n]))
    {
      hide Ready, WorldOk, TableEntry, AllStale, Mapped, RpdoStage, WriteObject, Line, NoSdo, Free, Quiet;
      hide NoMotionUnderWay;
      hide Attempted, Partly, SdoWriteFrame, Replay, Rpdo1Script, Pow256, MapEntry;
      ghost var w0, c := Now(), transport.links[n].drive.core;
      ghost var can := c.nmt == PreOperational && Free(c.rpdo1, RPDO1 + n);
      ReadyNode(n);
      ghost var o, script := transport.offered, Rpdo1Script(n);
      Entries();
      Rpdo1Lines(c);
      MappedStart(w0, n, can);
      NothingYet(o, script);
      ok := WriteNext(true, n, RPDO1_COMMUNICATION, 1, PDO_DISABLED + RPDO1 + n, 4, w0, RpdoStage(c, 0),
                      RpdoStage(c, 1), can, o, script, 0);
      ok := WriteNext(ok, n, RPDO1_MAPPING, 0, 0, 1, w0, RpdoStage(c, 1), RpdoStage(c, 2), can, o, script, 1);
      ok := WriteNext(ok, n, RPDO1_MAPPING, 1, TARGET_ENTRY, 4, w0, RpdoStage(c, 2), RpdoStage(c, 3), can, o, script,
                      2);
      ok := WriteNext(ok, n, RPDO1_MAPPING, 0, 1, 1, w0, RpdoStage(c, 3), RpdoStage(c, 4), can, o, script, 3);
      ok := WriteNext(ok, n, RPDO1_COMMUNICATION, 2, SYNC_EVERY, 1, w0, RpdoStage(c, 4), RpdoStage(c, 5), can, o,
                      script, 4);
      ok := WriteNext(ok, n, RPDO1_COMMUNICATION, 1, RPDO1 + n, 4, w0, RpdoStage(c, 5), RpdoStage(c, 6), can, o,
                      script, 5);
      ToTheEnd(o, transport.offered, script, 6, ok);
    }

    /** TPDO1: 6064h position and 606Ch velocity, sent on every SYNC. */
    method MapTpdo1(n: nat) returns (ok: bool)
      requires Ready() && n in transport.links
      requires Quiet(transport.links[n]) && transport.links[n].drive.core.nmt != Stopped
      modifies this`sdoResponse, this`responseId, this`log, this`trace, transport`links, transport`nextId,
               transport`offered, transport`trouble, transport`expired, feedback
      ensures Ready() && n in transport.links
      ensures IsNode(n) && Attempted(old(transport.offered), transport.offered, Tpdo1Script(n), ok)
      ensures var c := old(transport.links[n].drive.core);
              && Mapped(old(Now()), Now(), n, Tpdo1Stage(c, 7), c.nmt == PreOperational && Free(c.tpdo1, TPDO1 + n), ok)
              && (ok ==> c.nmt == PreOperational && NoMotionUnderWay(transport.links[n]))
    {
      hide Ready, WorldOk, TableEntry, AllStale, Mapped, Tpdo1Stage, WriteObject, Line, NoSdo, Free, Quiet;
      hide NoMotionUnderWay;
      hide Attempted, Partly, SdoWriteFrame, Replay, Tpdo1Script, Pow256, MapEntry;
      ghost var w0, c := Now(), transport.links[n].drive.core;
      ghost var can := c.nmt == PreOperational && Free(c.tpdo1, TPDO1 + n);
      ReadyNode(n);
      ghost var o, script := transport.offered, Tpdo1Script(n);
      Entries();
      Tpdo1Lines(c);
      MappedStart(w0, n, can);
      NothingYet(o, script);
      ok := WriteNext(true, n, TPDO1_COMMUNICATION, 1, PDO_DISABLED + TPDO1 + n, 4, w0, Tpdo1Stage(c, 0),
                      Tpdo1Stage(c, 1), can, o, script, 0);
      ok := WriteNext(ok, n, TPDO1_MAPPING, 0, 0, 1, w0, Tpdo1Stage(c, 1), Tpdo1Stage(c, 2), can, o, script, 1);
      ok := WriteNext(ok, n, TPDO1_MAPPING, 1, POSITION_ENTRY, 4, w0, Tpdo1Stage(c, 2), Tpdo1Stage(c, 3), can, o,
                      script, 2);
      ok := WriteNext(ok, n, TPDO1_MAPPING, 2, VELOCITY_ENTRY, 4, w0, Tpdo1Stage(c, 3), Tpdo1Stage(c, 4), can, o,
                      script, 3);
      ok := WriteNext(ok, n, TPDO1_MAPPING, 0, 2, 1, w0, Tpdo1Stage(c, 4), Tpdo1Stage(c, 5), can, o, script, 4);
      ok := WriteNext(ok, n, TPDO1_COMMUNICATION, 2, SYNC_EVERY, 1, w0, Tpdo1Stage(c, 5), Tpdo1Stage(c, 6), can, o,
                      script, 5);
      ok := WriteNext(ok, n, TPDO1_COMMUNICATION, 1, TPDO1 + n, 4, w0, Tpdo1Stage(c, 6), Tpdo1Stage(c, 7), can, o,
                      script, 6);
      ToTheEnd(o, transport.offered, script, 7, ok);
    }

    /** TPDO2: 6041h status word, sent on every SYNC. */
    method MapTpdo2(n: nat) returns (ok: bool)
      requires Ready() && n in transport.links
      requires Quiet(transport.links[n]) && transport.links[n].drive.core.nmt != Stopped
      modifies this`sdoResponse, this`responseId, this`log, this`trace, transport`links, transport`nextId,
               transport`offered, transport`trouble, transport`expired, feedback
      ensures Ready() && n in transport.links
      ensures IsNode(n) && Attempted(old(transport.offered), transport.offered, Tpdo2Script(n), ok)
      ensures var c := old(transport.links[n].drive.core);
              && Mapped(old(Now()), Now(), n, Tpdo2Stage(c, 6), c.nmt == PreOperational && Free(c.tpdo2, TPDO2 + n), ok)
              && (ok ==> c.nmt == PreOperational && NoMotionUnderWay(transport.links[n]))
    {
      hide Ready, WorldOk, TableEntry, AllStale, Mapped, Tpdo2Stage, WriteObject, Line, NoSdo, Free, Quiet;
      hide NoMotionUnderWay;
      hide Attempted, Partly, SdoWriteFrame, Replay, Tpdo2Script, Pow256, MapEntry;
      ghost var w0, c := Now(), transport.links[n].drive.core;
      ghost var can := c.nmt == PreOperational && Free(c.tpdo2, TPDO2 + n);
      ReadyNode(n);
      ghost var o, script := transport.offered, Tpdo2Script(n);
      Entries();
      Tpdo2Lines(c);
      MappedStart(w0, n, can);
      NothingYet(o, script);
      ok := WriteNext(true, n, TPDO2_COMMUNICATION, 1, PDO_DISABLED + TPDO2 + n, 4, w0, Tpdo2Stage(c, 0),
                      Tpdo2Stage(c, 1), can, o, script, 0);
      ok := WriteNext(ok, n, TPDO2_MAPPING, 0, 0, 1, w0, Tpdo2Stage(c, 1), Tpdo2Stage(c, 2), can, o, script, 1);
      ok := WriteNext(ok, n, TPDO2_MAPPING, 1, STATUS_ENTRY, 4, w0, Tpdo2Stage(c, 2), Tpdo2Stage(c, 3), can, o, script,
                      2);
      ok := WriteNext(ok, n, TPDO2_MAPPING, 0, 1, 1, w0, Tpdo2Stage(c, 3), Tpdo2Stage(c, 4), can, o, script, 3);
      ok := WriteNext(ok, n, TPDO2_COMMUNICATION, 2, SYNC_EVERY, 1, w0, Tpdo2Stage(c, 4), Tpdo2Stage(c, 5), can, o,
                      script, 4);
      ok := WriteNext(ok, n, TPDO2_COMMUNICATION, 1, TPDO2 + n, 4, w0, Tpdo2Stage(c, 5), Tpdo2Stage(c, 6), can, o,
                      script, 5);
      ToTheEnd(o, transport.offered, script, 6, ok);
    }

    // configure_node -----------------------------------------------------------------------------------------

    method SendNmt(command: Byte, n: nat) returns (ok: bool)
      requires Ready() && n in transport.links && command != 0x02
      modifies this`sdoResponse, this`responseId, this`log, this`trace, transport`links, transport`nextId,
               transport`offered, transport`trouble, feedback
      ensures Ready() && n in transport.links && NmtOutcome(old(Now()), Now(), n, command, ok)
      ensures IsNode(n) && transport.offered == old(transport.offered) + [NmtFrame(command, n)]
      ensures ok ==> && |old(trace)| < |trace| && trace[|trace| - 1].Sent?
                     && IsNode(n) && trace[|trace| - 1].frame == NmtFrame(command, n)
    {
      hide Replay, FramesOf;
      hide WorldOk, Run, AllStale, ForNodeOnly, MaySend, MayPush, TableEntry, Decode, Broadcast, Failed, OthersKept;
      hide SeedKept, NmtSent;
      ghost var w0, id := Now(), transport.nextId;
      WorldNodes(w0, id);
      NmtForNode(n, command);
      NmtMayPush(transport.links[n], command, epoch);
      MaySendToOne(w0, NmtFrame(command, n), n, Nmt(command), epoch, id);
      var f := MakeNmtFrame(command, n);
      ghost var cs;
      ok, cs := SendFrame(f, false);
      NmtCourse(w0, cs, Now(), f, n, command, id, epoch, ok);
      if ok { SentLast(w0, cs, Now(), f, id, epoch); }
    }

    method WriteControl(word: Word16, n: nat) returns (ok: bool)
      requires Ready() && n in transport.links && MayPush(transport.links[n], Control(word), epoch)
      modifies this`sdoResponse, this`responseId, this`log, this`trace, transport`links, transport`nextId,
               transport`offered, transport`trouble, transport`expired, feedback
      ensures IsNode(n) && transport.offered == old(transport.offered) + [SdoWriteFrame(n, CONTROL_WORD, 0, word, 2)]
      ensures Ready() && n in transport.links && ControlOutcome(old(Now()), Now(), n, word, ok)
    {
      hide WorldOk, AllStale, TableEntry, MayPush, Ends, Written, ControlOutcome;
      Pow256Values();
      hide Pow256;
      ghost var w0 := Now();
      ghost var r, a, v;
      ok, r, a, v := SdoWriteTo(n, CONTROL_WORD, 0, word, 2);
      EndsHere(w0, Now(), n, r, a, ok, v);
      EndsControlOutcome(w0, Now(), n, r, a, ok, v, word);
    }

    /** Pre-operational, fault reset, mode of operation. */
    method Prepare(n: nat) returns (ok: bool)
      requires Ready() && n in transport.links && Bit7Clear(transport.links[n])
      modifies this`sdoResponse, this`responseId, this`log, this`trace, transport`links, transport`nextId,
               transport`offered, transport`trouble, transport`expired, feedback
      ensures |old(transport.offered)| < |transport.offered|
      ensures IsNode(n) && Attempted(old(transport.offered), transport.offered, PrepareScript(n), ok)
      ensures Ready() && n in transport.links && Underway(old(Now()), Now(), n, transport.links[n].drive.core, 0, ok)
    {
      hide WorldOk, AllStale, TableEntry, MayPush, Ends, Written, NmtOutcome, ControlOutcome, Underway, Bit7Clear,
           Quiet;
      hide Attempted, Partly, SdoWriteFrame, NmtFrame, Replay;
      Pow256Values();
      hide Pow256;
      ghost var w0, o := Now(), transport.offered;
      WorldNodes(w0, transport.nextId);
      hide Ready;
      ghost var script := PrepareScript(n);
      NothingYet(o, script);
      ok := SendNmt(NMT_PRE_OPERATIONAL, n);
      ghost var w1, o1 := Now(), transport.offered;
      OneFrameMore(o, o, o1, script, 0, true, ok);
      if ok {
        NmtKeepsBit7Clear(w0, w1, n, NMT_PRE_OPERATIONAL);
        ControlMayPush(transport.links[n], FAULT_RESET, epoch);
        ok := WriteControl(FAULT_RESET, n);
        ghost var w2, o2 := Now(), transport.offered;
        OneFrameMore(o, o1, o2, script, 1, true, ok);
        if ok {
          ghost var r, a, v;
          PlainWrite(transport.links[n], SdoWrite(MODE_OF_OPERATION, 0, CYCLIC_SYNC_POSITION, 1), epoch);
          ok, r, a, v := SdoWriteTo(n, MODE_OF_OPERATION, 0, CYCLIC_SYNC_POSITION, 1);
          OneFrameMore(o, o2, transport.offered, script, 2, true, ok);
          ToTheEnd(o, transport.offered, script, 3, ok);
          if ok { EndsMode(w2, Now(), n, r, a, v); }
          if transport.trouble == w2.trouble { ModeAccepted(w2, Now(), n, r, a, ok, v); }
          EndsHere(w2, Now(), n, r, a, ok, v);
          SameNode(w0, old(transport.nextId), Now(), transport.nextId, n);
          UnderwayFrom(w0, w1, w2, Now(), n, ok);
        } else {
          ToTheEnd(o, o2, script, 2, false);
          ResetFailed(w0, w1, w2, n);
        }
      } else {
        ToTheEnd(o, o1, script, 1, false);
        NmtFailed(w0, w1, n);
      }
    }

    /** All that configure_node does in pre-operational. */
    method Remap(n: nat) returns (ok: bool, ghost b: Core, ghost k: nat)
      requires Ready() && n in transport.links && Bit7Clear(transport.links[n])
      modifies this`sdoResponse, this`responseId, this`log, this`trace, transport`links, transport`nextId,
               transport`offered, transport`trouble, transport`expired, feedback
      ensures Ready() && n in transport.links && Underway(old(Now()), Now(), n, b, k, ok) && (ok ==> k == 3)
      ensures ok ==> b.node == n
      ensures |old(transport.offered)| < |transport.offered|
      ensures IsNode(n) && Attempted(old(transport.offered), transport.offered, RemapScript(n), ok)
    {
      hide WorldOk, AllStale, TableEntry, Mapped, Underway, Bit7Clear, CoreAt, NoMotionUnderWay, Free, Replay;
      hide Attempted, PrepareScript, MapScript;
      ghost var w0, o := Now(), transport.offered;
      ok := Prepare(n);
      ghost var o1 := transport.offered;
      b, k := transport.links[n].drive.core, 0;
      if ok {
        CoreNode(Now(), transport.nextId, n);
        ok, k := MapAll(n, w0, b);
        AttemptedGrows(o1, transport.offered, MapScript(n), ok);
        AttemptedThen(o, o1, transport.offered, PrepareScript(n), MapScript(n), ok);
      } else {
        AttemptedLess(o, o1, PrepareScript(n), MapScript(n));
      }
    }

    method MapAll(n: nat, ghost w0: World, ghost b: Core) returns (ok: bool, ghost k: nat)
      requires Ready() && Underway(w0, Now(), n, b, 0, true) && n in transport.links && b.node == n
      modifies this`sdoResponse, this`responseId, this`log, this`trace, transport`links, transport`nextId,
               transport`offered, transport`trouble, transport`expired, feedback
      ensures IsNode(n) && Attempted(old(transport.offered), transport.offered, MapScript(n), ok)
      ensures Ready() && n in transport.links && Underway(w0, Now(), n, b, k, ok) && (ok ==> k == 3)
    {
      hide WorldOk, AllStale, TableEntry, Mapped, Underway, CoreAt, NoMotionUnderWay, Free;
      hide Replay;
      ghost var w1, o1 := Now(), transport.offered;
      hide Ready, Attempted, Rpdo1Script, Tpdo1Script, Tpdo2Script;
      UnderwayHere(w0, w1, n, b, 0);
      ok := MapRpdo1(n);
      MapAllStep(w0, w1, Now(), n, b, 0, ok);
      k := 1;
      if ok {
        ghost var w2, o2 := Now(), transport.offered;
        UnderwayHere(w0, w2, n, b, 1);
        ok := MapTpdo1(n);
        MapAllStep(w0, w2, Now(), n, b, 1, ok);
        k := 2;
        if ok {
          ghost var w3, o3 := Now(), transport.offered;
          UnderwayHere(w0, w3, n, b, 2);
          ok := MapTpdo2(n);
          MapAllStep(w0, w3, Now(), n, b, 2, ok);
          k := 3;
          AttemptedThen(o2, o3, transport.offered, Tpdo1Script(n), Tpdo2Script(n), ok);
        } else {
          AttemptedLess(o2, transport.offered, Tpdo1Script(n), Tpdo2Script(n));
        }
        AttemptedThen(o1, o2, transport.offered, Rpdo1Script(n), Tpdo1Script(n) + Tpdo2Script(n), ok);
      } else {
        AttemptedLess(o1, transport.offered, Rpdo1Script(n), Tpdo1Script(n) + Tpdo2Script(n));
      }
    }

    /** In CSP the drive moves to 607Ah as soon as it is enabled: make it the position the drive reports. */
    method Seed(n: nat) returns (ok: bool, ghost position: Word32)
      requires Ready() && n in transport.links
      modifies this`sdoResponse, this`responseId, this`log, this`trace, transport`links, transport`nextId,
               transport`offered, transport`trouble, transport`expired, feedback
      ensures IsNode(n) && Attempted(old(transport.offered), transport.offered, SeedScript(n, position), ok)
      ensures Ready() && n in transport.links && SeedOutcome(old(Now()), Now(), n, epoch, position, ok)
    {
      hide WorldOk, AllStale, TableEntry, Ends, Written, SeedOutcome, MayPush, SeededAt, ToI32, Quiet, Silent;
      hide Attempted, Partly, SdoWriteFrame, SdoReadFrame, Replay;
      Pow256Values();
      hide Pow256;
      ghost var w0, o := Now(), transport.offered;
      ghost var r, a, r', a', v;
      var value;
      ok, value, r, a := SdoReadFrom(n, POSITION_ACTUAL, 0);
      ghost var w1 := Now();
      position := value;
      ghost var o1, script := transport.offered, SeedScript(n, value);
      NothingYet(o, script);
      OneFrameMore(o, o, o1, script, 0, true, ok);
      if ok {
        PlainWrite(transport.links[n], SdoWrite(TARGET_POSITION, 0, value, 4), epoch);
        ok, r', a', v := SdoWriteTo(n, TARGET_POSITION, 0, value, 4);
        OneFrameMore(o, o1, transport.offered, script, 1, true, ok);
        ToTheEnd(o, transport.offered, script, 2, ok);
        SeedWritten(w0, w1, Now(), n, r, a, value, ok);
        if ok {
          StoreSeed(n, ToI32(value), w0, value);
        } else {
          SeedWriteFailed(w0, Now(), n, epoch, value);
        }
      } else {
        ToTheEnd(o, o1, script, 1, false);
        SeedReadFailed(w0, w1, n, r, a, value, epoch, value);
      }
    }

    method StoreSeed(n: nat, counts: int, ghost w0: World, ghost value: Word32)
      requires Ready() && n in w0.links && n in transport.links && counts == ToI32(value) && OthersKept(w0, Now(), n)
      requires Quiet(w0.links[n]) ==>
                 && SeededAt(w0.links[n], w0.trouble, transport.links[n], transport.trouble, epoch, value)
                 && (Silent(w0.links[n]) ==> Silent(transport.links[n]))
      modifies this`log, this`trace, feedback
      ensures Ready() && SeedOutcome(w0, Now(), n, epoch, value, true)
    {
      hide AllStale, TableEntry, SeedOutcome, SeededAt, ToI32, Quiet, Silent, OthersKept, LinkOk;
      hide Replay;
      WorldNodes(Now(), transport.nextId);
      SeedStored(w0, Now(), n, epoch, value);
      TableEntryAppends(log, Seeded(n, counts));
      LogApart(Now(), transport.nextId, n, counts);
      ReplayMore(genesis, trace, Noted(n, counts));
      hide WorldOk;
      feedback[n] := feedback[n].(position := counts);
      log := log + [Seeded(n, counts)];
      trace := trace + [Noted(n, counts)];
    }

    /** NMT start, shutdown, switch on, enable operation. */
    method Enable(n: nat) returns (ok: bool, ghost w1: World)
      requires Ready() && n in transport.links
      requires Quiet(transport.links[n]) && ReadyToEnable(transport.links[n], epoch)
      modifies this`sdoResponse, this`responseId, this`log, this`trace, transport`links, transport`nextId,
               transport`offered, transport`trouble, transport`expired, feedback
      ensures IsNode(n) && Attempted(old(transport.offered), transport.offered, EnableScript(n), ok)
      ensures Ready() && n in transport.links && EnableOutcome(old(Now()), Now(), n, ok)
      ensures ok ==> IsNode(n) && Started(old(Now()), w1, Now(), n) && w1 == Replay(genesis, w1.trace)
    {
      hide Replay, Started, OthersKept, WorldOk, AllStale, TableEntry, NmtOutcome, EnableOutcome, Walking, Quiet, NoSdo;
      hide AllInert, ReadyToEnable, NmtSent, Attempted, Partly, SdoWriteFrame, NmtFrame;
      ghost var w0, o := Now(), transport.offered;
      WorldNodes(w0, transport.nextId);
      NothingYet(o, EnableScript(n));
      ok := SendNmt(NMT_START, n);
      w1 := Now();
      OneFrameMore(o, o, transport.offered, EnableScript(n), 0, true, ok);
      StartSent(w0, w1, n, epoch, ok);
      if ok {
        ok := WalkUp(n, w0, o);
        if ok { StartedFrom(w0, w1, Now(), n); }
      } else {
        ToTheEnd(o, transport.offered, EnableScript(n), 1, false);
        EnableFailed(w0, w1, n);
      }
    }

    /** The three control words after the start command. */
    method WalkUp(n: nat, ghost w0: World, ghost o: seq<Frame>) returns (ok: bool)
      requires Ready() && IsNode(n) && n in w0.links && n in transport.links && Quiet(w0.links[n])
      requires NmtOutcome(w0, Now(), n, NMT_START, true) && Walking(w0, Now(), n, true)
      requires NoSdo(transport.links[n]) && AllInert(transport.links[n].down)
      requires ReadyToEnable(transport.links[n], epoch)
      requires Partly(o, transport.offered, EnableScript(n), 1, true)
      modifies this`sdoResponse, this`responseId, this`log, this`trace, transport`links, transport`nextId,
               transport`offered, transport`trouble, transport`expired, feedback
      ensures Ready() && n in transport.links && EnableOutcome(w0, Now(), n, ok)
      ensures Attempted(o, transport.offered, EnableScript(n), ok) && (ok ==> OthersKept(old(Now()), Now(), n))
    {
      hide Replay, OthersKept, WorldOk, AllStale, TableEntry, MayPush, NmtOutcome, ControlOutcome, EnableOutcome;
      hide Walking, Quiet, NoSdo, AllInert, Acknowledged, ReadyToEnable, Walked, NmtSent, Attempted, Partly;
      hide SdoWriteFrame, NmtFrame, Ready;
      ghost var w1, o1, script, k := Now(), transport.offered, EnableScript(n), 2;
      ControlMayPush(transport.links[n], SHUTDOWN, epoch);
      ok := WriteControl(SHUTDOWN, n);
      ghost var w2, o2 := Now(), transport.offered;
      OneFrameMore(o, o1, o2, script, 1, true, ok);
      ControlStep(w0, w1, w2, n, SHUTDOWN, epoch, ok);
      if ok {
        ControlMayPush(transport.links[n], SWITCH_ON, epoch);
        ok := WriteControl(SWITCH_ON, n);
        ghost var w3, o3 := Now(), transport.offered;
        OneFrameMore(o, o2, o3, script, 2, true, ok);
        k := 3;
        ControlStep(w0, w2, w3, n, SWITCH_ON, epoch, ok);
        if ok {
          ControlMayPush(transport.links[n], ENABLE_OPERATION, epoch);
          ok := WriteControl(ENABLE_OPERATION, n);
          ghost var w4 := Now();
          OneFrameMore(o, o3, transport.offered, script, 3, true, ok);
          k := 4;
          ControlStep(w0, w3, w4, n, ENABLE_OPERATION, epoch, ok);
          if ok {
            EnableDone(w0, w1, w2, w3, w4, n);
            ControlsKeep(w1, w2, w3, w4, n);
          }
        }
      }
      ToTheEnd(o, transport.offered, script, k, ok);
      if !ok { EnableFailed(w0, Now(), n); }
    }

    /**
     The status word must show operation enabled and no fault; otherwise the error code is fetched for the message.
     `read` says the drive answered, with `status`.
     */
    method CheckStatus(n: nat) returns (ok: bool, read: bool, status: Word32, code: Option<Word32>, ghost w1: World)
      requires Ready() && n in transport.links
      modifies this`sdoResponse, this`responseId, this`log, this`trace, transport`links, transport`nextId,
               transport`offered, transport`trouble, transport`expired, feedback
      ensures Ready() && n in transport.links && StatusOutcome(old(Now()), Now(), n, ok)
      ensures IsNode(n) && Attempted(old(transport.offered), transport.offered, StatusScript(n, read && !ok), ok)
      ensures |old(transport.offered)| < |transport.offered|
      ensures ok <==> read && status / 4 % 4 == 1           // enabled, no fault; no other bit matters
      ensures ReadOutcome(old(Now()), w1, n, STATUS_WORD, read, status)
      ensures read && !ok ==> ReadOutcome(w1, Now(), n, ERROR_CODE, code.Some?, if code.Some? then code.value else 0)
      ensures !read || ok ==> Now() == w1 && code == None
    {
      hide WorldOk, AllStale, TableEntry, Ends, StatusOutcome, LooksEnabled, Replay, ReadOutcome;
      hide SdoReadFrame;
      ghost var w0 := Now();
      ghost var r, a, r', a';
      read, status, r, a := SdoReadFrom(n, STATUS_WORD, 0);
      ok, code, w1 := read && LooksEnabled(status), None, Now();
      TwoBitsDecide(status);
      StatusRead(w0, w1, n, r, a, read, status);
      ReadConcluded(w0, w1, n, r, a, read, status, STATUS_WORD);
      if read && !ok {
        var known, value;
        known, value, r', a' := SdoReadFrom(n, ERROR_CODE, 0);
        if known { code := Some(value); }
        StatusFailed(w0, w1, Now(), n, r', a', known, value);
        ReadConcluded(w1, Now(), n, r', a', known, value, ERROR_CODE);
        if !known { ReadInVain(w1, Now(), n, ERROR_CODE, value, 0); }
      }
    }

    /** What configure_node does once the drive is remapped: seed, enable, check. */
    method Raise(n: nat, ghost w0: World, ghost b: Core)
      returns (ok: bool, ghost start: nat, ghost position: Word32, ghost checked: bool)
      requires Ready() && Underway(w0, Now(), n, b, 3, true) && n in transport.links && b.node == n && IsNode(n)
      modifies this`sdoResponse, this`responseId, this`log, this`trace, transport`links, transport`nextId,
               transport`offered, transport`trouble, transport`expired, feedback
      ensures Ready() && NodeOutcome(w0, Now(), n, epoch, ok)
      ensures Attempted(old(transport.offered), transport.offered, RestScript(n, position, checked), ok)
      ensures ok ==> !checked && n in transport.links && transport.links[n].drive.core.target == ToI32(position)
      ensures ok ==> StartFate(genesis, Now(), n, |w0.trace|, start)
    {
      hide WorldOk, AllStale, TableEntry, Underway, SeedOutcome, EnableOutcome, StatusOutcome, NodeOutcome, ToI32;
      hide Bit7Clear, Quiet, ReadyToEnable, Replay, Started, StartDecides, StartFate, Stalled, Attempted, SeedScript;
      hide EnableScript, StatusScript;
      start, checked := 0, false;
      ghost var w1, o1 := Now(), transport.offered;
      ok, position := Seed(n);
      ghost var w2, o2 := Now(), transport.offered;
      if ok {
        SeededMeansReady(w0, w1, w2, n, b, epoch, position);
        ghost var sent;
        ok, sent := Enable(n);
        ghost var w3, o3 := Now(), transport.offered;
        if ok {
          ghost var wc;
          var read, status, code;
          ok, read, status, code, wc := CheckStatus(n);
          checked := read && !ok;
          AttemptedThen(o2, o3, transport.offered, EnableScript(n), StatusScript(n, checked), ok);
          NodeDone(w0, w1, w2, w3, Now(), n, b, epoch, position, ok);
          if ok {
            start := |sent.trace|;
            SentHere(w2, sent, w3, n);
            NodeStarted(w0, w1, w2, sent, w3, Now(), n, b, epoch, position);
            StartedThen(w0, sent, n);
            TargetIsSeed(w0, w1, w2, w3, Now(), n, b, epoch, position);
          }
        } else {
          AttemptedLess(o2, o3, EnableScript(n), StatusScript(n, checked));
          EnableStalled(w0, w1, w2, w3, n, b, epoch, position);
          StalledOutcome(w0, w3, n, epoch);
        }
        AttemptedThen(o1, o2, transport.offered, SeedScript(n, position), EnableScript(n) + StatusScript(n, checked),
                      ok);
      } else {
        AttemptedLess(o1, o2, SeedScript(n, position), EnableScript(n) + StatusScript(n, checked));
        SeedStalled(w0, w1, w2, n, b, epoch, position);
        StalledOutcome(w0, w2, n, epoch);
      }
    }

    /**
     One drive from boot to Operation Enabled in cyclic synchronous position mode, holding its position. The frames
     handed to the socket are those of the script, in order; after the first that fails there are no more.
     */
    method ConfigureNode(n: nat) returns (ok: bool, ghost start: nat, ghost position: Word32, ghost checked: bool)
      requires Ready() && n in transport.links && Bit7Clear(transport.links[n])
      modifies this`sdoResponse, this`responseId, this`log, this`trace, transport`links, transport`nextId,
               transport`offered, transport`trouble, transport`expired, feedback
      ensures Ready() && NodeOutcome(old(Now()), Now(), n, epoch, ok)
      ensures IsNode(n) && Attempted(old(transport.offered), transport.offered, NodeScript(n, position, checked), ok)
      ensures |old(transport.offered)| < |transport.offered|
      ensures ok ==> !checked && n in transport.links && transport.links[n].drive.core.target == ToI32(position)
      ensures ok ==> StartFate(genesis, Now(), n, |old(trace)|, start)
      ensures !ok && old(Fit(transport.links[n]) && Enableable(transport.links[n])) ==>
                WentWrong(genesis, trace, |old(trace)|)
    {
      hide WorldOk, AllStale, TableEntry, Underway, NodeOutcome, ToI32, Bit7Clear, Replay, StartFate, Fit, Enableable;
      hide WentWrong, Stalled, Attempted, RemapScript, RestScript;
      start, position, checked := 0, 0, false;
      ghost var w0, o := Now(), transport.offered;
      WorldNodes(w0, transport.nextId);
      ghost var b, k;
      ok, b, k := Remap(n);
      ghost var w1, o1 := Now(), transport.offered;
      if ok {
        ok, start, position, checked := Raise(n, w0, b);
        AttemptedThen(o, o1, transport.offered, RemapScript(n), RestScript(n, position, checked), ok);
        AttemptedGrows(o1, transport.offered, RestScript(n, position, checked), ok);
      } else {
        AttemptedLess(o, o1, RemapScript(n), RestScript(n, position, checked));
        RemapStalled(w0, w1, n, b, k);
        StalledOutcome(w0, w1, n, epoch);
      }
      if !ok && Fit(w0.links[n]) && Enableable(w0.links[n]) {
        FailureHasACause(w0, Now(), n, epoch);
        TroubleMeansSomethingWentWrong(genesis, trace, |w0.trace|);
      }
    }

    lemma StartedThen(w0: World, sent: World, n: nat)
      requires Valid() && IsNode(n) && n in transport.links && n in sent.links && sent == Replay(genesis, sent.trace)
      requires |w0.trace| < |sent.trace| && Since(sent, Now())
      requires sent.trace[|sent.trace| - 1].Sent? && sent.trace[|sent.trace| - 1].frame == NmtFrame(NMT_START, n)
      requires sent.links[n].drive.core.nmt == PreOperational && StartDecides(sent.links[n], transport.links[n])
      ensures StartFate(genesis, Now(), n, |w0.trace|, |sent.trace|)
    {
      hide WorldOk, TableEntry, Replay, NmtFrame, Structure;
    }

    // Activation and shutdown --------------------------------------------------------------------------------

    /** send_frame outside any transaction. */
    method Post(f: Frame) returns (ok: bool, ghost cs: seq<Choice>)
      requires Ready() && f.length <= 8 && MaySend(Now(), f, epoch) && Unanswered(f)
      modifies this`sdoResponse, this`responseId, this`log, this`trace, transport`links, transport`nextId,
               transport`offered, transport`trouble, feedback
      ensures Ready()
      ensures var mid := Run(old(Now()), cs, All);
              WorldOk(mid, old(transport.nextId)) && Posted(mid, Now(), f, ok, old(transport.nextId), epoch)
      ensures transport.nextId == old(transport.nextId) + if ok then 1 else 0
      ensures transport.offered == old(transport.offered) + [f]
      ensures old(transport.trouble) <= transport.trouble
    {
      hide WorldOk, Run, AllStale, MaySend, TableEntry, Broadcast, Failed, Unanswered;
      ghost var w0, id := Now(), transport.nextId;
      ok, cs := SendFrame(f, false);
      PostCourse(w0, cs, Now(), f, ok, id, epoch);
    }

    /** Time passes between two calls. */
    method Elapse()
      requires Valid() && Consistent()
      modifies this`sdoResponse, this`responseId, this`log, this`trace, transport`links, transport`trouble, feedback
      ensures Valid()
      ensures old(Idle()) ==> Idle()
      ensures old(Operating()) ==> Operating()
    {
      hide WorldOk, Run, TableEntry, Steady, Resting, Retired, Replay;
      ghost var w0 := Now();
      ghost var cs := Interleave(false);
      if Resting(w0, nodeIds, transport.nextId) { RestingRun(w0, cs, Mode(false), nodeIds, transport.nextId); }
      if Retired(genesis, w0, nodeIds, shutAt) { RetiredRun(genesis, w0, nodeIds, shutAt, cs, Mode(false)); }
      if Steady(w0, joints, written, transport.nextId) {
        SteadyRun(w0, cs, Mode(false), joints, written, transport.nextId);
      }
    }

    /** The shutdown frames of deactivate(), each attempted whatever became of the others. */
    method ShutAll() returns (ok: bool)
      requires Ready()
      modifies this`sdoResponse, this`responseId, this`log, this`trace, transport`links, transport`nextId,
               transport`offered, transport`trouble, feedback
      ensures Ready() && AllShut(old(Now()), Now(), nodeIds, |nodeIds|) && old(transport.trouble) <= transport.trouble
      ensures ok <==> transport.nextId == old(transport.nextId) + 2 * |nodeIds|
      ensures transport.offered == old(transport.offered) + ShutdownFrames(nodeIds, |nodeIds|)
      ensures FramesOf(trace) == FramesOf(old(trace)) + ShutdownFrames(nodeIds, |nodeIds|)
    {
      hide Replay, FramesOf;
      hide WorldOk, Run, AllStale, TableEntry, AllShut, Posted, MayPush, MaySend, Unanswered, ForNodeOnly;
      hide SdoWriteFrame, NmtFrame;
      ghost var w0 := Now();
      ShutStarts(w0, nodeIds);
      ok := true;
      for i := 0 to |nodeIds|
        invariant Ready() && AllShut(w0, Now(), nodeIds, i) && w0.trouble <= transport.trouble
        invariant transport.nextId <= old(transport.nextId) + 2 * i
        invariant ok <==> transport.nextId == old(transport.nextId) + 2 * i
        invariant transport.offered == old(transport.offered) + ShutdownFrames(nodeIds, i)
        invariant FramesOf(trace) == FramesOf(old(trace)) + ShutdownFrames(nodeIds, i)
      {
        var sent := ShutOne(i, w0);
        ok := ok && sent;
      }
    }

    method ShutOne(i: nat, ghost w0: World) returns (ok: bool)
      requires Ready() && i < |nodeIds| && AllShut(w0, Now(), nodeIds, i)
      modifies this`sdoResponse, this`responseId, this`log, this`trace, transport`links, transport`nextId,
               transport`offered, transport`trouble, feedback
      ensures Ready() && AllShut(w0, Now(), nodeIds, i + 1) && old(transport.trouble) <= transport.trouble
      ensures old(transport.nextId) <= transport.nextId <= old(transport.nextId) + 2
      ensures ok <==> transport.nextId == old(transport.nextId) + 2
      ensures transport.offered == old(transport.offered) +
                                   [SdoWriteFrame(nodeIds[i], CONTROL_WORD, 0, SHUTDOWN, 2),
                                    NmtFrame(NMT_PRE_OPERATIONAL, nodeIds[i])]
      ensures FramesOf(trace) == FramesOf(old(trace)) + [SdoWriteFrame(nodeIds[i], CONTROL_WORD, 0, SHUTDOWN, 2),
                                                         NmtFrame(NMT_PRE_OPERATIONAL, nodeIds[i])]
    {
      hide Replay, FramesOf;
      hide WorldOk, Run, AllStale, TableEntry, AllShut, Posted, MayPush, MaySend, Unanswered, ForNodeOnly;
      hide SdoWriteFrame, NmtFrame;
      var n := nodeIds[i];
      Pow256Values();
      hide Pow256;
      var f := MakeSdoWriteFrame(n, CONTROL_WORD, 0, SHUTDOWN, 2);
      ShutdownMaySend(Now(), n, epoch, transport.nextId);
      ghost var w1, id := Now(), transport.nextId;
      var first, second;
      ghost var cs;
      first, cs := Post(f);
      ShutRun(w0, w1, cs, All, nodeIds, i);
      ShutdownPosted(w0, Run(w1, cs, All), Now(), nodeIds, i, first, id, epoch, id);
      RunSendsNothing(w1, cs, All);
      PostedSince(Run(w1, cs, All), Now(), f, first, id, epoch);
      f := MakeNmtFrame(NMT_PRE_OPERATIONAL, n);
      PreOperationalMaySend(Now(), n, epoch, transport.nextId);
      ghost var w2 := Now();
      id := transport.nextId;
      second, cs := Post(f);
      ShutRun(w0, w2, cs, All, nodeIds, i + 1);
      PreOperationalPosted(w0, Run(w2, cs, All), Now(), nodeIds, i, second, id, epoch);
      RunSendsNothing(w2, cs, All);
      PostedSince(Run(w2, cs, All), Now(), f, second, id, epoch);
      ok := first && second;
    }

    /** The shutdown frames to every drive, then the thread ends and the socket closes. */
    method Deactivate() returns (ok: bool)
      requires Valid() && Consistent() && AllStale(Now(), transport.nextId) &&
               (if rxThread then logEpoch == epoch else Idle())
      modifies this`rxRunning, this`rxThread, this`sdoResponse, this`responseId, this`log, this`trace, this`shutAt,
               transport`links, transport`nextId, transport`offered, transport`trouble, transport`isOpen, feedback
      ensures Idle() && !transport.isOpen && old(transport.trouble) <= transport.trouble
      ensures old(!rxThread) ==>
                && ok && Now() == old(Now()) && transport.nextId == old(transport.nextId) && shutAt == old(shutAt)
      ensures old(rxThread) ==>
                && transport.offered == old(transport.offered) + ShutdownFrames(nodeIds, |nodeIds|)
                && (ok <==> transport.nextId == old(transport.nextId) + 2 * |nodeIds|)
                && AllHalting(old(Now()), Now(), nodeIds)
                && shutAt == Some(|old(trace)|) && Since(old(Now()), Now())
    {
      hide WorldOk, Run, AllStale, TableEntry, AllShut, AllClear, AllHalting, Replay, FramesOf, Retired, Since;
      ghost var w0 := Now();
      ok := true;
      if transport.isOpen {
        ok := ShutAll();
      }
      rxRunning := false;
      if rxThread {
        ghost var w1 := Now();
        ghost var cs := Interleave(false);   // until the thread has seen the flag and join returns
        ShutRun(w0, w1, cs, All, nodeIds, |nodeIds|);
        ShutIsClear(w0, Now(), nodeIds);
        RunKeepsAllStale(w1, cs, All, transport.nextId);
        RunTrouble(w1, cs, All);
        RunSendsNothing(w1, cs, All);
        RetiredBy(genesis, w0, Now(), nodeIds, old(transport.nextId));
        rxThread := false;
        shutAt := Some(|w0.trace|);
      }
      transport.Close();
    }

    /** feedback_.fill(MotorFeedback{}) */
    method ClearFeedback()
      requires feedback.Length == TABLE_SIZE
      modifies this`log, this`trace, this`logEpoch, feedback
      ensures logEpoch == epoch + 1 && trace == old(trace) + [Cleared]
      ensures log == [] && forall n :: 0 <= n < TABLE_SIZE ==> feedback[n] == TableEntry(log, n)
    {
      log := [];
      trace := trace + [Cleared];
      logEpoch := epoch + 1;
      for k := 0 to feedback.Length
        invariant trace == old(trace) + [Cleared]
        invariant log == [] && logEpoch == epoch + 1 && forall n :: 0 <= n < k ==> feedback[n] == TableEntry([], n)
      {
        feedback[k] := MotorFeedback(0, 0, 0, 0);
      }
    }

    /**
     All drives or none; `bound` says the socket could be bound. After a failure the drives are shut down, from a state
     no drive was stopped on the way to.
     */
    method Activate() 
      returns (ok: bool, ghost bound: bool, ghost starts: seq<nat>, ghost part: Part)
      requires Idle()
      modifies this, transport, feedback
      ensures ok ==> Operating() && written == [] && bound
      ensures ok ==> Attempted(old(transport.offered), transport.offered, ActivationScript(joints), true)
      ensures !ok && bound ==> CutShort(old(transport.offered), transport.offered, nodeIds, part)
      ensures ok ==> StartFates(genesis, Now(), nodeIds, |old(trace)|, starts)
      ensures !ok ==> Idle() && !transport.isOpen
      ensures !ok && bound ==> ShutDown(old(Now()))
      ensures bound <==> trace != old(trace)
      ensures !bound ==> Now() == old(Now()) && transport.offered == old(transport.offered) && shutAt == old(shutAt)
      ensures bound ==> AllConverge(old(Now()), Now(), nodeIds, ok) && Since(old(Now()), Now())
      ensures !ok && bound && AllAble(old(transport.links), nodeIds) ==> WentWrong(genesis, trace, |old(trace)|)
    {
      hide WorldOk, Run, AllStale, TableEntry, Activating, NodeOutcome, Bit7Clear, Raised, AllClear, AllHalting, Replay;
      hide AllConverge, AllFollow, AllSeeded, Kept, Since, Retired, ShutDown, AllAble, WentWrong, StartFates;
      ghost var start := Now();
      ok := transport.Open();
      bound, starts, part := ok, [], Part([], 0, false);
      if !ok {
        return;
      }
      LogApart(start, transport.nextId, 0, 0);
      ReplayMore(genesis, trace, Cleared);
      ClearFeedback();
      rxRunning := true;
      rxThread := true;
      epoch := epoch + 1;
      written := [];
      ghost var w0 := Now();
      ok, starts, part := ConfigureAll();
      if ok { FatesEarlier(genesis, Now(), nodeIds, |start.trace|, |w0.trace|, starts); }
      ClearedFirst(start, w0, Now());
      SinceLength(w0, Now());
      SameStart(start, w0, Now(), nodeIds, ok);
      if !ok {
        ShutDownFrom(start, w0);
        if AllAble(start.links, nodeIds) {
          TroubleMeansSomethingWentWrong(genesis, trace, |start.trace|);
          SinceLength(start, Now());
          AbleFailsOnTrouble(start, Now(), nodeIds);
        }
      }
    }

    /**
     Since w0 everything was shut down. Exactly the shutdown frames have been sent since the state marked by `shutAt`,
     and every drive that was live then is halting; that is every drive live in w0 and every drive that has reported
     since.
     */
    ghost predicate ShutDown(w0: World)
      requires DistinctNodes(nodeIds)
      reads this, transport
    {
      && shutAt.Some? && |w0.trace| <= shutAt.value <= |trace|
      && FramesOf(trace) == FramesOf(trace[..shutAt.value]) + ShutdownFrames(nodeIds, |nodeIds|)
      && AllOnward(w0, At(shutAt.value)) && AllHalting(At(shutAt.value), Now(), nodeIds)
      && (forall i :: 0 <= i < |nodeIds| ==> WasLive(At(shutAt.value).links[nodeIds[i]]))
      && EndsWith(transport.offered, ShutdownFrames(nodeIds, |nodeIds|))
    }

    lemma ShutDownFrom(start: World, w0: World)
      requires DistinctNodes(nodeIds) && ShutDown(w0) && w0.links == start.links && |start.trace| <= |w0.trace|
      ensures ShutDown(start)
    {
      hide FramesOf, Replay, AllHalting, ShutdownFrames, Onward;
    }

    /** The loop of activate() over all drives. */
    method ConfigureEach(ghost w0: World)
      returns (ok: bool, ghost js: seq<Joint>, ghost starts: seq<nat>, ghost part: Part)
      requires Ready() && AllClear(transport.links, nodeIds) && w0 == Now()
      modifies this`sdoResponse, this`responseId, this`log, this`trace, transport`links, transport`nextId,
               transport`offered, transport`trouble, transport`expired, feedback
      ensures Ready()
      ensures ok ==> && Activating(w0, Now(), nodeIds, js, epoch) && |js| == |nodeIds|
                     && StartFates(genesis, Now(), nodeIds, |w0.trace|, starts)
                     && forall k :: 0 <= k < |js| ==> js[k].gear == gearRatios[k] && js[k].node == nodeIds[k]
      ensures ok ==> Attempted(old(transport.offered), transport.offered, ActivationScript(js), true)
      ensures !ok ==> CutOff(old(transport.offered), transport.offered, nodeIds, part)
      ensures !ok ==> ConvergeFails(w0, Now(), nodeIds)
    {
      hide WorldOk, Run, AllStale, TableEntry, Activating, NodeOutcome, Bit7Clear, Raised, AllClear, Replay, Kept;
      hide Since, StartFates, StartFate, Attempted, NodeScript, ToI32, ConvergeFails;
      ActivationStarts(w0, nodeIds, epoch);
      js := [];
      ghost var o := transport.offered;
      starts, part := [], Part([], 0, false);
      NothingActivated(o);
      NoFates(genesis, w0, nodeIds, |w0.trace|);
      ok := true;
      var i := 0;
      while i < |nodeIds| && ok
        invariant 0 <= i <= |nodeIds| && Ready()
        invariant ok ==> && Activating(w0, Now(), nodeIds, js, epoch) && |js| == i
                         && StartFates(genesis, Now(), nodeIds[..i], |w0.trace|, starts)
                         && forall k :: 0 <= k < i ==> js[k].gear == gearRatios[k] && js[k].node == nodeIds[k]
        invariant ok ==> Attempted(o, transport.offered, ActivationScript(js), true)
        invariant !ok ==> CutOff(o, transport.offered, nodeIds, part)
        invariant !ok ==> ConvergeFails(w0, Now(), nodeIds)
        decreases |nodeIds| - i, ok
      {
        ghost var w1, o1 := Now(), transport.offered;
        NextIsClear(w0, w1, nodeIds, js, epoch);
        ghost var start, position, checked;
        ok, start, position, checked := ConfigureNode(nodeIds[i]);
        ghost var w2 := Now();
        if ok {
          NodeOutcomeHere(w1, w2, nodeIds[i], epoch);
          ghost var j := Joint(nodeIds[i], gearRatios[i], w2.links[nodeIds[i]].drive.core.target,
                               w0.links[nodeIds[i]].lost);
          OneDriveMore(o, o1, transport.offered, js, j, position);
          ActivationStep(w0, w1, w2, nodeIds, js, j, epoch);
          FatesStep(genesis, w0, w1, w2, nodeIds, js, epoch, starts, start);
          starts := starts + [start];
          js := js + [j];
          i := i + 1;
        } else {
          part := Part(js, position, checked);
          AttemptedThen(o, o1, transport.offered, ActivationScript(js), NodeScript(nodeIds[i], position, checked),
                        false);
          FailsWith(w0, w1, w2, nodeIds, js, epoch);
        }
      }
      assert nodeIds[..i] == nodeIds || !ok;
    }

    /** All drives brought up, or all shut down. */
    method ConfigureAll() returns (ok: bool, ghost starts: seq<nat>, ghost part: Part)
      requires Ready() && AllClear(transport.links, nodeIds) && written == []
      modifies this`rxRunning, this`rxThread, this`joints, this`sdoResponse, this`responseId, this`log, this`trace,
               this`shutAt, transport`links, transport`nextId, transport`offered, transport`trouble, transport`expired,
               transport`isOpen, feedback
      ensures ok ==> Operating() && StartFates(genesis, Now(), nodeIds, |old(trace)|, starts)
      ensures ok ==> Attempted(old(transport.offered), transport.offered, ActivationScript(joints), true)
      ensures !ok ==> CutShort(old(transport.offered), transport.offered, nodeIds, part)
      ensures !ok ==> Idle() && !transport.isOpen && ShutDown(old(Now()))
      ensures AllConverge(old(Now()), Now(), nodeIds, ok) && Since(old(Now()), Now())
    {
      hide WorldOk, Run, AllStale, TableEntry, Activating, NodeOutcome, Bit7Clear, Raised, AllClear, AllHalting, Replay;
      hide AllConverge, AllFollow, AllSeeded, Kept, Since, Retired, ShutDown, WentWrong, FramesOf, AllDecided,
           StartFates, StartFate, Attempted, NodeScript, ToI32, CutShort, ConvergeFails, Resting;
      ghost var w0, o, js := Now(), transport.offered, [];
      ok, js, starts, part := ConfigureEach(w0);
      if ok {
        joints := js;
        AllRaised(w0, Now(), nodeIds, js, epoch);
        AllSmooth(w0, Now(), nodeIds, js, epoch);
        ActivatingSince(w0, Now(), nodeIds, js, epoch);
      } else {
        ghost var before, o1 := Now(), transport.offered;
        var shut := Deactivate();
        ThenShutDown(o, o1, transport.offered, nodeIds, part);
        StillFails(w0, before, Now(), nodeIds);
        FailingSince(w0, before, Now(), nodeIds);
        ShutDownNow(w0, before);
      }
    }

    lemma ShutDownNow(w0: World, before: World)
      requires Idle() && shutAt == Some(|before.trace|) && Since(before, Now()) &&
               before == Replay(genesis, before.trace)
      requires AllHalting(before, Now(), nodeIds) && Since(w0, before) && AllOnward(w0, before)
      requires EndsWith(transport.offered, ShutdownFrames(nodeIds, |nodeIds|))
      ensures ShutDown(w0)
    {
      hide WorldOk, Replay, FramesOf, ShutdownFrames, TableEntry, Onward, Resting, IsHalting, WasLive;
    }

    // The cyclic phase ---------------------------------------------------------------------------------------

    /** Joint states from one instant; on a fault the states before the faulty joint have been filled already. */
    method Read(states: seq<JointState>) returns (ok: bool, filled: seq<JointState>)
      requires Valid() && Consistent()
      modifies this`sdoResponse, this`responseId, this`log, this`trace, transport`links, transport`trouble, feedback
      ensures Valid()
      ensures old(Idle()) ==> Idle()
      ensures old(Operating()) ==> Operating()
      ensures !transport.isOpen ==> !ok && filled == states
      ensures transport.isOpen ==> && |filled| == |nodeIds|
                                   && (ok <==> NoFaultUpTo(log, nodeIds, |nodeIds|))
      ensures transport.isOpen ==>
                forall k :: 0 <= k < |nodeIds| ==>
                              filled[k] == if NoFaultUpTo(log, nodeIds, k + 1)
                                  then StateOf(log, nodeIds[k], gearRatios[k])
                                           else Resized(states, |nodeIds|)[k]
      ensures transport.isOpen ==>
                forall k :: 0 <= k < |nodeIds| && NoFaultUpTo(log, nodeIds, k + 1) ==>
                  AtTheShaft(filled[k], PositionOf(log, nodeIds[k]), VelocityOf(log, nodeIds[k]), gearRatios[k])
      ensures ok && old(Operating()) && written == [] ==>
                forall k :: 0 <= k < |nodeIds| ==>
                              filled[k].position == CountsToRad(joints[k].seed) / gearRatios[k]
      ensures ok && old(Operating()) ==>
                forall k :: 0 <= k < |nodeIds| && transport.links[nodeIds[k]].drive.core.nmt == PreOperational ==>
                              filled[k].position == CountsToRad(joints[k].seed) / gearRatios[k]
    {
      hide WorldOk, TableEntry, Steady, Resting, Bit, StatusOf, PositionOf, VelocityOf, CountsToRad, VelocityToRadS,
           AtTheShaft;
      ok, filled := false, states;
      if transport.isOpen {
        Elapse();
        if Operating() && written == [] { SteadyPositions(Now(), joints, transport.nextId); }
        if Operating() { StrandedPositions(Now(), joints, written, transport.nextId); }
        ok, filled := Fill(Resized(states, |nodeIds|));
      }
    }

    /** The part of read() under the feedback mutex. */
    method Fill(states: seq<JointState>) returns (ok: bool, filled: seq<JointState>)
      requires Valid() && |states| == |nodeIds|
      ensures |filled| == |nodeIds| && (ok <==> NoFaultUpTo(log, nodeIds, |nodeIds|))
      ensures forall k :: 0 <= k < |nodeIds| ==>
                            filled[k] == if NoFaultUpTo(log, nodeIds, k + 1)
                                then StateOf(log, nodeIds[k], gearRatios[k])
                                         else states[k]
      ensures forall k :: 0 <= k < |nodeIds| && NoFaultUpTo(log, nodeIds, k + 1) ==>
                AtTheShaft(filled[k], PositionOf(log, nodeIds[k]), VelocityOf(log, nodeIds[k]), gearRatios[k])
    {
      hide WorldOk, TableEntry, StatusOf, PositionOf, VelocityOf, Bit, CountsToRad, VelocityToRadS, AtTheShaft;
      ok, filled := true, states;
      var i := 0;
      while i < |nodeIds| && ok
        invariant 0 <= i <= |nodeIds| && |filled| == |nodeIds|
        invariant NoFaultUpTo(log, nodeIds, i)
        invariant !ok ==> i < |nodeIds| && Bit(StatusOf(log, nodeIds[i]), 3)
        invariant forall k :: 0 <= k < |nodeIds| ==>
                                filled[k] == if k < i then StateOf(log, nodeIds[k], gearRatios[k]) else states[k]
        decreases |nodeIds| - i, ok
      {
        TableEntryFields(log, nodeIds[i]);
        var f := feedback[nodeIds[i]];
        if Bit(f.statusWord, 3) {
          ok := false;
        } else {
          filled := filled[i := JointState(CountsToRad(f.position) / gearRatios[i],
                                           VelocityToRadS(f.velocity) / gearRatios[i])];
          i := i + 1;
        }
      }
      forall k | 0 <= k < |nodeIds| && NoFaultUpTo(log, nodeIds, k + 1)
        ensures AtTheShaft(filled[k], PositionOf(log, nodeIds[k]), VelocityOf(log, nodeIds[k]), gearRatios[k])
      {
        StateAtTheShaft(log, nodeIds[k], gearRatios[k]);
      }
    }

    /** One target frame per claimed joint, in order, then exactly one SYNC, whatever the socket refuses. */
    method Write(commands: seq<Command>) returns (ok: bool)
      requires Valid() && Consistent() && (transport.isOpen ==> Operating())
      modifies this`sdoResponse, this`responseId, this`log, this`trace, this`written, transport`links,
               transport`nextId, transport`offered, transport`trouble, feedback
      ensures !transport.isOpen || |commands| != |nodeIds| ==>
                !ok && Now() == old(Now()) && written == old(written) &&
                transport.offered == old(transport.offered) && transport.nextId == old(transport.nextId)
      ensures old(Idle()) ==> Idle()
      ensures transport.isOpen ==> Operating()
      ensures transport.isOpen && |commands| == |nodeIds| ==>
                var frames := TargetFrames(joints, commands, |commands|) + [SyncFrame()];
                && written == old(written) + [commands]
                && transport.offered == old(transport.offered) + frames
                && (ok <==> transport.nextId == old(transport.nextId) + |frames|)
    {
      hide WorldOk, TableEntry, AllStale, Steady, Resting, AllFollow, AllFollowing, AllSeeded, AllDecided, Replay,
           Retired;
      ok := false;
      if transport.isOpen && |commands| == |nodeIds| {
        SteadyFollows(Now(), joints, written, transport.nextId, commands);
        ok := SendTargets(commands);
        var sent := SendSync(commands);
        ok := ok && sent;
      }
    }

    method SendTargets(commands: seq<Command>) returns (ok: bool)
      requires Ready() && JointsMatch() && |commands| == |nodeIds|
      requires AllFollowing(transport.links, joints, written, commands, 0) && AllDecided(Now(), joints)
      modifies this`sdoResponse, this`responseId, this`log, this`trace, transport`links, transport`nextId,
               transport`offered, transport`trouble, feedback
      ensures Ready() && AllFollowing(transport.links, joints, written, commands, |commands|) &&
              AllDecided(Now(), joints)
      ensures transport.offered == old(transport.offered) + TargetFrames(joints, commands, |commands|)
      ensures transport.nextId <= old(transport.nextId) + |TargetFrames(joints, commands, |commands|)|
      ensures ok <==> transport.nextId == old(transport.nextId) + |TargetFrames(joints, commands, |commands|)|
    {
      hide WorldOk, TableEntry, AllStale, AllFollowing, AllDecided, Replay, Posted, Run, MotorCounts,
           TargetPositionFrame, MaySend, Unanswered;
      ok := true;
      for i := 0 to |nodeIds|
        invariant Ready() && AllFollowing(transport.links, joints, written, commands, i) && AllDecided(Now(), joints)
        invariant transport.offered == old(transport.offered) + TargetFrames(joints, commands, i)
        invariant transport.nextId <= old(transport.nextId) + |TargetFrames(joints, commands, i)|
        invariant ok <==> transport.nextId == old(transport.nextId) + |TargetFrames(joints, commands, i)|
      {
        if commands[i].None? {
          FrameSkipped(transport.links, joints, written, commands, i);
        } else {
          var sent := SendTarget(i, commands);
          ok := ok && sent;
        }
      }
    }

    method SendTarget(i: nat, commands: seq<Command>) returns (ok: bool)
      requires Ready() && JointsMatch() && |commands| == |nodeIds| && i < |commands| && commands[i].Some?
      requires AllFollowing(transport.links, joints, written, commands, i) && AllDecided(Now(), joints)
      modifies this`sdoResponse, this`responseId, this`log, this`trace, transport`links, transport`nextId,
               transport`offered, transport`trouble, feedback
      ensures Ready() && AllFollowing(transport.links, joints, written, commands, i + 1) && AllDecided(Now(), joints)
      ensures transport.offered == old(transport.offered) +
                                   [TargetPositionFrame(nodeIds[i], MotorCounts(commands[i].value, gearRatios[i]))]
      ensures transport.nextId == old(transport.nextId) + if ok then 1 else 0
    {
      hide WorldOk, TableEntry, AllStale, AllFollowing, AllDecided, Replay, Posted, Run, MotorCounts,
           TargetPositionFrame, MaySend;
      hide Unanswered, Decode;
      var counts := MotorCounts(commands[i].value, gearRatios[i]);
      var f := MakeTargetPositionFrame(nodeIds[i], counts);
      TargetSteers(nodeIds[i], counts);
      TargetLength(nodeIds[i], counts);
      ghost var w0, id := Now(), transport.nextId;
      SteeringMaySend(w0, f, epoch, id);
      ghost var cs;
      ok, cs := Post(f);
      DecidedRun(w0, cs, All, joints);
      DecidedPosted(Run(w0, cs, All), Now(), f, ok, id, epoch, joints);
      FollowingRun(w0, cs, All, joints, written, commands, i);
      FramePosted(Run(w0, cs, All), Now(), joints, written, commands, i, ok, id, epoch, id);
    }

    method SendSync(commands: seq<Command>) returns (ok: bool)
      requires Ready() && JointsMatch() && |commands| == |nodeIds|
      requires AllFollowing(transport.links, joints, written, commands, |commands|) && AllDecided(Now(), joints)
      modifies this`sdoResponse, this`responseId, this`log, this`trace, this`written, transport`links,
               transport`nextId, transport`offered, transport`trouble, feedback
      ensures Ready() && Steady(Now(), joints, written, transport.nextId) && written == old(written) + [commands]
      ensures transport.offered == old(transport.offered) + [SyncFrame()]
      ensures transport.nextId == old(transport.nextId) + if ok then 1 else 0
    {
      hide WorldOk, TableEntry, AllStale, AllFollowing, AllDecided, Replay, AllFollow, AllSeeded, Posted, Run, MaySend,
           Unanswered;
      hide Decode, SyncFrame;
      var f := MakeSyncFrame();
      SyncSteers();
      SyncLength();
      ghost var w0, id := Now(), transport.nextId;
      SteeringMaySend(w0, f, epoch, id);
      ghost var cs;
      ok, cs := Post(f);
      DecidedRun(w0, cs, All, joints);
      DecidedPosted(Run(w0, cs, All), Now(), f, ok, id, epoch, joints);
      FollowingRun(w0, cs, All, joints, written, commands, |commands|);
      SyncPosted(Run(w0, cs, All), Now(), joints, written, commands, ok, id, epoch, id);
      written := written + [commands];
    }
  }

  lemma TableEntryAppends(log: seq<RxEvent>, e: RxEvent)
    ensures forall n :: 0 <= n < TABLE_SIZE && e.node != n ==> TableEntry(log + [e], n) == TableEntry(log, n)
    ensures e.Heard? ==>
              TableEntry(log + [e], e.node) ==
              (if IsMotion(e.msg) then TableEntry(log, e.node).(position := ToI32(WordOf(e.msg.payload[0..4])),
                                                            velocity := ToI32(WordOf(e.msg.payload[4..8])))
               else if e.msg.Tpdo2? && |e.msg.payload| >= 2
                   then TableEntry(log, e.node).(statusWord := HalfWordOf(e.msg.payload[0..2]))
               else if e.msg.Emcy? then TableEntry(log, e.node).(errorCode := e.msg.errorCode)
               else TableEntry(log, e.node))
    ensures e.Seeded? ==> TableEntry(log + [e], e.node) == TableEntry(log, e.node).(position := e.counts)
  {
    forall n | 0 <= n < TABLE_SIZE && e.node != n ensures TableEntry(log + [e], n) == TableEntry(log, n) {
      TableEntryAppend(log, e, n);
    }
    TableEntryAppend(log, e, e.node);
  }
}
