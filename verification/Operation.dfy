// A configured drive between activation and deactivation.

module CyclicOperation {
  import opened Wrappers
  import opened PxxCan
  import opened Cia402Drive
  import opened CanNetwork
  import opened SdoTransactions

  // Where a drive's target can come from ---------------------------------------------------------------------

  predicate CarriesOneOf(payload: seq<Byte>, commanded: set<int>) {
    exists v :: v in commanded && IsInt32(v) && payload == Le(ToU32(v), 4)
  }

  /** Messages the host sends to a configured drive; target frames carry counts from `commanded` only. */
  predicate Cyclic(m: HostMessage, commanded: set<int>) {
    (m.Nmt? && m.command != 0x02) || m.Sync? || m.SdoRead? || IsControl(m) ||
        (m.Rpdo1? && CarriesOneOf(m.payload, commanded))
  }

  /** Configured; its target is the seed or a commanded value, and nothing under way can bring any other. */
  predicate Holds(l: Link, seed: int, commanded: set<int>) {
    && Configured(l.drive.core) && l.drive.core.nmt != Stopped
    && (l.drive.core.target == seed || l.drive.core.target in commanded)
    && (l.drive.core.buffer.Some? ==> CarriesOneOf(l.drive.core.buffer.value, commanded))
    && (forall i :: 0 <= i < |l.down| ==> Cyclic(l.down[i].msg, commanded))
  }

  /** Until something is commanded, no target frame has come and none is under way. */
  lemma HoldsTheSeed(l: Link, seed: int)
    requires Holds(l, seed, {})
    ensures l.drive.core.target == seed && l.drive.core.buffer == None
    ensures forall i :: 0 <= i < |l.down| ==> !l.down[i].msg.Rpdo1?
  {
  }

  lemma CyclicExec(c: Core, m: HostMessage, seed: int, commanded: set<int>)
    requires Configured(c) && c.nmt != Stopped && (c.target == seed || c.target in commanded) && Cyclic(m, commanded)
    requires c.buffer.Some? ==> CarriesOneOf(c.buffer.value, commanded)
    ensures var c' := CoreExec(c, m);
            && Configured(c') && c'.nmt != Stopped && (c'.target == seed || c'.target in commanded)
            && (c'.buffer.Some? ==> CarriesOneOf(c'.buffer.value, commanded))
  {
    hide Le, WriteMapping, Pack;
    if m.Sync? && c.nmt == Operational && c.buffer.Some? {
      var v :| v in commanded && IsInt32(v) && c.buffer.value == Le(ToU32(v), 4);
      UnpackTarget(c, v);
    }
  }

  lemma HoldsStep(l: Link, seed: int, commanded: set<int>, e: Event)
    requires Holds(l, seed, commanded)
    ensures Holds(LinkStep(l, e), seed, commanded)
  {
    if l.down != [] && e.Deliver? {
      CyclicExec(l.drive.core, l.down[0].msg, seed, commanded);
    }
    hide CoreExec, PowerExec, Cyclic, Answer, OnSync, EmitTpdo1, EmitTpdo2, CarriesOneOf, Configured;
  }

  /** Safety of the cyclic phase: with any loss and any fault, a drive aims at its seed or at a commanded value. */
  lemma {:induction false} RunKeepsHolds(n: nat, w: World, cs: seq<Choice>, mode: Listening, seed: int,
                                         commanded: set<int>)
    requires n in w.links && Holds(w.links[n], seed, commanded)
    ensures n in Run(w, cs, mode).links && Holds(Run(w, cs, mode).links[n], seed, commanded)
  {
    if cs != [] {
      var p, c := Run(w, cs[..|cs| - 1], mode), cs[|cs| - 1];
      RunKeepsHolds(n, w, cs[..|cs| - 1], mode, seed, commanded);
      StepKeepsNodes(p, c, mode);
      StepSeenFrom(p, c, mode, n);
      if c.At? { HoldsStep(p.links[n], seed, commanded, c.event); }
      hide LinkStep, Step;
    }
  }

  lemma CyclicMore(m: HostMessage, commanded: set<int>, more: set<int>)
    requires Cyclic(m, commanded) && commanded <= more
    ensures Cyclic(m, more)
  {
    hide Le;
    if m.Rpdo1? && CarriesOneOf(m.payload, commanded) {
      var v :| v in commanded && IsInt32(v) && m.payload == Le(ToU32(v), 4);
      assert v in more;
    }
  }

  lemma HoldsMore(l: Link, seed: int, commanded: set<int>, more: set<int>)
    requires Holds(l, seed, commanded) && commanded <= more
    ensures Holds(l, seed, more)
  {
    forall i | 0 <= i < |l.down| ensures Cyclic(l.down[i].msg, more) { CyclicMore(l.down[i].msg, commanded, more); }
    if l.drive.core.buffer.Some? {
      CyclicMore(Rpdo1(l.drive.core.buffer.value), commanded, more);
    }
    hide CarriesOneOf, Configured, Le;
  }

  // What a drive aims at once everything under way has arrived -----------------------------------------------

  lemma {:induction false} FoldAppend(c: Core, down: seq<Request>, r: Request)
    ensures Fold(c, down + [r]) == CoreExec(Fold(c, down), r.msg)
    decreases |down|
  {
    hide CoreExec;
    if down == [] {
      assert [r][1..] == [];
      assert Fold(CoreExec(c, r.msg), []) == CoreExec(c, r.msg);
      assert down + [r] == [r];
    } else {
      assert (down + [r])[1..] == down[1..] + [r];
      FoldAppend(CoreExec(c, down[0].msg), down[1..], r);
    }
  }

  lemma {:induction false} RisingAppend(bit: bool, down: seq<Request>, r: Request)
    ensures Rising(bit, down) && (IsReset(r.msg) ==> !Armed(bit, down)) ==> Rising(bit, down + [r])
    ensures Armed(bit, down + [r]) == (IsReset(r.msg) || (Armed(bit, down) && !IsShutdown(r.msg)))
    decreases |down|
  {
    hide IsReset, IsShutdown;
    if down == [] {
      assert down + [r] == [r];
      assert [r][1..] == [];
    } else {
      assert (down + [r])[1..] == down[1..] + [r];
      RisingAppend(IsReset(down[0].msg) || (bit && !IsShutdown(down[0].msg)), down[1..], r);
    }
  }

  /** The core tracks `goal`; a target frame not latched yet carries `pending`. */
  predicate Aims(c: Core, goal: int, pending: Option<int>) {
    && Configured(c) && c.nmt == Operational && c.target == goal
    && (match pending
        case None => c.buffer == None
        case Some(v) => IsInt32(v) && c.buffer == Some(Le(ToU32(v), 4)))
  }

  /** What a message the host sends in the cyclic phase does to goal and pending value. */
  function Steer(goal: int, pending: Option<int>, m: Option<HostMessage>, v: int): (int, Option<int>) {
    if m.None? then (goal, pending)
    else if m.value.Sync? then (if pending.Some? then pending.value else goal, None)
    else (goal, Some(v))
  }

  predicate Steers(m: Option<HostMessage>, v: int) {
    m.Some? ==> m.value.Sync? || (IsInt32(v) && m.value == Rpdo1(Le(ToU32(v), 4)))
  }

  /** A target frame becomes pending and the SYNC after it makes the drive track it; a SYNC alone changes nothing. */
  lemma AimsStep(c: Core, goal: int, pending: Option<int>, m: HostMessage, v: int)
    requires IsNode(c.node) && Aims(c, goal, pending) && Steers(Some(m), v)
    ensures var (g, p) := Steer(goal, pending, Some(m), v); Aims(CoreExec(c, m), g, p)
  {
    hide Le, MapEntry;
    if m.Sync? {
      if pending.Some? { UnpackTarget(c, pending.value); }
    } else {
      UnpackTarget(c, v);
    }
  }

  /** Two target frames before one SYNC, as two joints with the same node id would cause: the later one wins. */
  lemma LaterTargetWins(c: Core, goal: int, u: int, v: int)
    requires IsNode(c.node) && Aims(c, goal, None) && IsInt32(u) && IsInt32(v)
    ensures var c' := CoreExec(CoreExec(CoreExec(c, Rpdo1(Le(ToU32(u), 4))), Rpdo1(Le(ToU32(v), 4))), Sync);
            Aims(c', v, None)
  {
    hide CoreExec, Le, Aims;
    var first, second := Rpdo1(Le(ToU32(u), 4)), Rpdo1(Le(ToU32(v), 4));
    AimsStep(c, goal, None, first, u);
    AimsStep(CoreExec(c, first), goal, Some(u), second, v);
    NodeStays(c, first);
    NodeStays(CoreExec(c, first), second);
    AimsStep(CoreExec(CoreExec(c, first), second), goal, Some(v), Sync, 0);
  }

  lemma NodeStays(c: Core, m: HostMessage)
    ensures CoreExec(c, m).node == c.node
  {
  }

  /**
   A drive in the cyclic phase; without a frame lost on the way to it since `base`, everything sent will be tracked.
   */
  predicate Cycling(l: Link, seed: int, commanded: set<int>, base: nat, goal: int, pending: Option<int>) {
    && Holds(l, seed, commanded) && base <= l.lost
    && (l.lost == base ==> Aims(Fold(l.drive.core, l.down), goal, pending))
  }

  /** Once everything has arrived, the drive's target is the goal. */
  lemma CyclingDrained(l: Link, seed: int, commanded: set<int>, base: nat, goal: int)
    requires Cycling(l, seed, commanded, base, goal, None) && l.lost == base && l.down == []
    ensures l.drive.core.target == goal && l.drive.core.nmt == Operational
  {
  }

  lemma RunKeepsCycling(n: nat, w: World, cs: seq<Choice>, mode: Listening,
                        seed: int, commanded: set<int>, base: nat, goal: int, pending: Option<int>)
    requires n in w.links && Cycling(w.links[n], seed, commanded, base, goal, pending)
    ensures n in Run(w, cs, mode).links && Cycling(Run(w, cs, mode).links[n], seed, commanded, base, goal, pending)
  {
    RunKeepsHolds(n, w, cs, mode, seed, commanded);
    RunDrifts(w, cs, mode);
    hide Holds, Aims, Run, Bit7Clear, NoSdo, AllInert, NoControl, Similar;
  }

  lemma {:induction false} FoldKeepsNode(c: Core, down: seq<Request>)
    ensures Fold(c, down).node == c.node
    decreases |down|
  {
    hide CoreExec;
    if down != [] { FoldKeepsNode(CoreExec(c, down[0].msg), down[1..]); }
  }

  lemma HoldsPush(l: Link, seed: int, commanded: set<int>, m: HostMessage, v: int, id: nat, epoch: nat)
    requires Holds(l, seed, commanded) && Steers(Some(m), v) && (m.Sync? || v in commanded)
    ensures Holds(Push(l, Some(m), id, epoch), seed, commanded)
  {
    hide Le, Configured;
    assert Cyclic(m, commanded);
    hide Cyclic;
  }

  lemma CyclingPush(l: Link, seed: int, commanded: set<int>, base: nat, goal: int, pending: Option<int>,
                    m: Option<HostMessage>, v: int, id: nat, epoch: nat)
    requires IsNode(l.drive.core.node) && Cycling(l, seed, commanded, base, goal, pending)
    requires Steers(m, v) && (m.Some? && !m.value.Sync? ==> v in commanded)
    ensures var (g, p) := Steer(goal, pending, m, v);
            && Cycling(Push(l, m, id, epoch), seed, commanded, base, g, p)
            && Cycling(Miss(l, m), seed, commanded, base, g, p)
  {
    hide Aims, Holds, CoreExec, Fold;
    if m.Some? {
      HoldsPush(l, seed, commanded, m.value, v, id, epoch);
      FoldAppend(l.drive.core, l.down, Request(id, epoch, m.value));
      FoldKeepsNode(l.drive.core, l.down);
      HoldsMiss(l, seed, commanded, m.value);
      if l.lost == base { AimsStep(Fold(l.drive.core, l.down), goal, pending, m.value, v); }
    }
  }

  lemma HoldsMiss(l: Link, seed: int, commanded: set<int>, m: HostMessage)
    requires Holds(l, seed, commanded)
    ensures Holds(Lost(l, m), seed, commanded)
  {
    hide Configured, CarriesOneOf;
  }

  // The feedback table as a function of what was received ----------------------------------------------------

  predicate IsMotion(m: DriveMessage) {
    m.Tpdo1? && |m.payload| == 8
  }

  /** Last position received for n, or seeded, since activation; 0 before the first. */
  function PositionOf(log: seq<RxEvent>, n: nat): int {
    if log == [] then 0
    else
      var e := log[|log| - 1];
      if e.node == n && e.Seeded? then e.counts
      else if e.node == n && e.Heard? && IsMotion(e.msg) then ToI32(WordOf(e.msg.payload[0..4]))
      else PositionOf(log[..|log| - 1], n)
  }

  function VelocityOf(log: seq<RxEvent>, n: nat): int {
    if log == [] then 0
    else
      var e := log[|log| - 1];
      if e.node == n && e.Heard? && IsMotion(e.msg) then ToI32(WordOf(e.msg.payload[4..8]))
      else VelocityOf(log[..|log| - 1], n)
  }

  function StatusOf(log: seq<RxEvent>, n: nat): Word16 {
    if log == [] then 0
    else
      var e := log[|log| - 1];
      if e.node == n && e.Heard? && e.msg.Tpdo2? && |e.msg.payload| >= 2 then HalfWordOf(e.msg.payload[0..2])
      else StatusOf(log[..|log| - 1], n)
  }

  function ErrorOf(log: seq<RxEvent>, n: nat): Word16 {
    if log == [] then 0
    else
      var e := log[|log| - 1];
      if e.node == n && e.Heard? && e.msg.Emcy? then e.msg.errorCode
      else ErrorOf(log[..|log| - 1], n)
  }

  /** Nothing under way can deliver a new position: no TPDO1 on its way and no SYNC to provoke one. */
  predicate Silent(l: Link) {
    && l.drive.core.tpdo1.transmission == SYNC_EVERY
    && (forall i :: 0 <= i < |l.up| ==> !l.up[i].msg.Tpdo1?)
    && (forall i :: 0 <= i < |l.down| ==>
                      !l.down[i].msg.Sync? && !(l.down[i].msg.SdoWrite? && l.down[i].msg.index == TPDO1_COMMUNICATION))
  }

  lemma ExecKeepsTransmission(c: Core, m: HostMessage)
    requires !(m.SdoWrite? && m.index == TPDO1_COMMUNICATION)
    ensures CoreExec(c, m).tpdo1.transmission == c.tpdo1.transmission
  {
  }

  lemma SilentStep(l: Link, e: Event)
    requires Silent(l)
    ensures Silent(LinkStep(l, e))
  {
    hide CoreExec, PowerExec, Answer, EmitTpdo1, EmitTpdo2, OnSync, IsSdo;
    if e.Deliver? {
      if l.down != [] { SilentDelivery(l); }
    } else {
      NoSdoInPdos(l.drive);
    }
  }

  lemma SilentDelivery(l: Link)
    requires Silent(l) && l.down != []
    ensures Silent(LinkStep(l, Deliver))
  {
    hide CoreExec, PowerExec, Answer, EmitTpdo1, EmitTpdo2, OnSync;
    ExecKeepsTransmission(l.drive.core, l.down[0].msg);
    NoAnswerToOthers(l.drive, l.down[0].msg);
  }

  /** A step that brings no TPDO1 of n leaves its position entry alone. */
  lemma PositionStays(w: World, w': World, c: Choice, n: nat)
    requires n in w.links && n in w'.links && SeenFrom(w, w', c, n)
    requires forall i :: 0 <= i < |w.links[n].up| ==> !w.links[n].up[i].msg.Tpdo1?
    ensures PositionOf(w'.log, n) == PositionOf(w.log, n)
  {
    hide LinkStep;
    if |w'.log| > 0 && w'.log != w.log { assert w'.log[..|w'.log| - 1] == w.log; }
  }

  lemma SilentSeen(w: World, w': World, c: Choice, n: nat)
    requires n in w.links && n in w'.links && SeenFrom(w, w', c, n) && Silent(w.links[n])
    ensures Silent(w'.links[n]) && PositionOf(w'.log, n) == PositionOf(w.log, n)
  {
    PositionStays(w, w', c, n);
    if c.At? { SilentStep(w.links[n], c.event); }
    hide LinkStep, PositionOf;
  }

  /** While a link is silent, the position entry of its drive does not change. */
  lemma {:induction false} RunKeepsSeed(n: nat, w: World, cs: seq<Choice>, mode: Listening, counts: int)
    requires n in w.links && Silent(w.links[n]) && PositionOf(w.log, n) == counts
    ensures var w' := Run(w, cs, mode);
            n in w'.links && Silent(w'.links[n]) && PositionOf(w'.log, n) == counts
  {
    if cs != [] {
      hide Step, StepCost, SeenFrom, Silent, PositionOf;
      var p, c := Run(w, cs[..|cs| - 1], mode), cs[|cs| - 1];
      RunKeepsSeed(n, w, cs[..|cs| - 1], mode, counts);
      StepKeepsNodes(p, c, mode);
      StepSeenFrom(p, c, mode, n);
      SilentSeen(p, Step(p, c, mode), c, n);
    }
  }

  // Drives that never saw the start command ------------------------------------------------------------------

  /** Nothing but target frames and SYNCs under way: the NMT state stays what it is. */
  predicate OnlySteered(l: Link) {
    forall i :: 0 <= i < |l.down| ==> l.down[i].msg.Rpdo1? || l.down[i].msg.Sync?
  }

  /** Pre-operational for good: target frames and SYNCs pass it by, and it sends no position. */
  predicate Stranded(l: Link, seed: int) {
    && l.drive.core.nmt == PreOperational && l.drive.core.target == seed
    && (forall i :: 0 <= i < |l.up| ==> !l.up[i].msg.Tpdo1?)
  }

  /** The NMT state of a drive in the cyclic phase is decided. */
  predicate Decided(l: Link, seed: int) {
    OnlySteered(l) && (Stranded(l, seed) || l.drive.core.nmt == Operational)
  }

  lemma SteeringExec(c: Core, m: HostMessage)
    requires m.Rpdo1? || m.Sync?
    ensures CoreExec(c, m).nmt == c.nmt && (c.nmt == PreOperational ==> CoreExec(c, m) == c)
  {
  }

  lemma DecidedStep(l: Link, seed: int, e: Event)
    requires Decided(l, seed)
    ensures Decided(LinkStep(l, e), seed) && LinkStep(l, e).drive.core.nmt == l.drive.core.nmt
  {
    hide CoreExec, PowerExec, Answer, EmitTpdo1, EmitTpdo2, OnSync, IsSdo;
    NoSdoInPdos(l.drive);
    if e.Deliver? && l.down != [] {
      SteeringExec(l.drive.core, l.down[0].msg);
      NoAnswerToOthers(l.drive, l.down[0].msg);
      StrandedSilence(Exec(l.drive, l.down[0].msg));
    }
  }

  lemma StrandedSilence(d: Drive)
    ensures d.core.nmt == PreOperational ==> OnSync(d) == []
  {
  }

  lemma DecidedSeen(w: World, w': World, c: Choice, n: nat, seed: int)
    requires n in w.links && n in w'.links && SeenFrom(w, w', c, n) && Decided(w.links[n], seed)
    ensures Decided(w'.links[n], seed) && w'.links[n].drive.core.nmt == w.links[n].drive.core.nmt
    ensures w.links[n].drive.core.nmt == PreOperational ==> PositionOf(w'.log, n) == PositionOf(w.log, n)
  {
    if w.links[n].drive.core.nmt == PreOperational { PositionStays(w, w', c, n); }
    if c.At? { DecidedStep(w.links[n], seed, c.event); }
    hide LinkStep, PositionOf;
  }

  /** Whatever happens, a stranded drive keeps its target, and its entry in the feedback table stays the seed. */
  lemma {:induction false} RunKeepsDecided(n: nat, w: World, cs: seq<Choice>, mode: Listening, seed: int)
    requires n in w.links && Decided(w.links[n], seed)
    ensures var w' := Run(w, cs, mode);
            && n in w'.links && Decided(w'.links[n], seed) && w'.links[n].drive.core.nmt == w.links[n].drive.core.nmt
            && (w.links[n].drive.core.nmt == PreOperational ==> PositionOf(w'.log, n) == PositionOf(w.log, n))
  {
    if cs != [] {
      hide Step, StepCost, SeenFrom, Decided, PositionOf;
      var p, c := Run(w, cs[..|cs| - 1], mode), cs[|cs| - 1];
      RunKeepsDecided(n, w, cs[..|cs| - 1], mode, seed);
      StepKeepsNodes(p, c, mode);
      StepSeenFrom(p, c, mode, n);
      DecidedSeen(p, Step(p, c, mode), c, n, seed);
    }
  }

  lemma DecidedPush(l: Link, seed: int, m: Option<HostMessage>, id: nat, epoch: nat)
    requires Decided(l, seed) && (m.Some? ==> m.value.Rpdo1? || m.value.Sync?)
    ensures Decided(Push(l, m, id, epoch), seed) && Decided(Miss(l, m), seed)
  {
  }

  // Shutting down --------------------------------------------------------------------------------------------

  /** Once what is under way has arrived, the drive is out of Operation Enabled and stays out. */
  predicate Stopping(l: Link) {
    && Live(l)
    && (|| (l.drive.power != OperationEnabled && forall i :: 0 <= i < |l.down| ==> !IsEnable(l.down[i].msg))
        || exists k :: 0 <= k < |l.down| && IsShutdown(l.down[k].msg) &&
                       forall i :: k <= i < |l.down| ==> !IsEnable(l.down[i].msg))
  }

  /** Not in the NMT state Stopped, nor will it be. */
  predicate Live(l: Link) {
    l.drive.core.nmt != Stopped && Obedient(l)
  }

  lemma ShutdownExec(d: Drive, m: HostMessage)
    ensures IsShutdown(m) && d.core.nmt != Stopped ==> Exec(d, m).power != OperationEnabled
    ensures IsShutdown(m) ==> !IsEnable(m) && IsControl(m)
    ensures d.core.nmt != Stopped && m != Nmt(0x02) ==> CoreExec(d.core, m).nmt != Stopped
  {
  }

  lemma LiveStep(l: Link, e: Event)
    requires Live(l)
    ensures Live(LinkStep(l, e))
  {
    if l.down != [] { ShutdownExec(l.drive, l.down[0].msg); }
    hide CoreExec, PowerExec, Answer, OnSync, EmitTpdo1, EmitTpdo2;
  }

  lemma StoppingStep(l: Link, e: Event)
    requires Stopping(l) && LinkStep(l, e).lost == l.lost
    ensures Stopping(LinkStep(l, e))
  {
    LiveStep(l, e);
    if l.down != [] && e.Deliver? {
      ShutdownExec(l.drive, l.down[0].msg);
      ExecKeepsPose(l.drive, l.down[0].msg);
      hide CoreExec, PowerExec, IsEnable, IsShutdown, Answer, OnSync, Live;
      var l' := LinkStep(l, e);
      if exists k :: 0 <= k < |l.down| && IsShutdown(l.down[k].msg) &&
                     forall i :: k <= i < |l.down| ==> !IsEnable(l.down[i].msg)
      {
        var k :| 0 <= k < |l.down| && IsShutdown(l.down[k].msg) &&
                 forall i :: k <= i < |l.down| ==> !IsEnable(l.down[i].msg);
        assert forall i :: 0 <= i < |l'.down| ==> l'.down[i] == l.down[i + 1];
        if k > 0 { assert IsShutdown(l'.down[k - 1].msg); }
      }
    }
    hide CoreExec, PowerExec, IsEnable, IsShutdown, Answer, OnSync, EmitTpdo1, EmitTpdo2, Live;
  }

  /** `base` frames had been lost when the shutdown went out; if it stays at that, the drive stops. */
  predicate Halting(l: Link, base: nat) {
    base <= l.lost && (l.lost == base ==> Stopping(l))
  }

  lemma {:induction false} RunKeepsHalting(n: nat, w: World, cs: seq<Choice>, mode: Listening, base: nat)
    requires n in w.links
    ensures var w' := Run(w, cs, mode);
            && n in w'.links && w.links[n].lost <= w'.links[n].lost
            && (Live(w.links[n]) ==> Live(w'.links[n]))
            && (Halting(w.links[n], base) ==> Halting(w'.links[n], base))
  {
    if cs != [] {
      var p, c := Run(w, cs[..|cs| - 1], mode), cs[|cs| - 1];
      RunKeepsHalting(n, w, cs[..|cs| - 1], mode, base);
      StepKeepsNodes(p, c, mode);
      StepSeenFrom(p, c, mode, n);
      if c.At? {
        StepKeepsDriveNode(p.links[n], c.event);
        if Live(p.links[n]) { LiveStep(p.links[n], c.event); }
        if Stopping(p.links[n]) && LinkStep(p.links[n], c.event).lost == p.links[n].lost {
          StoppingStep(p.links[n], c.event);
        }
      }
      hide LinkStep, Step, Live;
    }
  }

  /** The host has enabled this drive, or is about to. */
  predicate Raising(l: Link) {
    l.enables != [] || exists i :: 0 <= i < |l.down| && IsEnable(l.down[i].msg)
  }

  /** Only a drive that has reported its position is enabled, and such a drive is not stopped. */
  lemma WokenIsLive(n: nat, l: Link, s: Option<Stored>, next: nat)
    requires LinkOk(n, l, s, next)
    ensures Raising(l) ==> Woken(l)
    ensures Woken(l) ==> Live(l)
  {
    hide Ordered, PlainAcks, Rising, IsEnable;
  }

  lemma RaisingStep(l: Link, e: Event)
    ensures Raising(LinkStep(l, e)) ==> Raising(l)
  {
    if l.down != [] { ExecKeepsPose(l.drive, l.down[0].msg); }
    hide CoreExec, PowerExec, Answer, OnSync, EmitTpdo1, EmitTpdo2, IsEnable, IsReset;
  }

  lemma {:induction false} RunRaisesNone(n: nat, w: World, cs: seq<Choice>, mode: Listening)
    requires n in w.links
    ensures n in Run(w, cs, mode).links && (Raising(Run(w, cs, mode).links[n]) ==> Raising(w.links[n]))
  {
    if cs != [] {
      var p, c := Run(w, cs[..|cs| - 1], mode), cs[|cs| - 1];
      RunRaisesNone(n, w, cs[..|cs| - 1], mode);
      StepKeepsNodes(p, c, mode);
      StepSeenFrom(p, c, mode, n);
      if c.At? { RaisingStep(p.links[n], c.event); }
      hide LinkStep, Step, StepCost, IsEnable;
    }
  }

  /** When everything has arrived, the drive is not in Operation Enabled. */
  lemma StoppedWhenDrained(l: Link)
    requires Stopping(l) && l.down == []
    ensures l.drive.power != OperationEnabled
  {
  }

  /** The two frames deactivate() sends to each drive. */
  lemma ShutdownPush(l: Link, id: nat, epoch: nat)
    requires Live(l)
    ensures Stopping(Push(l, Some(SdoWrite(CONTROL_WORD, 0, SHUTDOWN, 2)), id, epoch))
  {
    var l' := Push(l, Some(SdoWrite(CONTROL_WORD, 0, SHUTDOWN, 2)), id, epoch);
    assert IsShutdown(l'.down[|l.down|].msg);
  }

  lemma PreOperationalPush(l: Link, id: nat, epoch: nat)
    requires Stopping(l)
    ensures Stopping(Push(l, Some(Nmt(NMT_PRE_OPERATIONAL)), id, epoch))
  {
    hide IsShutdown;
    var l' := Push(l, Some(Nmt(NMT_PRE_OPERATIONAL)), id, epoch);
    assert forall i :: 0 <= i < |l.down| ==> l'.down[i] == l.down[i];
  }
}
