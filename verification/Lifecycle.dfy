// All drives together: activation, steady operation, shutdown.

module Lifecycle {
  import opened Wrappers
  import opened PxxCan
  import opened Cia402Drive
  import opened CanNetwork
  import opened SdoTransactions
  import opened CyclicOperation
  import opened Sending
  import opened BringUp
  import opened CommandHistory

  // Frames nobody waits for ----------------------------------------------------------------------------------

  /** A frame that is no SDO request, or one about 6040h:0 as deactivate() sends it. */
  ghost predicate Unanswered(f: Frame) {
    forall k :: IsNode(k) && Decode(k, f).Some? && IsSdoRequest(Decode(k, f).value) ==>
                  IsControlKey(Decode(k, f).value.index, Decode(k, f).value.subindex)
  }

  lemma PostStale(w: World, f: Frame, ok: bool, id: nat, epoch: nat)
    requires WorldOk(w, id) && AllStale(w, id) && Unanswered(f)
    ensures ok ==> AllStale(Broadcast(w, f, id, epoch), id + 1)
    ensures !ok ==> AllStale(Failed(w, f), id)
  {
    var w' := Broadcast(w, f, id, epoch);
    WorldNodes(w, id);
    FailedStale(w, f, id);
    forall k | k in w'.links ensures StaleQueues(w'.links[k], w'.expired, id + 1) {
      hide StaleQueues, LinkOk, Decode, Push;
      var l := w.links[k];
      StaleLater(k, l, StoredFor(w, k), w.expired, id);
      if Decode(k, f).Some? { StalePush(k, l, StoredFor(w, k), Decode(k, f).value, w.expired, id, epoch); }
      else { PushNothing(l, id, epoch); }
    }
  }

  lemma PostCourse(w0: World, cs: seq<Choice>, w: World, f: Frame, ok: bool, id: nat, epoch: nat)
    requires WorldOk(w0, id) && AllStale(w0, id) && Unanswered(f)
    requires Posted(Run(w0, cs, All), w, f, ok, id, epoch)
    ensures WorldOk(Run(w0, cs, All), id) && AllStale(w, id + if ok then 1 else 0)
    ensures w0.trouble <= w.trouble
  {
    hide WorldOk, AllStale, Run, Unanswered, Broadcast, Failed;
    WorldOkRun(w0, id, cs, All);
    RunKeepsAllStale(w0, cs, All, id);
    RunTrouble(w0, cs, All);
    var mid := Run(w0, cs, All);
    PostStale(mid, f, ok, id, epoch);
    BroadcastTrouble(mid, f, id, epoch);
    FailedTrouble(mid, f);
  }

  /** Target frames and SYNC may always be sent, and wait for no answer. */
  lemma SteeringMaySend(w: World, f: Frame, epoch: nat, next: nat)
    requires WorldOk(w, next)
    requires forall k :: IsNode(k) && Decode(k, f).Some? ==> Decode(k, f).value.Rpdo1? || Decode(k, f).value.Sync?
    ensures MaySend(w, f, epoch) && Unanswered(f)
  {
    WorldNodes(w, next);
    hide WorldOk, Decode, Bit7Clear, ReadyToEnable;
  }

  lemma TargetSteers(n: nat, counts: int)
    requires IsNode(n)
    ensures forall k :: IsNode(k) && Decode(k, TargetPositionFrame(n, counts)).Some? ==>
                          Decode(k, TargetPositionFrame(n, counts)).value.Rpdo1?
  {
    hide Decode, TargetPositionFrame;
    forall k | IsNode(k) && Decode(k, TargetPositionFrame(n, counts)).Some?
      ensures Decode(k, TargetPositionFrame(n, counts)).value.Rpdo1?
    {
      TargetPositionDecodes(n, counts, k);
    }
  }

  lemma SyncSteers()
    ensures forall k :: IsNode(k) && Decode(k, SyncFrame()).Some? ==> Decode(k, SyncFrame()).value.Sync?
  {
    hide Decode, SyncFrame;
    forall k | IsNode(k) && Decode(k, SyncFrame()).Some? ensures Decode(k, SyncFrame()).value.Sync? {
      NmtAndSyncDecode(0, k, k);
    }
  }

  // Steady operation -----------------------------------------------------------------------------------------

  predicate AllSeeded(w: World, joints: seq<Joint>) {
    forall i :: 0 <= i < |joints| ==>
                  && joints[i].node in w.links && Silent(w.links[joints[i].node])
                  && PositionOf(w.log, joints[i].node) == joints[i].seed
  }

  /** Between the calls of an activation. */
  predicate Steady(w: World, joints: seq<Joint>, history: seq<seq<Command>>, next: nat) {
    && AllStale(w, next)
    && AllFollow(w.links, joints, history)
    && AllDecided(w, joints)
    && (history == [] ==> AllSeeded(w, joints))
  }

  /** Each drive is Operational, or pre-operational for good; then the table goes on holding its seed. */
  predicate AllDecided(w: World, joints: seq<Joint>) {
    forall i :: 0 <= i < |joints| ==> joints[i].node in w.links && IsDecided(w, joints[i])
  }

  predicate IsDecided(w: World, j: Joint)
    requires j.node in w.links
  {
    && Decided(w.links[j.node], j.seed)
    && (w.links[j.node].drive.core.nmt == PreOperational ==> PositionOf(w.log, j.node) == j.seed)
  }

  lemma DecidedRun(w: World, cs: seq<Choice>, mode: Listening, joints: seq<Joint>)
    requires AllDecided(w, joints)
    ensures AllDecided(Run(w, cs, mode), joints)
  {
    hide Run, Decided, PositionOf;
    forall i | 0 <= i < |joints|
      ensures joints[i].node in Run(w, cs, mode).links && IsDecided(Run(w, cs, mode), joints[i])
    {
      assert IsDecided(w, joints[i]);
      RunKeepsDecided(joints[i].node, w, cs, mode, joints[i].seed);
    }
  }

  /** Target frames and SYNCs decide nothing. */
  lemma DecidedPosted(mid: World, w: World, f: Frame, ok: bool, id: nat, epoch: nat, joints: seq<Joint>)
    requires AllDecided(mid, joints) && Posted(mid, w, f, ok, id, epoch) && Distinct(joints)
    requires forall k :: IsNode(k) && Decode(k, f).Some? ==> Decode(k, f).value.Rpdo1? || Decode(k, f).value.Sync?
    ensures AllDecided(w, joints)
  {
    hide Decided, PositionOf, Posted, Decode, Push, Miss;
    forall i | 0 <= i < |joints| ensures joints[i].node in w.links && IsDecided(w, joints[i]) {
      var n := joints[i].node;
      assert IsDecided(mid, joints[i]);
      PostedAt(mid, w, f, ok, id, epoch, n);
      DecidedPush(mid.links[n], joints[i].seed, Decode(n, f), id, epoch);
      SameNmt(mid.links[n], Decode(n, f), id, epoch);
    }
  }

  lemma SameNmt(l: Link, m: Option<HostMessage>, id: nat, epoch: nat)
    ensures Push(l, m, id, epoch).drive == l.drive && Miss(l, m).drive == l.drive
  {
  }

  lemma SeededRun(w: World, cs: seq<Choice>, mode: Listening, joints: seq<Joint>)
    requires AllSeeded(w, joints)
    ensures AllSeeded(Run(w, cs, mode), joints)
  {
    hide Run, Silent;
    forall i | 0 <= i < |joints|
      ensures joints[i].node in Run(w, cs, mode).links && Silent(Run(w, cs, mode).links[joints[i].node])
      ensures PositionOf(Run(w, cs, mode).log, joints[i].node) == joints[i].seed
    {
      RunKeepsSeed(joints[i].node, w, cs, mode, joints[i].seed);
    }
  }

  lemma SteadyRun(w: World, cs: seq<Choice>, mode: Listening, joints: seq<Joint>, history: seq<seq<Command>>, next: nat)
    requires WorldOk(w, next) && Steady(w, joints, history, next)
    ensures Steady(Run(w, cs, mode), joints, history, next)
  {
    hide WorldOk, AllStale, AllFollow, AllSeeded, AllDecided, Run;
    RunKeepsAllStale(w, cs, mode, next);
    FollowsRun(w, cs, mode, joints, history);
    DecidedRun(w, cs, mode, joints);
    if history == [] { SeededRun(w, cs, mode, joints); }
  }

  /** Before the first write the table holds the positions the drives were seeded with. */
  lemma SteadyPositions(w: World, joints: seq<Joint>, next: nat)
    requires Steady(w, joints, [], next)
    ensures forall i :: 0 <= i < |joints| ==> PositionOf(w.log, joints[i].node) == joints[i].seed
  {
    hide AllStale, AllFollow, Silent;
  }

  /** For a drive that never saw the start command the table goes on holding the seed. */
  lemma StrandedPositions(w: World, joints: seq<Joint>, history: seq<seq<Command>>, next: nat)
    requires Steady(w, joints, history, next)
    ensures AllDecided(w, joints)
    ensures forall i :: 0 <= i < |joints| && joints[i].node in w.links &&
                        w.links[joints[i].node].drive.core.nmt == PreOperational ==>
                          PositionOf(w.log, joints[i].node) == joints[i].seed
  {
    hide AllStale, AllFollow, AllSeeded, Decided, PositionOf;
  }

  /** Every drive of an activation listens to the shutdown that will end it. */
  lemma SteadyLive(w: World, joints: seq<Joint>, history: seq<seq<Command>>, next: nat)
    requires WorldOk(w, next) && Steady(w, joints, history, next)
    ensures forall i :: 0 <= i < |joints| ==> joints[i].node in w.links && Live(w.links[joints[i].node])
  {
    forall i | 0 <= i < |joints| ensures joints[i].node in w.links && Live(w.links[joints[i].node]) {
      assert Follows(w.links[joints[i].node], joints[i], history, |joints|, i);
      NodeIsObedient(w, next, joints[i].node);
      hide WorldOk, Aims, Fold, Configured, Obedient;
    }
  }

  // Rest -----------------------------------------------------------------------------------------------------

  predicate AllClear(links: map<nat, Link>, nodes: seq<nat>) {
    forall i :: 0 <= i < |nodes| ==> nodes[i] in links && Bit7Clear(links[nodes[i]])
  }

  /** Between activations. */
  predicate Resting(w: World, nodes: seq<nat>, next: nat) {
    AllStale(w, next) && AllClear(w.links, nodes)
  }

  lemma RestingRun(w: World, cs: seq<Choice>, mode: Listening, nodes: seq<nat>, next: nat)
    requires WorldOk(w, next) && Resting(w, nodes, next)
    ensures Resting(Run(w, cs, mode), nodes, next)
  {
    RunKeepsAllStale(w, cs, mode, next);
    RunDrifts(w, cs, mode);
    hide WorldOk, AllStale, Run, Bit7Clear, Fold, NoSdo, AllInert, NoControl, Similar;
  }

  lemma RestIsStale(w: World, nodes: seq<nat>, next: nat)
    requires Resting(w, nodes, next)
    ensures AllStale(w, next)
  {
  }

  lemma OpenIsStale(w: World, joints: seq<Joint>, history: seq<seq<Command>>, next: nat)
    requires Steady(w, joints, history, next)
    ensures AllStale(w, next)
  {
  }

  // Shutdown -------------------------------------------------------------------------------------------------

  /** Drive n since shutdown began in w0; `done` says its shutdown control word has been sent. */
  predicate Shut(w0: World, w: World, n: nat, done: bool) {
    && n in w0.links && n in w.links && w0.links[n].lost <= w.links[n].lost
    && (Live(w0.links[n]) ==> Live(w.links[n]))
    && (Raising(w.links[n]) ==> Raising(w0.links[n]))
    && (done ==> Bit7Clear(w.links[n]) && (Live(w0.links[n]) ==> Halting(w.links[n], w0.links[n].lost)))
  }

  predicate AllShut(w0: World, w: World, nodes: seq<nat>, k: nat) {
    Since(w0, w) &&
    forall i :: 0 <= i < |nodes| ==> Shut(w0, w, nodes[i], i < k)
  }

  lemma ShutRun(w0: World, w: World, cs: seq<Choice>, mode: Listening, nodes: seq<nat>, k: nat)
    requires AllShut(w0, w, nodes, k)
    ensures AllShut(w0, Run(w, cs, mode), nodes, k)
  {
    var w' := Run(w, cs, mode);
    RunDrifts(w, cs, mode);
    hide Run, Live, Halting, Bit7Clear, Raising, Since, Fold, NoSdo, AllInert, NoControl, Similar;
    RunSince(w, cs, mode);
    SinceTrans(w0, w, w');
    forall i | 0 <= i < |nodes| ensures Shut(w0, w', nodes[i], i < k) {
      assert Shut(w0, w, nodes[i], i < k);
      RunKeepsHalting(nodes[i], w, cs, mode, w0.links[nodes[i]].lost);
      RunRaisesNone(nodes[i], w, cs, mode);
    }
  }

  lemma ShutStarts(w: World, nodes: seq<nat>)
    requires forall i :: 0 <= i < |nodes| ==> nodes[i] in w.links
    ensures AllShut(w, w, nodes, 0)
  {
    SinceRefl(w);
    hide Live, Halting, Bit7Clear, Raising, Since;
  }

  lemma PostedSince(mid: World, w: World, f: Frame, ok: bool, id: nat, epoch: nat)
    requires Posted(mid, w, f, ok, id, epoch)
    ensures Since(mid, w) && FramesOf(w.trace) == FramesOf(mid.trace) + [f]
  {
    hide Decode, Push, Miss;
    assert |w.trace| == |mid.trace| + 1 && w.trace[..|w.trace| - 1] == mid.trace;
  }

  lemma RaisesNone(mid: Link, l: Link, m: Option<HostMessage>, ok: bool, id: nat, epoch: nat)
    requires Effect(mid, l, m, ok, id, epoch) && (m.Some? ==> !IsEnable(m.value))
    ensures Raising(l) ==> Raising(mid)
  {
    hide IsEnable;
  }

  lemma {:induction false} RunSendsNothing(w: World, cs: seq<Choice>, mode: Listening)
    ensures FramesOf(Run(w, cs, mode).trace) == FramesOf(w.trace)
  {
    if cs != [] {
      var p := Run(w, cs[..|cs| - 1], mode);
      RunSendsNothing(w, cs[..|cs| - 1], mode);
      StepAdds(p, cs[|cs| - 1], mode);
      hide Step;
      var t := Run(w, cs, mode).trace;
      assert t[..|t| - 1] == p.trace;
    }
  }

  lemma ShutdownAtLink(a: Link, mid: Link, l: Link, ok: bool, id: nat, epoch: nat)
    requires a.lost <= mid.lost && (Live(a) ==> Live(mid)) && Obedient(mid)
    requires Effect(mid, l, Some(SdoWrite(CONTROL_WORD, 0, SHUTDOWN, 2)), ok, id, epoch)
    ensures a.lost <= l.lost && (Live(a) ==> Live(l)) && Bit7Clear(l) && (Live(a) ==> Halting(l, a.lost))
  {
    var m := SdoWrite(CONTROL_WORD, 0, SHUTDOWN, 2);
    RisingAppend(mid.drive.core.bit7, mid.down, Request(id, epoch, m));
    if Live(mid) { ShutdownPush(mid, id, epoch); }
    assert IsShutdown(m) && !IsReset(m);
    hide Stopping, Armed, IsReset, IsShutdown;
  }

  lemma PreOperationalAtLink(a: Link, mid: Link, l: Link, ok: bool, id: nat, epoch: nat)
    requires a.lost <= mid.lost && (Live(a) ==> Live(mid)) && Bit7Clear(mid) && (Live(a) ==> Halting(mid, a.lost))
    requires Effect(mid, l, Some(Nmt(NMT_PRE_OPERATIONAL)), ok, id, epoch)
    ensures a.lost <= l.lost && (Live(a) ==> Live(l)) && Bit7Clear(l) && (Live(a) ==> Halting(l, a.lost))
  {
    var m := Nmt(NMT_PRE_OPERATIONAL);
    RisingAppend(mid.drive.core.bit7, mid.down, Request(id, epoch, m));
    if Stopping(mid) { PreOperationalPush(mid, id, epoch); }
    assert !IsShutdown(m) && !IsReset(m);
    hide Stopping, Armed, IsReset, IsShutdown;
  }

  lemma NodeIsObedient(w: World, next: nat, n: nat)
    requires WorldOk(w, next) && n in w.links
    ensures Obedient(w.links[n])
  {
  }

  lemma ShutdownForNode(n: nat)
    requires IsNode(n)
    ensures ForNodeOnly(SdoWriteFrame(n, CONTROL_WORD, 0, SHUTDOWN, 2), n, Control(SHUTDOWN)) &&
            !IsEnable(Control(SHUTDOWN))
  {
    Pow256Values();
    hide Pow256, ForNodeOnly, SdoWriteFrame;
    WriteForNode(n, CONTROL_WORD, 0, SHUTDOWN, 2);
  }

  lemma ForThisNode(f: Frame, n: nat, m: HostMessage, k: nat)
    requires ForNodeOnly(f, n, m) && IsNode(k)
    ensures Decode(k, f) == if k == n then Some(m) else None
  {
    hide Decode;
  }

  /** The two frames of deactivate() for node k. */
  lemma ShutdownPosted(w0: World, mid: World, w: World, nodes: seq<nat>, k: nat, ok: bool, id: nat, epoch: nat,
                       next: nat)
    requires AllShut(w0, mid, nodes, k) && k < |nodes| && WorldOk(mid, next) && DistinctNodes(nodes)
    requires Posted(mid, w, SdoWriteFrame(nodes[k], CONTROL_WORD, 0, SHUTDOWN, 2), ok, id, epoch)
    ensures AllShut(w0, w, nodes, k + 1)
  {
    var f := SdoWriteFrame(nodes[k], CONTROL_WORD, 0, SHUTDOWN, 2);
    ShutdownForNode(nodes[k]);
    hide Posted, Decode, SdoWriteFrame, Effect, WorldOk, Live, Halting, Bit7Clear, Obedient, Raising, Since, IsEnable;
    hide FramesOf, ForNodeOnly;
    PostedSince(mid, w, f, ok, id, epoch);
    SinceTrans(w0, mid, w);
    forall i | 0 <= i < |nodes| ensures Shut(w0, w, nodes[i], i < k + 1) {
      var n := nodes[i];
      assert Shut(w0, mid, n, i < k);
      PostedAt(mid, w, f, ok, id, epoch, n);
      NodeIsObedient(mid, next, n);
      ForThisNode(f, nodes[k], Control(SHUTDOWN), n);
      RaisesNone(mid.links[n], w.links[n], Decode(n, f), ok, id, epoch);
      if i == k { ShutdownAtLink(w0.links[n], mid.links[n], w.links[n], ok, id, epoch); }
    }
  }

  lemma PreOperationalPosted(w0: World, mid: World, w: World, nodes: seq<nat>, k: nat, ok: bool, id: nat, epoch: nat)
    requires AllShut(w0, mid, nodes, k + 1) && k < |nodes| && DistinctNodes(nodes)
    requires Posted(mid, w, NmtFrame(NMT_PRE_OPERATIONAL, nodes[k]), ok, id, epoch)
    ensures AllShut(w0, w, nodes, k + 1)
  {
    var f := NmtFrame(NMT_PRE_OPERATIONAL, nodes[k]);
    PostedSince(mid, w, f, ok, id, epoch);
    assert !IsEnable(Nmt(NMT_PRE_OPERATIONAL));
    hide Posted, Decode, NmtFrame, Effect, Live, Halting, Bit7Clear, Raising, Since, IsEnable;
    SinceTrans(w0, mid, w);
    forall i | 0 <= i < |nodes| ensures Shut(w0, w, nodes[i], i < k + 1) {
      var n := nodes[i];
      assert Shut(w0, mid, n, i < k + 1);
      PostedAt(mid, w, f, ok, id, epoch, n);
      NmtAndSyncDecode(NMT_PRE_OPERATIONAL, nodes[k], n);
      RaisesNone(mid.links[n], w.links[n], Decode(n, f), ok, id, epoch);
      if i == k { PreOperationalAtLink(w0.links[n], mid.links[n], w.links[n], ok, id, epoch); }
    }
  }

  predicate DistinctNodes(nodes: seq<nat>) {
    && (forall i :: 0 <= i < |nodes| ==> IsNode(nodes[i]))
    && (forall i, j :: 0 <= i < j < |nodes| ==> nodes[i] != nodes[j])
  }

  lemma ShutIsClear(w0: World, w: World, nodes: seq<nat>)
    requires AllShut(w0, w, nodes, |nodes|)
    ensures AllClear(w.links, nodes)
    ensures AllHalting(w0, w, nodes) && Since(w0, w)
  {
    hide Live, Halting, Bit7Clear, Raising, Since;
    forall i | 0 <= i < |nodes|
      ensures nodes[i] in w.links && Bit7Clear(w.links[nodes[i]])
      ensures nodes[i] in w0.links && IsHalting(w0.links[nodes[i]], w.links[nodes[i]])
    {
      assert Shut(w0, w, nodes[i], i < |nodes|);
    }
  }

  // Activation -----------------------------------------------------------------------------------------------

  /** A configured drive of the current activation. */
  predicate Raised(w: World, j: Joint, epoch: nat) {
    && j.node in w.links
    && var l := w.links[j.node];
    && Quiet(l) && Configured(l.drive.core) && l.drive.core.buffer == None && l.drive.core.nmt != Stopped
    && ReadyToEnable(l, epoch) && l.drive.core.target == j.seed
    && Silent(l) && PositionOf(w.log, j.node) == j.seed
    && j.base <= l.lost && (l.lost == j.base ==> l.drive.core.nmt == Operational)
  }

  lemma RaisedFrom(w1: World, w2: World, j: Joint, epoch: nat)
    requires BroughtUp(w1, w2, j.node, epoch) && j.seed == w2.links[j.node].drive.core.target
    requires j.base <= w1.links[j.node].lost
    ensures Raised(w2, j, epoch)
  {
    hide Silent, Configured;
  }

  lemma RaisedKept(w1: World, w2: World, j: Joint, epoch: nat)
    requires Raised(w1, j, epoch) && Kept(w1, w2, j.node)
    ensures Raised(w2, j, epoch)
  {
    hide Silent, Configured, Fold, Bit7Clear, Similar, NoControl, AllInert;
  }

  /** Without trouble since w0, a fit drive now is enabled; the fault it may have had was clearable. */
  predicate Smooth(w0: World, w: World, n: nat) {
    && n in w0.links && n in w.links
    && (w.trouble == w0.trouble && Fit(w0.links[n]) ==>
          && Enableable(w0.links[n])
          && w.links[n].drive.power == OperationEnabled && w.links[n].drive.core.nmt == Operational)
  }

  lemma {:induction false} HoldsFold(c: Core, down: seq<Request>, seed: int, commanded: set<int>)
    requires Configured(c) && c.nmt != Stopped && (c.target == seed || c.target in commanded)
    requires c.buffer.Some? ==> CarriesOneOf(c.buffer.value, commanded)
    requires forall i :: 0 <= i < |down| ==> Cyclic(down[i].msg, commanded)
    ensures Configured(Fold(c, down))
    decreases |down|
  {
    hide Configured, CarriesOneOf, Cyclic;
    if down != [] {
      CyclicExec(c, down[0].msg, seed, commanded);
      hide CoreExec;
      HoldsFold(CoreExec(c, down[0].msg), down[1..], seed, commanded);
    }
  }

  /**
   After a cyclic phase every settled drive is fit, whatever target frames, SYNCs and shutdown frames are under way.
   */
  lemma FitAfterCyclicPhase(l: Link, seed: int, commanded: set<int>)
    requires Holds(l, seed, commanded) && Settled(l.drive.power)
    ensures Fit(l)
  {
    HoldsFold(l.drive.core, l.down, seed, commanded);
    ConfiguredIsPredefined(Fold(l.drive.core, l.down));
    hide Fold, Configured;
  }

  lemma FitKept(w0: World, w1: World, n: nat)
    requires Kept(w0, w1, n) && w1.trouble == w0.trouble && Fit(w0.links[n])
    ensures Fit(w1.links[n]) && (Enableable(w1.links[n]) <==> Enableable(w0.links[n]))
  {
    hide Silent, Fold, Bit7Clear, AllInert, Ahead, NoControl, NoSdo;
  }

  lemma SmoothFrom(w0: World, w1: World, w2: World, n: nat, epoch: nat, ok: bool)
    requires Kept(w0, w1, n) && NodeOutcome(w1, w2, n, epoch, ok)
    ensures ok ==> Smooth(w0, w2, n)
    ensures !ok ==> (w2.trouble == w0.trouble && Fit(w0.links[n]) ==> !Enableable(w0.links[n]))
    ensures w0.trouble <= w2.trouble
  {
    KeptTrouble(w0, w1, n);
    hide Kept, BroughtUp, Fit, Enableable;
    assert w1.trouble <= w2.trouble;
    if w2.trouble == w0.trouble && Fit(w0.links[n]) { FitKept(w0, w1, n); }
  }

  lemma KeptTrouble(w0: World, w1: World, n: nat)
    requires Kept(w0, w1, n)
    ensures w0.trouble <= w1.trouble && n in w0.links && n in w1.links && w0.links[n].lost <= w1.links[n].lost
    ensures Bit7Clear(w0.links[n]) ==> Bit7Clear(w1.links[n])
  {
    hide Silent, Fold, Bit7Clear, Similar, NoControl, AllInert;
  }

  lemma SmoothKept(w0: World, w1: World, w2: World, j: Joint, epoch: nat)
    requires Smooth(w0, w1, j.node) && Raised(w1, j, epoch) && Kept(w1, w2, j.node) && w0.trouble <= w1.trouble
    ensures Smooth(w0, w2, j.node)
  {
    hide Silent, Fold, Bit7Clear, Similar, AllInert, Configured, Fit, Enableable;
    assert w1.trouble <= w2.trouble;
  }

  /** Activation after k drives. */
  predicate Activating(w0: World, w: World, nodes: seq<nat>, joints: seq<Joint>, epoch: nat) {
    && |joints| <= |nodes| && w0.trouble <= w.trouble && w.links.Keys == w0.links.Keys
    && Since(w0, w) && AllOnward(w0, w)
    && (forall i :: 0 <= i < |joints| ==>
                      && joints[i].node == nodes[i] && Raised(w, joints[i], epoch) && Smooth(w0, w, nodes[i]))
    && (forall i :: |joints| <= i < |nodes| ==> Kept(w0, w, nodes[i]))
  }

  lemma ActivationStarts(w: World, nodes: seq<nat>, epoch: nat)
    requires forall i :: 0 <= i < |nodes| ==> nodes[i] in w.links
    ensures Activating(w, w, nodes, [], epoch)
  {
    SinceRefl(w);
    forall i | 0 <= i < |nodes| ensures Kept(w, w, nodes[i]) {
      DriftRefl(w.links[nodes[i]], w.trouble);
      hide Drift, Silent;
    }
  }

  lemma ActivationStep(w0: World, w1: World, w2: World, nodes: seq<nat>, joints: seq<Joint>, j: Joint, epoch: nat)
    requires DistinctNodes(nodes) && Activating(w0, w1, nodes, joints, epoch) && |joints| < |nodes|
    requires j.node == nodes[|joints|] && NodeOutcome(w1, w2, j.node, epoch, true)
    requires j.seed == w2.links[j.node].drive.core.target && j.base == w0.links[j.node].lost
    ensures Activating(w0, w2, nodes, joints + [j], epoch)
  {
    hide Kept, Smooth, Raised, BroughtUp, Converges, Since, Live;
    var js := joints + [j];
    var n := j.node;
    SinceTrans(w0, w1, w2);
    KeptTrouble(w0, w1, n);
    SmoothFrom(w0, w1, w2, n, epoch, true);
    RaisedFrom(w1, w2, j, epoch);
    forall i | 0 <= i < |js| ensures js[i].node == nodes[i] && Raised(w2, js[i], epoch) && Smooth(w0, w2, nodes[i]) {
      if i < |joints| {
        RaisedHere(w1, js[i], epoch);
        assert Kept(w1, w2, nodes[i]);
        RaisedKept(w1, w2, js[i], epoch);
        SmoothKept(w0, w1, w2, js[i], epoch);
      }
    }
    forall i | |js| <= i < |nodes| ensures Kept(w0, w2, nodes[i]) {
      KeptHere(w0, w1, nodes[i]);
      KeptTrans(w0, w1, w2, nodes[i]);
    }
  }

  lemma RaisedHere(w: World, j: Joint, epoch: nat)
    requires Raised(w, j, epoch)
    ensures j.node in w.links
  {
  }

  lemma KeptHere(w0: World, w1: World, n: nat)
    requires Kept(w0, w1, n)
    ensures n in w0.links && n in w1.links
  {
  }

  /** A drive about to be configured is as activation found it, give or take the environment. */
  lemma NextIsClear(w0: World, w1: World, nodes: seq<nat>, joints: seq<Joint>, epoch: nat)
    requires Activating(w0, w1, nodes, joints, epoch) && |joints| < |nodes| && AllClear(w0.links, nodes)
    ensures Bit7Clear(w1.links[nodes[|joints|]]) && nodes[|joints|] in w1.links && nodes[|joints|] in w0.links
  {
    hide Smooth, Raised, Kept, Bit7Clear;
    KeptTrouble(w0, w1, nodes[|joints|]);
  }

  /** With every drive configured, the cyclic phase can begin. */
  lemma AllRaised(w0: World, w: World, nodes: seq<nat>, joints: seq<Joint>, epoch: nat)
    requires Activating(w0, w, nodes, joints, epoch) && |joints| == |nodes|
    ensures AllFollow(w.links, joints, []) && AllSeeded(w, joints) && AllDecided(w, joints)
  {
    hide Smooth, Kept, Raised, AllOnward, Since;
    forall i | 0 <= i < |joints|
      ensures joints[i].node in w.links && Follows(w.links[joints[i].node], joints[i], [], |joints|, i)
      ensures IsDecided(w, joints[i])
      ensures Silent(w.links[joints[i].node]) && PositionOf(w.log, joints[i].node) == joints[i].seed
    {
      RaisedFollows(w, joints[i], epoch, |joints|, i);
    }
    hide Follows, Silent, IsDecided;
  }

  lemma RaisedFollows(w: World, j: Joint, epoch: nat, n: nat, i: nat)
    requires Raised(w, j, epoch) && i < n
    ensures j.node in w.links && Follows(w.links[j.node], j, [], n, i)
    ensures Silent(w.links[j.node]) && PositionOf(w.log, j.node) == j.seed && IsDecided(w, j)
  {
    hide Configured, PositionOf;
    assert Fold(w.links[j.node].drive.core, []) == w.links[j.node].drive.core;
  }

  /** Without any trouble activation succeeds exactly when no drive has a fault it cannot clear. */
  predicate AllConverge(w0: World, w: World, nodes: seq<nat>, ok: bool) {
    && (forall i :: 0 <= i < |nodes| ==> nodes[i] in w0.links && nodes[i] in w.links)
    && (w.trouble == w0.trouble && (forall i :: 0 <= i < |nodes| ==> Fit(w0.links[nodes[i]])) ==>
          && (ok <==> forall i :: 0 <= i < |nodes| ==> Enableable(w0.links[nodes[i]]))
          && (ok ==> forall i :: 0 <= i < |nodes| ==>
                       && w.links[nodes[i]].drive.power == OperationEnabled
                       && w.links[nodes[i]].drive.core.nmt == Operational))
  }

  lemma AllSmooth(w0: World, w: World, nodes: seq<nat>, joints: seq<Joint>, epoch: nat)
    requires Activating(w0, w, nodes, joints, epoch) && |joints| == |nodes|
    ensures AllConverge(w0, w, nodes, true)
  {
    forall i | 0 <= i < |nodes| ensures Smooth(w0, w, nodes[i]) {
      assert joints[i].node == nodes[i];
    }
    hide Kept, Raised, Fit, Enableable;
  }

  /** After shutdown without further loss to a drive, it is out of Operation Enabled once the frames have arrived. */
  lemma HaltsForGood(w0: World, w: World, nodes: seq<nat>, i: nat, cs: seq<Choice>, mode: Listening)
    requires AllHalting(w0, w, nodes) && i < |nodes| && Live(w0.links[nodes[i]])
    ensures var n := nodes[i];
            var w' := Run(w, cs, mode);
            n in w'.links &&
            var l := w'.links[n];
            (l.lost == w0.links[n].lost && l.down == [] ==> l.drive.power != OperationEnabled)
  {
    hide Run, Live, Raising;
    assert IsHalting(w0.links[nodes[i]], w.links[nodes[i]]);
    RunKeepsHalting(nodes[i], w, cs, mode, w0.links[nodes[i]].lost);
    var l := Run(w, cs, mode).links[nodes[i]];
    if l.lost == w0.links[nodes[i]].lost && l.down == [] { StoppedWhenDrained(l); }
  }

  /** What shutting down from w0 leads to, drive by drive. */
  predicate AllHalting(w0: World, w: World, nodes: seq<nat>) {
    forall i :: 0 <= i < |nodes| ==>
                  nodes[i] in w0.links && nodes[i] in w.links && IsHalting(w0.links[nodes[i]], w.links[nodes[i]])
  }

  /** From a to l a shutdown word went out: a live drive stops unless a frame was lost, and none is raised any more. */
  predicate IsHalting(a: Link, l: Link) {
    a.lost <= l.lost && (Live(a) ==> Halting(l, a.lost)) && (Raising(l) ==> Raising(a))
  }

  lemma HaltingRun(w0: World, w: World, cs: seq<Choice>, mode: Listening, nodes: seq<nat>)
    requires AllHalting(w0, w, nodes)
    ensures AllHalting(w0, Run(w, cs, mode), nodes)
  {
    hide Run, Live, Halting, Raising;
    forall i | 0 <= i < |nodes|
      ensures nodes[i] in Run(w, cs, mode).links && IsHalting(w0.links[nodes[i]], Run(w, cs, mode).links[nodes[i]])
    {
      assert IsHalting(w0.links[nodes[i]], w.links[nodes[i]]);
      RunKeepsHalting(nodes[i], w, cs, mode, w0.links[nodes[i]].lost);
      RunRaisesNone(nodes[i], w, cs, mode);
    }
  }

  // After a shutdown -----------------------------------------------------------------------------------------

  /**
   At rest. Before the first shutdown nothing was ever enabled. Afterwards, the frames handed to the socket since the
   last shutdown began, at the mark, are exactly its shutdown frames; every drive the host has ever had report or move
   was listening at the mark, and has been halting since.
   */
  predicate Retired(origin: World, w: World, nodes: seq<nat>, mark: Option<nat>)
    requires DistinctNodes(nodes)
  {
    match mark
    case None => forall i :: 0 <= i < |nodes| ==> nodes[i] in w.links && !Raising(w.links[nodes[i]])
    case Some(k) =>
      && k <= |w.trace|
      && FramesOf(w.trace) == FramesOf(w.trace[..k]) + ShutdownFrames(nodes, |nodes|)
      && var before := Replay(origin, w.trace[..k]);
      && AllHalting(before, w, nodes)
      && forall i :: 0 <= i < |nodes| ==> WasLive(before.links[nodes[i]])
  }

  predicate WasLive(l: Link) {
    Woken(l) || Raising(l) ==> Live(l)
  }

  lemma RetiredRun(origin: World, w: World, nodes: seq<nat>, mark: Option<nat>, cs: seq<Choice>, mode: Listening)
    requires DistinctNodes(nodes) && Retired(origin, w, nodes, mark)
    ensures Retired(origin, Run(w, cs, mode), nodes, mark)
  {
    hide Run, Raising, Replay, IsHalting, WasLive, ShutdownFrames, FramesOf, DistinctNodes;
    var w' := Run(w, cs, mode);
    if mark.Some? {
      RunSince(w, cs, mode);
      RunSendsNothing(w, cs, mode);
      assert w'.trace[..mark.value] == w.trace[..|w.trace|][..mark.value] == w.trace[..mark.value];
      HaltingRun(Replay(origin, w.trace[..mark.value]), w, cs, mode, nodes);
    } else {
      forall i | 0 <= i < |nodes| ensures nodes[i] in w'.links && !Raising(w'.links[nodes[i]]) {
        RunRaisesNone(nodes[i], w, cs, mode);
      }
    }
  }

  lemma RetiredBy(origin: World, w0: World, w: World, nodes: seq<nat>, next: nat)
    requires DistinctNodes(nodes) && WorldOk(w0, next) && w0 == Replay(origin, w0.trace)
    requires AllHalting(w0, w, nodes) && Since(w0, w)
    requires FramesOf(w.trace) == FramesOf(w0.trace) + ShutdownFrames(nodes, |nodes|)
    ensures Retired(origin, w, nodes, Some(|w0.trace|))
  {
    hide Replay, IsHalting, ShutdownFrames, FramesOf, LinkOk, Live, Raising, Woken, DistinctNodes;
    forall i | 0 <= i < |nodes| ensures WasLive(w0.links[nodes[i]]) {
      WokenIsLive(nodes[i], w0.links[nodes[i]], StoredFor(w0, nodes[i]), next);
    }
  }

  /**
   Every drive that was listening at the mark, so every one that had reported its position by then or was ever enabled
   by the host: halting since, and out of Operation Enabled if no frame was lost and all have arrived.
   */
  lemma RetiredStops(origin: World, w: World, nodes: seq<nat>, mark: Option<nat>, i: nat)
    requires DistinctNodes(nodes) && Retired(origin, w, nodes, mark) && i < |nodes|
    ensures nodes[i] in w.links && (mark.None? ==> w.links[nodes[i]].enables == [])
    ensures mark.Some? ==>
              && mark.value <= |w.trace|
              && var before, l := Replay(origin, w.trace[..mark.value]), w.links[nodes[i]];
              && nodes[i] in before.links && before.links[nodes[i]].lost <= l.lost
              && (Woken(before.links[nodes[i]]) || l.enables != [] ==> Live(before.links[nodes[i]]))
              && (Live(before.links[nodes[i]]) && l.lost == before.links[nodes[i]].lost && l.down == [] ==>
                    l.drive.power != OperationEnabled)
  {
    hide Replay, ShutdownFrames, FramesOf, Live, DistinctNodes, Stopping;
    var l := w.links[nodes[i]];
    assert l.enables != [] ==> Raising(l);
    if mark.Some? {
      var a := Replay(origin, w.trace[..mark.value]).links[nodes[i]];
      assert IsHalting(a, l) && WasLive(a);
      if Live(a) && l.lost == a.lost && l.down == [] { StoppedWhenDrained(l); }
    }
  }

  function ShutdownFrames(nodes: seq<nat>, k: nat): seq<Frame>
    requires k <= |nodes| && forall i :: 0 <= i < |nodes| ==> IsNode(nodes[i])
  {
    if k == 0 then []
    else
      ShutdownFrames(nodes, k - 1) +
      [SdoWriteFrame(nodes[k - 1], CONTROL_WORD, 0, SHUTDOWN, 2), NmtFrame(NMT_PRE_OPERATIONAL, nodes[k - 1])]
  }

  /** Each drive's share of the shutdown frames. */
  lemma ShutdownBytes(nodes: seq<nat>, k: nat)
    requires k < |nodes| && forall i :: 0 <= i < |nodes| ==> IsNode(nodes[i])
    ensures ShutdownFrames(nodes, k + 1) == ShutdownFrames(nodes, k) +
            [Frame(0x600 + nodes[k], false, 8, [0x2b, 0x40, 0x60, 0x00, 0x06, 0x00, 0x00, 0x00]),
             Frame(0x000, false, 2, [0x80, nodes[k], 0x00, 0x00, 0x00, 0x00, 0x00, 0x00])]
  {
    TwoBytes(0x6040);
    TwoBytes(0x0006);
    hide Le;
    assert SdoWriteFrame(nodes[k], CONTROL_WORD, 0, SHUTDOWN, 2).data ==
           [0x2b, 0x40, 0x60, 0x00, 0x06, 0x00, 0x00, 0x00];
  }

  lemma ShutdownMaySend(w: World, n: nat, epoch: nat, next: nat)
    requires WorldOk(w, next) && n in w.links
    ensures MaySend(w, SdoWriteFrame(n, CONTROL_WORD, 0, SHUTDOWN, 2), epoch)
    ensures Unanswered(SdoWriteFrame(n, CONTROL_WORD, 0, SHUTDOWN, 2))
    ensures SdoWriteFrame(n, CONTROL_WORD, 0, SHUTDOWN, 2).length <= 8
  {
    WorldNodes(w, next);
    Pow256Values();
    WriteForNode(n, CONTROL_WORD, 0, SHUTDOWN, 2);
    ControlMayPush(w.links[n], SHUTDOWN, epoch);
    assert SdoWriteFrame(n, CONTROL_WORD, 0, SHUTDOWN, 2).length <= 8;
    hide Decode, WorldOk, MayPush, SdoWriteFrame, Pow256;
    MaySendToOne(w, SdoWriteFrame(n, CONTROL_WORD, 0, SHUTDOWN, 2), n, Control(SHUTDOWN), epoch, next);
  }

  lemma PreOperationalMaySend(w: World, n: nat, epoch: nat, next: nat)
    requires WorldOk(w, next) && n in w.links
    ensures MaySend(w, NmtFrame(NMT_PRE_OPERATIONAL, n), epoch) && Unanswered(NmtFrame(NMT_PRE_OPERATIONAL, n))
    ensures NmtFrame(NMT_PRE_OPERATIONAL, n).length <= 8
  {
    WorldNodes(w, next);
    NmtForNode(n, NMT_PRE_OPERATIONAL);
    NmtMayPush(w.links[n], NMT_PRE_OPERATIONAL, epoch);
    assert NmtFrame(NMT_PRE_OPERATIONAL, n).length <= 8;
    hide Decode, WorldOk, MayPush, NmtFrame;
    MaySendToOne(w, NmtFrame(NMT_PRE_OPERATIONAL, n), n, Nmt(NMT_PRE_OPERATIONAL), epoch, next);
  }

  // Whether the start commands arrived -----------------------------------------------------------------------

  /**
   Happening number `start` - 1 was the NMT start to drive n going out, and `from` happenings preceded it. The drive is
   Operational if no frame to it has been lost since; otherwise exactly that one was, and the drive is pre-operational.
   */
  predicate StartFate(origin: World, w: World, n: nat, from: nat, start: nat)
    requires IsNode(n)
  {
    && from < start <= |w.trace| && w.trace[start - 1].Sent? && w.trace[start - 1].frame == NmtFrame(NMT_START, n)
    && var sent := Replay(origin, w.trace[..start]);
    && n in sent.links && n in w.links
    && var base, l := sent.links[n].lost, w.links[n];
    && (l.drive.core.nmt == Operational <==> l.lost == base)
    && (l.drive.core.nmt != Operational ==> l.drive.core.nmt == PreOperational && l.lost == base + 1)
  }

  predicate StartFates(origin: World, w: World, nodes: seq<nat>, from: nat, starts: seq<nat>) {
    |starts| == |nodes| &&
    forall i :: 0 <= i < |nodes| ==> IsNode(nodes[i]) && StartFate(origin, w, nodes[i], from, starts[i])
  }

  lemma NoFates(origin: World, w: World, nodes: seq<nat>, from: nat)
    ensures StartFates(origin, w, nodes[..0], from, [])
  {
  }

  lemma FatesEarlier(origin: World, w: World, nodes: seq<nat>, from: nat, later: nat, starts: seq<nat>)
    requires StartFates(origin, w, nodes, later, starts) && from <= later
    ensures StartFates(origin, w, nodes, from, starts)
  {
    hide Replay, NmtFrame;
    forall i | 0 <= i < |nodes| ensures StartFate(origin, w, nodes[i], from, starts[i]) {
      assert StartFate(origin, w, nodes[i], later, starts[i]);
    }
    hide StartFate;
  }

  /** With nothing under way to it, what happens to others settles nothing for this drive. */
  lemma FateKept(origin: World, w1: World, w2: World, n: nat, from: nat, start: nat)
    requires IsNode(n) && StartFate(origin, w1, n, from, start)
    requires Since(w1, w2) && Kept(w1, w2, n) && Quiet(w1.links[n])
    ensures StartFate(origin, w2, n, from, start)
  {
    assert w2.trace[..start] == w2.trace[..|w1.trace|][..start] == w1.trace[..start];
    assert w2.trace[start - 1] == w2.trace[..|w1.trace|][start - 1];
    hide Replay, NmtFrame, Silent, Loosely, PositionOf, NoSdo;
  }

  lemma FatesStep(origin: World, w0: World, w1: World, w2: World, nodes: seq<nat>, joints: seq<Joint>, epoch: nat,
                  starts: seq<nat>, start: nat)
    requires DistinctNodes(nodes) && Activating(w0, w1, nodes, joints, epoch) && |joints| < |nodes|
    requires NodeOutcome(w1, w2, nodes[|joints|], epoch, true)
    requires StartFates(origin, w1, nodes[..|joints|], |w0.trace|, starts)
    requires StartFate(origin, w2, nodes[|joints|], |w1.trace|, start)
    ensures StartFates(origin, w2, nodes[..|joints| + 1], |w0.trace|, starts + [start])
  {
    hide Replay, Kept, Raised, Smooth, StartFate, BroughtUp, Converges, Since, AllOnward;
    var k := |joints|;
    ActivatingLength(w0, w1, nodes, joints, epoch);
    forall i | 0 <= i < k + 1 ensures StartFate(origin, w2, nodes[i], |w0.trace|, (starts + [start])[i]) {
      if i < k {
        assert nodes[..k][i] == nodes[i] && joints[i].node == nodes[i];
        RaisedQuiet(w1, joints[i], epoch);
        FateKept(origin, w1, w2, nodes[i], |w0.trace|, starts[i]);
      } else {
        FateEarlier(origin, w2, nodes[k], |w0.trace|, |w1.trace|, start);
      }
    }
  }

  lemma RaisedQuiet(w: World, j: Joint, epoch: nat)
    requires Raised(w, j, epoch)
    ensures j.node in w.links && Quiet(w.links[j.node])
  {
    hide Silent, Configured, Quiet;
  }

  lemma FateEarlier(origin: World, w: World, n: nat, from: nat, later: nat, start: nat)
    requires IsNode(n) && StartFate(origin, w, n, later, start) && from <= later
    ensures StartFate(origin, w, n, from, start)
  {
    hide Replay, NmtFrame;
  }

  // When activation fails ------------------------------------------------------------------------------------

  predicate ConvergeFails(w0: World, w: World, nodes: seq<nat>) {
    && w0.trouble <= w.trouble && Since(w0, w) && AllOnward(w0, w)
    && (forall i :: 0 <= i < |nodes| ==> nodes[i] in w0.links)
    && (w.trouble == w0.trouble && (forall i :: 0 <= i < |nodes| ==> Fit(w0.links[nodes[i]])) ==>
          exists i :: 0 <= i < |nodes| && !Enableable(w0.links[nodes[i]]))
  }

  lemma FailsWith(w0: World, w1: World, w2: World, nodes: seq<nat>, joints: seq<Joint>, epoch: nat)
    requires Activating(w0, w1, nodes, joints, epoch) && |joints| < |nodes|
    requires NodeOutcome(w1, w2, nodes[|joints|], epoch, false)
    requires forall i :: 0 <= i < |nodes| ==> nodes[i] in w0.links
    ensures ConvergeFails(w0, w2, nodes)
  {
    hide Kept, Raised, Smooth, Fit, Enableable, NodeOutcome, Since, AllOnward;
    var n := nodes[|joints|];
    KeptHere(w0, w1, n);
    SmoothFrom(w0, w1, w2, n, epoch, false);
    OutcomeSince(w1, w2, n, epoch, false);
    SinceTrans(w0, w1, w2);
    OnwardTrans(w0, w1, w2);
    if w2.trouble == w0.trouble && Fit(w0.links[n]) { assert !Enableable(w0.links[nodes[|joints|]]); }
  }

  lemma OutcomeSince(w0: World, w: World, n: nat, epoch: nat, ok: bool)
    requires NodeOutcome(w0, w, n, epoch, ok)
    ensures Since(w0, w) && AllOnward(w0, w)
  {
    hide Kept, Since, BroughtUp, Converges, Onward;
  }

  lemma OnwardTrans(a: World, b: World, c: World)
    requires AllOnward(a, b) && AllOnward(b, c)
    ensures AllOnward(a, c)
  {
    hide Live;
  }

  lemma StillFails(w0: World, w1: World, w2: World, nodes: seq<nat>)
    requires ConvergeFails(w0, w1, nodes) && w1.trouble <= w2.trouble
    requires forall i :: 0 <= i < |nodes| ==> nodes[i] in w2.links
    ensures AllConverge(w0, w2, nodes, false)
  {
    hide Fit, Enableable;
  }

  /** No drive stands in the way of activation. */
  predicate AllAble(links: map<nat, Link>, nodes: seq<nat>) {
    forall i :: 0 <= i < |nodes| ==> nodes[i] in links && Fit(links[nodes[i]]) && Enableable(links[nodes[i]])
  }

  lemma AbleFailsOnTrouble(w0: World, w: World, nodes: seq<nat>)
    requires AllConverge(w0, w, nodes, false) && AllAble(w0.links, nodes)
    ensures w.trouble != w0.trouble
  {
    hide Fit, Enableable;
  }

  lemma ActivatingLength(w0: World, w: World, nodes: seq<nat>, joints: seq<Joint>, epoch: nat)
    requires Activating(w0, w, nodes, joints, epoch)
    ensures |w0.trace| <= |w.trace|
  {
    hide AllOnward, Kept, Raised, Smooth;
  }

  lemma ActivatingSince(w0: World, w: World, nodes: seq<nat>, joints: seq<Joint>, epoch: nat)
    requires Activating(w0, w, nodes, joints, epoch)
    ensures Since(w0, w)
  {
    hide Since, AllOnward, Kept, Raised, Smooth;
  }

  lemma FailingSince(w0: World, w1: World, w2: World, nodes: seq<nat>)
    requires ConvergeFails(w0, w1, nodes) && Since(w1, w2)
    ensures Since(w0, w1) && Since(w0, w2) && AllOnward(w0, w1)
  {
    hide Since, AllOnward, Fit, Enableable;
    SinceTrans(w0, w1, w2);
  }

  lemma ClearedFirst(start: World, w0: World, w: World)
    requires w0.trace == start.trace + [Cleared] && Since(w0, w)
    ensures Since(start, w)
  {
    assert w.trace[..|start.trace|] == w.trace[..|w0.trace|][..|start.trace|];
  }

  lemma SameStart(start: World, w0: World, w: World, nodes: seq<nat>, ok: bool)
    requires AllConverge(w0, w, nodes, ok) && w0.links == start.links && w0.trouble == start.trouble
    ensures AllConverge(start, w, nodes, ok)
  {
    hide Fit, Enableable;
  }

  lemma NodeOutcomeHere(w0: World, w: World, n: nat, epoch: nat)
    requires NodeOutcome(w0, w, n, epoch, true)
    ensures n in w.links
  {
    hide OthersKept, BroughtUp, Converges;
  }

  lemma SteadyFollows(w: World, joints: seq<Joint>, history: seq<seq<Command>>, next: nat, commands: seq<Command>)
    requires Steady(w, joints, history, next) && |commands| == |joints|
    ensures AllStale(w, next) && AllFollowing(w.links, joints, history, commands, 0) && AllDecided(w, joints)
  {
    AllWriteBegins(w.links, joints, history, commands);
    hide AllFollow, AllFollowing, AllDecided;
  }

  lemma TargetLength(n: nat, counts: int)
    requires IsNode(n)
    ensures TargetPositionFrame(n, counts).length <= 8
  {
  }

  lemma SyncLength()
    ensures SyncFrame().length <= 8
  {
  }
}
