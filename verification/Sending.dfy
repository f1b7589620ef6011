// What the host must see to before it puts a frame on the bus, and what sending keeps.

module Sending {
  import opened Wrappers
  import opened PxxCan
  import opened Cia402Drive
  import opened CanNetwork
  import opened SdoTransactions
  import opened CyclicOperation

  /** An enable command goes only to a seeded drive with nothing under way; a fault reset only after bit 7 was clear. */
  predicate MayPush(l: Link, m: HostMessage, epoch: nat) {
    && m != Nmt(0x02) && PlainRequest(m)
    && (IsEnable(m) ==> l.down == [] && ReadyToEnable(l, epoch))
    && (IsReset(m) ==> Bit7Clear(l))
  }

  predicate MaySend(w: World, f: Frame, epoch: nat) {
    forall n :: n in w.links && Decode(n, f).Some? ==> MayPush(w.links[n], Decode(n, f).value, epoch)
  }

  lemma DriftKeepsMayPush(a: Link, ta: nat, b: Link, tb: nat, m: HostMessage, epoch: nat)
    requires Drift(a, ta, b, tb) && MayPush(a, m, epoch)
    ensures MayPush(b, m, epoch)
  {
    hide NoSdo, AllInert, NoControl, Similar, Bit7Clear, Fold;
  }

  lemma DriftKeepsMaySend(a: World, b: World, f: Frame, epoch: nat)
    requires WorldDrift(a, b) && MaySend(a, f, epoch)
    ensures MaySend(b, f, epoch)
  {
    forall n | n in b.links && Decode(n, f).Some? ensures MayPush(b.links[n], Decode(n, f).value, epoch) {
      DriftKeepsMayPush(a.links[n], a.trouble, b.links[n], b.trouble, Decode(n, f).value, epoch);
    }
    hide Drift, MayPush, Decode;
  }

  lemma PushOk(n: nat, l: Link, s: Option<Stored>, m: HostMessage, id: nat, epoch: nat)
    requires LinkOk(n, l, s, id) && MayPush(l, m, epoch)
    ensures LinkOk(n, Push(l, Some(m), id, epoch), s, id + 1)
  {
    var r := Request(id, epoch, m);
    var l' := Push(l, Some(m), id, epoch);
    RisingAppend(l.drive.core.bit7, l.down, r);
    hide CoreExec, Rising, Armed;
    assert EnableGuard(l') by {
      forall i | 0 <= i < |l'.down| && IsEnable(l'.down[i].msg)
        ensures ReadyToEnable(l', l'.down[i].epoch) && forall j :: 0 <= j < i ==> Inert(l'.down[j].msg)
      {
        if i < |l.down| { assert l'.down[i] == l.down[i]; }
      }
    }
  }

  lemma LinkOkLater(n: nat, l: Link, s: Option<Stored>, next: nat)
    requires LinkOk(n, l, s, next)
    ensures LinkOk(n, l, s, next + 1)
    ensures forall m :: LinkOk(n, Lost(l, m), s, next)
  {
  }

  lemma BroadcastOk(w: World, f: Frame, id: nat, epoch: nat)
    requires WorldOk(w, id) && MaySend(w, f, epoch)
    ensures WorldOk(Broadcast(w, f, id, epoch), id + 1)
  {
    hide LinkOk, Decode, MayPush;

    var w' := Broadcast(w, f, id, epoch);
    forall n | n in w'.links ensures LinkOk(n, w'.links[n], StoredFor(w', n), id + 1) {
      var l, s := w.links[n], StoredFor(w, n);
      LinkOkLater(n, l, s, id);
      if Decode(n, f).Some? { PushOk(n, l, s, Decode(n, f).value, id, epoch); }
    }
  }

  lemma FailedOk(w: World, f: Frame, id: nat)
    requires WorldOk(w, id)
    ensures WorldOk(Failed(w, f), id)
  {
    hide LinkOk, Decode, MayPush;

    var w' := Failed(w, f);
    forall n | n in w'.links ensures LinkOk(n, w'.links[n], StoredFor(w', n), id) {
      LinkOkLater(n, w.links[n], StoredFor(w, n), id);
    }
  }

  lemma ForgetOk(w: World, next: nat)
    requires WorldOk(w, next)
    ensures WorldOk(Forget(w), next)
  {
    hide LinkOk, Decode, MayPush;

    forall n | n in w.links ensures LinkOk(n, w.links[n], None, next) {
      LinkOkForget(n, w.links[n], StoredFor(w, n), next);
    }
  }

  lemma WorldNodes(w: World, next: nat)
    requires WorldOk(w, next)
    ensures forall n :: n in w.links ==> IsNode(n) && w.links[n].drive.core.node == n
    ensures w.stored.Some? ==> w.stored.value.response.node in w.links
  {
  }

  lemma SendAfterRun(w: World, cs: seq<Choice>, mode: Listening, f: Frame, id: nat, epoch: nat)
    requires WorldOk(w, id) && MaySend(w, f, epoch)
    ensures var mid := Run(w, cs, mode);
            && mid.links.Keys == w.links.Keys && MaySend(mid, f, epoch)
            && WorldOk(mid, id) && WorldOk(Broadcast(mid, f, id, epoch), id + 1) && WorldOk(Failed(mid, f), id)
  {
    WorldOkRun(w, id, cs, mode);
    RunDrifts(w, cs, mode);
    var mid := Run(w, cs, mode);
    hide WorldOk, Run, MaySend;
    DriftKeepsMaySend(w, mid, f, epoch);
    BroadcastOk(mid, f, id, epoch);
    FailedOk(mid, f, id);
  }

  // Left-over answers between transactions -------------------------------------------------------------------

  predicate AllStale(w: World, next: nat) {
    forall n :: n in w.links ==> StaleQueues(w.links[n], w.expired, next)
  }

  lemma RunKeepsAllStale(w: World, cs: seq<Choice>, mode: Listening, next: nat)
    requires WorldOk(w, next) && AllStale(w, next)
    ensures AllStale(Run(w, cs, mode), next)
  {
    WorldOkRun(w, next, cs, mode);
    forall n | n in w.links ensures StaleQueues(Run(w, cs, mode).links[n], Run(w, cs, mode).expired, next) {
      RunKeepsStale(n, w, cs, mode, next);
    }
  }

  /** No link but n's holds request `id`, so nothing new is stale there. */
  lemma StaleLater(n: nat, l: Link, s: Option<Stored>, expired: set<nat>, id: nat)
    requires LinkOk(n, l, s, id) && StaleQueues(l, expired, id)
    ensures StaleQueues(l, expired, id + 1)
  {
    hide EnableGuard, Edges;
  }

  lemma StalePush(n: nat, l: Link, s: Option<Stored>, m: HostMessage, expired: set<nat>, id: nat, epoch: nat)
    requires LinkOk(n, l, s, id) && StaleQueues(l, expired, id)
    ensures var l' := Push(l, Some(m), id, epoch);
            && StaleQueues(l', expired, id)
            && ((IsSdoRequest(m) ==> IsControlKey(m.index, m.subindex)) ==> StaleQueues(l', expired, id + 1))
  {
    hide EnableGuard, Edges;
  }

  /** Once request `id` has been given up only shutdown answers are stale again. */
  lemma StaleAfterGivingUp(l: Link, expired: set<nat>, id: nat)
    requires StaleQueues(l, expired, id)
    ensures StaleQueues(l, expired + {id}, id + 1)
  {
  }

  lemma StaleWhenQuiet(l: Link, expired: set<nat>, next: nat)
    requires NoSdo(l)
    ensures StaleQueues(l, expired, next)
  {
  }

  // What other drives notice of a transaction ----------------------------------------------------------------

  predicate SeedKept(w: World, w': World, n: nat)
    requires n in w.links && n in w'.links
  {
    Silent(w.links[n]) ==> Silent(w'.links[n]) && PositionOf(w'.log, n) == PositionOf(w.log, n)
  }

  predicate Kept(w: World, w': World, n: nat) {
    && n in w.links && n in w'.links
    && Drift(w.links[n], w.trouble, w'.links[n], w'.trouble)
    && SeedKept(w, w', n)
  }

  /** Losses only add up, and no drive is put into the NMT state Stopped. */
  predicate Onward(a: Link, b: Link) {
    a.lost <= b.lost && (Live(a) ==> Live(b))
  }

  predicate AllOnward(w: World, w': World) {
    forall k :: k in w.links ==> k in w'.links && Onward(w.links[k], w'.links[k])
  }

  predicate OthersKept(w: World, w': World, n: nat) {
    && w'.links.Keys == w.links.Keys && w.trouble <= w'.trouble && Since(w, w') && AllOnward(w, w')
    && forall k :: k in w.links && k != n ==> Kept(w, w', k)
  }

  lemma KeptTrans(a: World, b: World, c: World, n: nat)
    requires Kept(a, b, n) && Kept(b, c, n)
    ensures Kept(a, c, n)
  {
    DriftTrans(a.links[n], a.trouble, b.links[n], b.trouble, c.links[n], c.trouble);
    hide Drift, Silent;
  }

  lemma OthersKeptTrans(a: World, b: World, c: World, n: nat)
    requires OthersKept(a, b, n) && OthersKept(b, c, n)
    ensures OthersKept(a, c, n)
  {
    hide Kept, Live, Since;
    SinceTrans(a, b, c);
    forall k | k in a.links && k != n ensures Kept(a, c, k) { KeptTrans(a, b, c, k); }
  }

  lemma RunKeeps(w: World, cs: seq<Choice>, mode: Listening)
    ensures var w' := Run(w, cs, mode);
            && w'.links.Keys == w.links.Keys && w.trouble <= w'.trouble && Since(w, w') && AllOnward(w, w')
            && forall k :: k in w.links ==> Kept(w, w', k)
  {
    hide Run, Live, Since, Silent, PositionOf, Drift;
    RunDrifts(w, cs, mode);
    var w' := Run(w, cs, mode);
    RunTrouble(w, cs, mode);
    RunSince(w, cs, mode);
    forall k | k in w.links ensures k in w'.links && Onward(w.links[k], w'.links[k]) {
      RunKeepsHalting(k, w, cs, mode, 0);
    }
    forall k | k in w.links ensures Kept(w, w', k) {
      if Silent(w.links[k]) { RunKeepsSeed(k, w, cs, mode, PositionOf(w.log, k)); }
    }
  }

  lemma {:induction false} RunSince(w: World, cs: seq<Choice>, mode: Listening)
    ensures Since(w, Run(w, cs, mode))
  {
    hide Stepped;
    if cs != [] {
      var p := Run(w, cs[..|cs| - 1], mode);
      RunSince(w, cs[..|cs| - 1], mode);
      StepAdds(p, cs[|cs| - 1], mode);
      hide Step;
      SinceTrans(w, p, Run(w, cs, mode));
    } else {
      assert w.trace[..|w.trace|] == w.trace;
    }
  }

  lemma StepAdds(w: World, c: Choice, mode: Listening)
    ensures Step(w, c, mode).trace == w.trace + [Passed(c, mode)] && Since(w, Step(w, c, mode))
  {
  }

  lemma StepTrouble(w: World, c: Choice, mode: Listening)
    ensures w.trouble <= Step(w, c, mode).trouble && Step(w, c, mode).expired == w.expired
  {
  }

  lemma {:induction false} RunTrouble(w: World, cs: seq<Choice>, mode: Listening)
    ensures w.trouble <= Run(w, cs, mode).trouble && Run(w, cs, mode).expired == w.expired
  {
    if cs != [] {
      RunTrouble(w, cs[..|cs| - 1], mode);
      StepTrouble(Run(w, cs[..|cs| - 1], mode), cs[|cs| - 1], mode);
    }
  }

  // One transaction from start to end ------------------------------------------------------------------------

  ghost predicate ForNodeOnly(f: Frame, n: nat, m: HostMessage) {
    forall k :: IsNode(k) ==> Decode(k, f) == if k == n then Some(m) else None
  }

  predicate KeepsSilence(m: HostMessage) {
    !m.Sync? && !(m.SdoWrite? && m.index == TPDO1_COMMUNICATION)
  }

  lemma InFlightStart(n: nat, a: Link, ta: nat, l: Link, t: nat, m: HostMessage, id: nat, epoch: nat)
    requires Drift(a, ta, l, t) && LinkOk(n, l, None, id)
    ensures InFlight(a, ta, Push(l, Some(m), id, epoch), None, t, Request(id, epoch, m))
  {
    var l' := Push(l, Some(m), id, epoch);
    assert Rest(l'.down) == l.down;
    assert l'.(down := Rest(l'.down)) == l;
    hide Drift, Edges, EnableGuard, Answer;
  }

  lemma DriftAppend(a: World, b: World, c: World)
    requires WorldDrift(a, b) && WorldDrift(b, c)
    ensures WorldDrift(a, c)
  {
    forall n | n in a.links ensures Drift(a.links[n], a.trouble, c.links[n], c.trouble) {
      DriftTrans(a.links[n], a.trouble, b.links[n], b.trouble, c.links[n], c.trouble);
    }
    hide Drift;
  }

  /** Sending to n alone changes nothing for the others, and their positions and silence stand. */
  lemma BroadcastKeepsOthers(w: World, f: Frame, n: nat, m: HostMessage, id: nat, epoch: nat)
    requires ForNodeOnly(f, n, m) && m != Nmt(0x02) && forall k :: k in w.links ==> IsNode(k)
    ensures OthersKept(w, Broadcast(w, f, id, epoch), n) && OthersKept(w, Failed(w, f), n)
    ensures n in w.links ==> Broadcast(w, f, id, epoch).links[n] == Push(w.links[n], Some(m), id, epoch)
    ensures n in w.links ==> Failed(w, f).links[n] == Miss(w.links[n], Some(m))
    ensures n in w.links && KeepsSilence(m) ==>
              SeedKept(w, Broadcast(w, f, id, epoch), n) && SeedKept(w, Failed(w, f), n)
  {
    hide Decode, Kept, Since, Drift, Silent, Live;
    SentSince(w, f, id, epoch);
    forall k | k in w.links
      ensures Onward(w.links[k], Broadcast(w, f, id, epoch).links[k]) && Onward(w.links[k], Failed(w, f).links[k])
    {
      assert Decode(k, f) == if k == n then Some(m) else None;
      SentOnward(w.links[k], Decode(k, f), id, epoch);
    }
    forall k | k in w.links && k != n ensures Kept(w, Broadcast(w, f, id, epoch), k) && Kept(w, Failed(w, f), k) {
      assert Decode(k, f) == None;
      KeptIfSame(w, Broadcast(w, f, id, epoch), k);
      KeptIfSame(w, Failed(w, f), k);
    }
    if n in w.links && KeepsSilence(m) { SilentPush(w.links[n], m, id, epoch); }
  }

  lemma SentSince(w: World, f: Frame, id: nat, epoch: nat)
    ensures Since(w, Broadcast(w, f, id, epoch)) && Since(w, Failed(w, f))
  {
    hide Decode, Push, Miss;
  }

  lemma SentOnward(l: Link, m: Option<HostMessage>, id: nat, epoch: nat)
    requires m != Some(Nmt(0x02))
    ensures Onward(l, Push(l, m, id, epoch)) && Onward(l, Miss(l, m))
  {
  }

  lemma SilentPush(l: Link, m: HostMessage, id: nat, epoch: nat)
    requires KeepsSilence(m)
    ensures Silent(l) ==> Silent(Push(l, Some(m), id, epoch)) && Silent(Miss(l, Some(m)))
  {
  }

  lemma KeptIfSame(w: World, w': World, k: nat)
    requires k in w.links && k in w'.links && w'.links[k] == w.links[k] && w'.log == w.log && w.trouble <= w'.trouble
    ensures Kept(w, w', k)
  {
    hide Drift, Silent;
    DriftRefl(w.links[k], w.trouble);
    DriftLater(w.links[k], w.trouble, w.links[k], w.trouble, w'.trouble);
  }

  lemma RunKeepsOthers(w: World, cs: seq<Choice>, mode: Listening, n: nat)
    ensures OthersKept(w, Run(w, cs, mode), n)
    ensures n in w.links ==> SeedKept(w, Run(w, cs, mode), n)
  {
    RunKeeps(w, cs, mode);
  }

  lemma ForgetKeeps(w: World, n: nat)
    ensures OthersKept(w, Forget(w), n)
    ensures n in w.links ==> SeedKept(w, Forget(w), n)
  {
    assert Since(w, Forget(w));
    forall k | k in w.links ensures Kept(w, Forget(w), k) {
      DriftRefl(w.links[k], w.trouble);
      hide Drift, Silent;
    }
  }

  /**
   The world as a transaction's main thread finds it: before, after the reset, when the request is on the bus, at the
   end.
   */
  ghost predicate Course(w0: World, w1: World, w2: World, cs1: seq<Choice>, cs2: seq<Choice>) {
    w1 == Forget(Run(w0, cs1, All)) && w2 == Run(w1, cs2, NoAnswers)
  }

  lemma CourseDrifts(w0: World, w1: World, w2: World, cs1: seq<Choice>, cs2: seq<Choice>, n: nat, id: nat)
    requires Course(w0, w1, w2, cs1, cs2) && WorldOk(w0, id) && n in w0.links
    ensures WorldOk(w1, id) && WorldOk(w2, id) && w2.stored == None
    ensures WorldDrift(w0, w1) && WorldDrift(w0, w2)
    ensures OthersKept(w0, w2, n) && SeedKept(w0, w2, n)
  {
    var v := Run(w0, cs1, All);
    WorldOkRun(w0, id, cs1, All);
    ForgetOk(v, id);
    WorldOkRun(w1, id, cs2, NoAnswers);
    RunDrifts(w0, cs1, All);
    RunDrifts(w1, cs2, NoAnswers);
    RunKeepsOthers(w0, cs1, All, n);
    ForgetKeeps(v, n);
    RunKeepsOthers(w1, cs2, NoAnswers, n);
    NoAnswersStored(w1, cs2);
    hide WorldOk, Run, Kept, Drift, Silent;
    assert WorldDrift(w0, w1);
    DriftAppend(w0, w1, w2);
    OthersKeptTrans(w0, v, w1, n);
    OthersKeptTrans(w0, w1, w2, n);
  }

  /** While the main thread holds the mutex, no answer is stored. */
  lemma {:induction false} NoAnswersStored(w: World, cs: seq<Choice>)
    ensures Run(w, cs, NoAnswers).stored == w.stored
  {
    if cs != [] { NoAnswersStored(w, cs[..|cs| - 1]); }
  }

  /** From the moment the request is on the bus: the request itself ... */
  lemma SentInFlight(w0: World, w2: World, cs3: seq<Choice>, f: Frame, n: nat, m: HostMessage, id: nat, epoch: nat)
    requires WorldOk(w2, id) && w2.stored == None && WorldDrift(w0, w2) && n in w0.links && ForNodeOnly(f, n, m)
    requires WorldOk(Broadcast(w2, f, id, epoch), id + 1)
    ensures var w4 := Run(Broadcast(w2, f, id, epoch), cs3, All);
            && n in w4.links
            && InFlight(w0.links[n], w0.trouble, w4.links[n], StoredFor(w4, n), w4.trouble, Request(id, epoch, m))
  {
    hide LinkOk, InFlight, Drift, Decode, Run, WorldOk, ForNodeOnly, Broadcast;
    LinkHere(w2, id, n);
    PushedAt(w2, f, n, m, id, epoch);
    InFlightStart(n, w0.links[n], w0.trouble, w2.links[n], w2.trouble, m, id, epoch);
    RunKeepsInFlight(n, w0.links[n], w0.trouble, Broadcast(w2, f, id, epoch), Request(id, epoch, m), cs3, All);
  }

  lemma LinkHere(w: World, next: nat, n: nat)
    requires WorldOk(w, next) && n in w.links && w.stored == None
    ensures LinkOk(n, w.links[n], None, next)
  {
    hide LinkOk;
    assert StoredFor(w, n) == None;
  }

  lemma PushedAt(w: World, f: Frame, n: nat, m: HostMessage, id: nat, epoch: nat)
    requires WorldOk(w, id) && n in w.links && ForNodeOnly(f, n, m)
    ensures var w' := Broadcast(w, f, id, epoch);
            n in w'.links && w'.links[n] == Push(w.links[n], Some(m), id, epoch) && w'.trouble == w.trouble &&
                w'.stored == w.stored
  {
    WorldNodes(w, id);
    hide Decode, LinkOk;
  }

  /** ... and everything else. */
  lemma SentCourse(w2: World, cs3: seq<Choice>, f: Frame, n: nat, m: HostMessage, id: nat, epoch: nat)
    requires WorldOk(w2, id) && n in w2.links && ForNodeOnly(f, n, m) && m != Nmt(0x02)
    requires WorldOk(Broadcast(w2, f, id, epoch), id + 1)
    ensures var w4 := Run(Broadcast(w2, f, id, epoch), cs3, All);
            && WorldOk(w4, id + 1) && OthersKept(w2, w4, n) && w4.links.Keys == w2.links.Keys
            && (KeepsSilence(m) ==> SeedKept(w2, w4, n))
  {
    var w3 := Broadcast(w2, f, id, epoch);
    WorldNodes(w2, id);
    hide Silent, Decode, Run, WorldOk, Broadcast, ForNodeOnly, OthersKept, PositionOf;
    BroadcastKeepsOthers(w2, f, n, m, id, epoch);
    WorldOkRun(w3, id + 1, cs3, All);
    RunKeepsOthers(w3, cs3, All, n);
    OthersKeptTrans(w2, w3, Run(w3, cs3, All), n);
    OthersHere(w2, w3, n);
  }

  lemma OthersHere(w0: World, w: World, n: nat)
    requires OthersKept(w0, w, n)
    ensures w.links.Keys == w0.links.Keys && w0.trouble <= w.trouble
  {
    hide Kept, Since, AllOnward;
  }

  lemma CourseStale(w0: World, w1: World, w2: World, cs1: seq<Choice>, cs2: seq<Choice>, id: nat)
    requires Course(w0, w1, w2, cs1, cs2) && WorldOk(w0, id) && AllStale(w0, id)
    ensures WorldOk(w2, id) && AllStale(w2, id) && w2.stored == None && w2.expired == w0.expired
    ensures w2.links.Keys == w0.links.Keys && w0.trouble <= w2.trouble
  {
    var v := Run(w0, cs1, All);
    assert AllStale(v, id) ==> AllStale(w1, id);
    hide WorldOk, AllStale, Run, Drift;
    WorldOkRun(w0, id, cs1, All);
    RunKeepsAllStale(w0, cs1, All, id);
    RunTrouble(w0, cs1, All);
    ForgetOk(v, id);
    WorldOkRun(w1, id, cs2, NoAnswers);
    RunKeepsAllStale(w1, cs2, NoAnswers, id);
    RunTrouble(w1, cs2, NoAnswers);
    NoAnswersStored(w1, cs2);
  }

  /** Left-overs after a request went out: nothing new for the others; for n only the request's own object. */
  lemma SentStale(w2: World, cs3: seq<Choice>, f: Frame, n: nat, m: HostMessage, id: nat, epoch: nat, k: nat)
    requires WorldOk(w2, id) && AllStale(w2, id) && w2.stored == None && k in w2.links && ForNodeOnly(f, n, m)
    ensures var w4 := Run(Broadcast(w2, f, id, epoch), cs3, All);
            && w4.expired == w2.expired && k in w4.links
            && StaleOnly(w4.links[k], StoredFor(w4, k), w4.expired, id)
            && (k != n || (IsSdoRequest(m) ==> IsControlKey(m.index, m.subindex)) ==>
                  StaleQueues(w4.links[k], w4.expired, id + 1))
  {
    var w3 := Broadcast(w2, f, id, epoch);
    var l := w2.links[k];
    WorldNodes(w2, id);
    assert LinkOk(k, l, None, id) && StaleQueues(l, w2.expired, id);
    assert w3.links[k] == Push(l, if k == n then Some(m) else None, id, epoch);
    hide LinkOk, Decode, Run, StaleQueues, WorldOk, AllStale, ForNodeOnly, Push;
    if k == n {
      StalePush(k, l, None, m, w2.expired, id, epoch);
    } else {
      StaleLater(k, l, None, w2.expired, id);
      PushNothing(l, id, epoch);
    }
    RunKeepsStale(k, w3, cs3, All, id);
    if k != n || (IsSdoRequest(m) ==> IsControlKey(m.index, m.subindex)) {
      RunKeepsStale(k, w3, cs3, All, id + 1);
    }
  }

  lemma PushNothing(l: Link, id: nat, epoch: nat)
    ensures Push(l, None, id, epoch) == l
  {
  }

  // Outcomes -------------------------------------------------------------------------------------------------

  /** The host holds the drive's own answer to r, and no SDO traffic is left for this drive. */
  predicate Concluded(a: Link, ta: nat, l: Link, t: nat, r: Request, answer: DriveMessage) {
    && ServedAs(a, ta, l, t, r) && NoSdo(l)
    && Answer(l.last.value.before, r.msg) == Some(answer)
    && (l.drive.core.nmt == PreOperational ==> forall i :: 0 <= i < |l.up| ==> !l.up[i].msg.Tpdo1?)
  }

  /** Nothing SDO under way, or an object no left-over answer can be about. */
  predicate Unambiguous(a: Link, m: HostMessage) {
    IsSdoRequest(m) && (NoSdo(a) || !IsControlKey(m.index, m.subindex))
  }

  lemma AnswerConcludes(a: Link, ta: nat, w4: World, n: nat, r: Request)
    requires WorldOk(w4, r.id + 1) && n in w4.links && w4.stored.Some?
    requires InFlight(a, ta, w4.links[n], StoredFor(w4, n), w4.trouble, r)
    requires StaleOnly(w4.links[n], StoredFor(w4, n), w4.expired, r.id)
    requires Unambiguous(a, r.msg) && Matches(w4.stored.value.response, n, r.msg)
    ensures var l := w4.links[n];
            && l.last.Some? && Answer(l.last.value.before, r.msg).Some?
            && var answer := Answer(l.last.value.before, r.msg).value;
            && Concluded(a, ta, l, w4.trouble, r, answer) && w4.stored.value.response == Response(n, answer)
  {
    hide StaleQueues, InFlight;
    AcceptedIsOurs(n, a, ta, w4.links[n], StoredFor(w4, n), w4.trouble, r, w4.expired);
    hide LinkOk, ServedAs, NoSdo, Answer;
  }

  lemma StaleAtTheEnd(w2: World, cs3: seq<Choice>, f: Frame, n: nat, m: HostMessage, id: nat, epoch: nat, w5: World)
    requires WorldOk(w2, id) && AllStale(w2, id) && w2.stored == None && n in w2.links && ForNodeOnly(f, n, m)
    requires w5.links == Run(Broadcast(w2, f, id, epoch), cs3, All).links && w5.links.Keys == w2.links.Keys
    requires w5.expired == w2.expired || w5.expired == w2.expired + {id}
    requires id in w5.expired || NoSdo(w5.links[n]) || (IsSdoRequest(m) ==> IsControlKey(m.index, m.subindex))
    ensures AllStale(w5, id + 1)
  {
    hide WorldOk, Run, Decode, ForNodeOnly, NoSdo, Broadcast;
    forall k | k in w5.links ensures StaleQueues(w5.links[k], w5.expired, id + 1) {
      SentStale(w2, cs3, f, n, m, id, epoch, k);
      if w5.expired == w2.expired + {id} { StaleAfterGivingUp(w5.links[k], w2.expired, id); }
      else if k == n && NoSdo(w5.links[n]) { StaleWhenQuiet(w5.links[k], w5.expired, id + 1); }
      hide StaleQueues;
    }
  }

  lemma GivenUpOk(w: World, id: nat, next: nat)
    requires WorldOk(w, next)
    ensures WorldOk(GiveUp(w, id), next)
  {
  }

  lemma FailedStale(w: World, f: Frame, next: nat)
    requires AllStale(w, next)
    ensures AllStale(Failed(w, f), next)
  {
    hide Decode;
  }

  lemma BeforeSending(w0: World, cs1: seq<Choice>, f: Frame, id: nat, epoch: nat)
    requires WorldOk(w0, id) && MaySend(w0, f, epoch)
    ensures var w1 := Forget(Run(w0, cs1, All)); WorldOk(w1, id) && MaySend(w1, f, epoch)
  {
    var v := Run(w0, cs1, All);
    WorldOkRun(w0, id, cs1, All);
    RunDrifts(w0, cs1, All);
    hide WorldOk, Run, Drift, Decode;
    ForgetOk(v, id);
    DriftKeepsMaySend(w0, v, f, epoch);
  }

  /** A refused frame costs, and keeps everything else. */
  lemma SendFailed(w0: World, w2: World, f: Frame, n: nat, m: HostMessage, id: nat, epoch: nat)
    requires OthersKept(w0, w2, n) && n in w0.links && SeedKept(w0, w2, n) && ForNodeOnly(f, n, m) && m != Nmt(0x02)
    requires WorldOk(w2, id) && AllStale(w2, id) && w0.trouble <= w2.trouble && w0.links[n].lost <= w2.links[n].lost
    ensures var w := Failed(w2, f);
            && OthersKept(w0, w, n) && AllStale(w, id) && w0.trouble < w.trouble && w0.links[n].lost <= w.links[n].lost
            && (KeepsSilence(m) ==> SeedKept(w0, w, n))
  {
    WorldNodes(w2, id);
    hide Decode, WorldOk, AllStale, Kept, Silent;
    BroadcastKeepsOthers(w2, f, n, m, id, epoch);
    FailedStale(w2, f, id);
    OthersKeptTrans(w0, w2, Failed(w2, f), n);
  }

  lemma GivingUpKeeps(w0: World, w4: World, id: nat, n: nat)
    requires OthersKept(w0, w4, n)
    ensures OthersKept(w0, GiveUp(w4, id), n)
    ensures n in w0.links ==> (SeedKept(w0, w4, n) ==> SeedKept(w0, GiveUp(w4, id), n))
  {
    hide Drift, Silent, Live, Since, PositionOf;
    var w5 := GiveUp(w4, id);
    GivingUpSince(w4, id);
    SinceTrans(w0, w4, w5);
    forall k | k in w0.links && k != n ensures Kept(w0, w5, k) {
      DriftLater(w0.links[k], w0.trouble, w4.links[k], w4.trouble, w5.trouble);
    }
  }

  lemma GivingUpSince(w: World, id: nat)
    ensures Since(w, GiveUp(w, id))
  {
  }

  /**
   When the request goes out: the link has only drifted, nothing is stored, and only shutdown answers are left over.
   */
  predicate OnTheBus(w0: World, w2: World, n: nat, id: nat) {
    && n in w0.links && WorldOk(w2, id) && AllStale(w2, id) && w2.stored == None && w2.expired == w0.expired
    && WorldDrift(w0, w2) && OthersKept(w0, w2, n) && SeedKept(w0, w2, n)
  }

  lemma OnTheBusAfter(w0: World, w1: World, w2: World, cs1: seq<Choice>, cs2: seq<Choice>, n: nat, id: nat)
    requires Course(w0, w1, w2, cs1, cs2) && WorldOk(w0, id) && AllStale(w0, id) && n in w0.links
    ensures OnTheBus(w0, w2, n, id)
  {
    hide Course, WorldOk, AllStale, Drift, Kept, Silent, AllOnward, Since, PositionOf, Run;
    CourseStale(w0, w1, w2, cs1, cs2, id);
    CourseDrifts(w0, w1, w2, cs1, cs2, n, id);
  }

  lemma NeverStops(w: World, f: Frame, n: nat, m: HostMessage, epoch: nat, next: nat)
    requires MaySend(w, f, epoch) && ForNodeOnly(f, n, m) && n in w.links && WorldOk(w, next)
    ensures m != Nmt(0x02)
  {
    WorldNodes(w, next);
    hide Decode, LinkOk, WorldOk;
    assert Decode(n, f) == Some(m);
  }

  /** A request the socket refuses. */
  lemma RequestRefused(w0: World, w2: World, f: Frame, n: nat, m: HostMessage, id: nat, epoch: nat)
    requires OnTheBus(w0, w2, n, id) && ForNodeOnly(f, n, m) && m != Nmt(0x02)
    ensures var w := Failed(w2, f);
            && OthersKept(w0, w, n) && AllStale(w, id) && w0.trouble < w.trouble && n in w.links
            && w0.links[n].lost <= w.links[n].lost
            && (KeepsSilence(m) ==> SeedKept(w0, w, n))
  {
    hide WorldOk, AllStale, Loosely, Kept, Silent, Since, PositionOf, Decode, ForNodeOnly, Live, Failed;
    SendFailed(w0, w2, f, n, m, id, epoch);
  }

  /** When the main thread looks for the answer to r. */
  predicate AtTheEnd(w0: World, w4: World, n: nat, r: Request) {
    && n in w0.links && n in w4.links && WorldOk(w4, r.id + 1) && OthersKept(w0, w4, n)
    && (KeepsSilence(r.msg) ==> SeedKept(w0, w4, n)) && w0.links[n].lost <= w4.links[n].lost
    && InFlight(w0.links[n], w0.trouble, w4.links[n], StoredFor(w4, n), w4.trouble, r)
    && StaleOnly(w4.links[n], StoredFor(w4, n), w4.expired, r.id) && w4.expired == w0.expired
  }

  /** After everything under way to it, message m included, the drive stands where these messages lead. */
  predicate Carried(a: Link, l: Link, m: HostMessage) {
    && l.lost == a.lost && l.drive.clearable == a.drive.clearable
    && Fold(l.drive.core, l.down) == CoreExec(Fold(a.drive.core, a.down), m)
    && (Settled(a.drive.power) ==>
          && Settled(l.drive.power)
          && Ahead(l) == NextPower(Fold(a.drive.core, a.down), Ahead(a), a.drive.clearable, m))
    && (AllInert(a.down) && Inert(m) ==> AllInert(l.down))
  }

  lemma {:induction false} PowerFoldAppend(c: Core, p: Power, clearable: bool, down: seq<Request>, r: Request)
    ensures PowerFold(c, p, clearable, down + [r]) ==
            NextPower(Fold(c, down), PowerFold(c, p, clearable, down), clearable, r.msg)
    decreases |down|
  {
    hide CoreExec, NextPower;
    if down == [] {
      assert down + [r] == [r];
      assert [r][1..] == [];
      assert PowerFold(CoreExec(c, r.msg), NextPower(c, p, clearable, r.msg), clearable, []) ==
             NextPower(c, p, clearable, r.msg);
    } else {
      assert (down + [r])[1..] == down[1..] + [r];
      PowerFoldAppend(CoreExec(c, down[0].msg), NextPower(c, p, clearable, down[0].msg), clearable, down[1..], r);
    }
  }

  lemma UnservedCarries(a: Link, ta: nat, l: Link, r: Request)
    requires Unserved(a, ta, l, ta, r)
    ensures Carried(a, l, r.msg)
  {
    hide CoreExec, NextPower, Fold, PowerFold, Bit7Clear, NoSdo, NoControl, Similar, Inert;
    var rest := Rest(l.down);
    assert l.down == rest + [r];
    FoldAppend(l.drive.core, rest, r);
    PowerFoldAppend(l.drive.core, l.drive.power, l.drive.clearable, rest, r);
  }

  lemma ServedCarries(a: Link, ta: nat, l: Link, r: Request)
    requires ServedAs(a, ta, l, ta, r)
    ensures Carried(a, l, r.msg)
  {
    assert Fold(l.drive.core, []) == l.drive.core && Ahead(l) == l.drive.power;
    hide CoreExec, Fold, Ahead, ApplyControl, Bit7Clear, NoControl, Similar;
  }

  lemma InFlightCarries(a: Link, ta: nat, l: Link, s: Option<Stored>, t: nat, r: Request)
    requires InFlight(a, ta, l, s, t, r) && t == ta
    ensures Carried(a, l, r.msg)
  {
    hide Unserved, ServedAs, Carried, Answers, OnlyOurs;
    if Unserved(a, ta, l, t, r) { UnservedCarries(a, ta, l, r); } else { ServedCarries(a, ta, l, r); }
  }

  lemma StoredIsPlain(w: World, next: nat, n: nat)
    requires WorldOk(w, next) && w.stored.Some? && w.stored.value.response.node == n
    ensures IsControlKey(w.stored.value.response.index, w.stored.value.response.subindex) ==>
            !w.stored.value.response.aborted
  {
    assert StoredFor(w, n) == w.stored;
    hide Ordered, EnableGuard, Edges;
  }

  /** What a transaction establishes, however it ends. */
  predicate Ends(w0: World, w: World, n: nat, r: Request, answer: DriveMessage, ok: bool, value: Word32) {
    && n in w0.links && n in w.links && OthersKept(w0, w, n) && w0.links[n].lost <= w.links[n].lost
    && (KeepsSilence(r.msg) ==> SeedKept(w0, w, n))
    && (Unambiguous(w0.links[n], r.msg) && (ok || w.trouble == w0.trouble) ==>
          && Concluded(w0.links[n], w0.trouble, w.links[n], w.trouble, r, answer)
          && ok == !answer.Abort?
          && (ok && answer.Data? ==> value == answer.value))
    && (w.trouble == w0.trouble ==> Carried(w0.links[n], w.links[n], r.msg) && (IsControl(r.msg) ==> ok))
  }

  lemma NothingSent(w0: World, w: World, n: nat, r: Request, answer: DriveMessage)
    requires n in w0.links && OthersKept(w0, w, n) && (KeepsSilence(r.msg) ==> SeedKept(w0, w, n))
    requires w0.trouble < w.trouble && w0.links[n].lost <= w.links[n].lost
    ensures Ends(w0, w, n, r, answer, false, 0)
  {
  }

  lemma AfterTheWait(w0: World, w2: World, cs: seq<Choice>, f: Frame, n: nat, m: HostMessage, id: nat, epoch: nat)
    requires OnTheBus(w0, w2, n, id) && ForNodeOnly(f, n, m) && m != Nmt(0x02)
    requires WorldOk(Broadcast(w2, f, id, epoch), id + 1)
    ensures AtTheEnd(w0, Run(Broadcast(w2, f, id, epoch), cs, All), n, Request(id, epoch, m))
  {
    hide WorldOk, AllStale, InFlight, StaleOnly, Drift, Silent, Kept, Decode, ForNodeOnly, Run, Broadcast;
    SentInFlight(w0, w2, cs, f, n, m, id, epoch);
    SentCourse(w2, cs, f, n, m, id, epoch);
    SentStale(w2, cs, f, n, m, id, epoch, n);
    var w4 := Run(Broadcast(w2, f, id, epoch), cs, All);
    OthersKeptTrans(w0, w2, w4, n);
    InFlightLost(w0.links[n], w0.trouble, w4.links[n], StoredFor(w4, n), w4.trouble, Request(id, epoch, m));
  }

  lemma InFlightLost(a: Link, ta: nat, l: Link, s: Option<Stored>, t: nat, r: Request)
    requires InFlight(a, ta, l, s, t, r)
    ensures a.lost <= l.lost
  {
  }

  /** The transaction gives up. */
  lemma TimedOut(w0: World, w2: World, w4: World, w5: World, cs: seq<Choice>, f: Frame, n: nat, r: Request,
                 answer: DriveMessage)
    requires OnTheBus(w0, w2, n, r.id) && ForNodeOnly(f, n, r.msg)
    requires w4 == Run(Broadcast(w2, f, r.id, r.epoch), cs, All) && AtTheEnd(w0, w4, n, r)
    requires w5 == GiveUp(w4, r.id)
    ensures WorldOk(w5, r.id + 1) && AllStale(w5, r.id + 1) && Ends(w0, w5, n, r, answer, false, 0)
  {
    hide WorldOk, AllStale, StaleOnly, InFlight, Drift, Silent, Kept, Decode, ForNodeOnly, Run, Broadcast;
    GivenUpOk(w4, r.id, r.id + 1);
    GivingUpKeeps(w0, w4, r.id, n);
    StaleAtTheEnd(w2, cs, f, n, r.msg, r.id, r.epoch, w5);
  }

  /** An answer that passes the test of sdo_transaction. */
  lemma Outcome(w0: World, w2: World, w4: World, cs: seq<Choice>, f: Frame, n: nat, r: Request, ok: bool, value: Word32)
    returns (answer: DriveMessage)
    requires OnTheBus(w0, w2, n, r.id) && ForNodeOnly(f, n, r.msg) && IsSdoRequest(r.msg)
    requires w4 == Run(Broadcast(w2, f, r.id, r.epoch), cs, All) && AtTheEnd(w0, w4, n, r)
    requires w4.stored.Some? && Matches(w4.stored.value.response, n, r.msg)
    requires ok == !w4.stored.value.response.aborted && (ok ==> value == w4.stored.value.response.value)
    ensures AllStale(w4, r.id + 1) && WorldOk(w4, r.id + 1) && Ends(w0, w4, n, r, answer, ok, value)
  {
    hide WorldOk, AllStale, InFlight, StaleOnly, Drift, Silent, Kept, Decode, ForNodeOnly, Run, Broadcast, ServedAs,
         Answer;
    hide Carried;
    StoredIsPlain(w4, r.id + 1, n);
    if w4.trouble == w0.trouble {
      InFlightCarries(w0.links[n], w0.trouble, w4.links[n], StoredFor(w4, n), w4.trouble, r);
    }
    answer := Heartbeat(0);
    if Unambiguous(w0.links[n], r.msg) {
      AnswerConcludes(w0.links[n], w0.trouble, w4, n, r);
      answer := Answer(w4.links[n].last.value.before, r.msg).value;
    }
    StaleAtTheEnd(w2, cs, f, n, r.msg, r.id, r.epoch, w4);
  }
}
