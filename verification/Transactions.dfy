// What one SDO transaction can and cannot conclude, whatever the bus and the receive thread do meanwhile.

module SdoTransactions {
  import opened Wrappers
  import opened PxxCan
  import opened Cia402Drive
  import opened CanNetwork

  /** No SDO traffic under way in either direction. */
  predicate NoSdo(l: Link) {
    && (forall i :: 0 <= i < |l.up| ==> !IsSdo(l.up[i].msg))
    && (forall i :: 0 <= i < |l.down| ==> !IsSdoRequest(l.down[i].msg))
  }

  predicate AllInert(down: seq<Request>) {
    forall i :: 0 <= i < |down| ==> Inert(down[i].msg)
  }

  predicate NoControl(down: seq<Request>) {
    forall i :: 0 <= i < |down| ==> !IsControl(down[i].msg)
  }

  predicate Settled(p: Power) {
    p != NotReady && p != FaultReaction
  }

  /** What the environment alone can do to the power state. */
  predicate EnvPower(p: Power, p': Power) {
    p' == p || p' in {FaultReaction, Fault, SwitchOnDisabled}
  }

  /** Equal but for NMT state and bit 7 of the last control word. */
  predicate Similar(c: Core, c': Core) {
    c' == c.(nmt := c'.nmt, bit7 := c'.bit7)
  }

  // The environment alone ------------------------------------------------------------------------------------

  predicate OneNmt(down: seq<Request>) {
    |down| == 1 && down[0].msg.Nmt?
  }

  /** An NMT command alone in the queue is still there, or was taken, or was the one frame lost. */
  predicate NmtFate(a: Link, b: Link)
    requires OneNmt(a.down)
  {
    || (b.down == a.down && b.drive.core == a.drive.core && b.lost == a.lost)
    || (b.down == [] && b.drive.core == CoreExec(a.drive.core, a.down[0].msg) && b.lost == a.lost)
    || (b.down == [] && b.drive.core == a.drive.core && b.lost == a.lost + 1)
  }

  /** How a link can look after the environment alone has acted on it; ta and tb count losses and faults so far. */
  predicate Drift(a: Link, ta: nat, b: Link, tb: nat) {
    && Loosely(a, ta, b, tb)
    && (a.down == [] ==> b.lost == a.lost)
    && (OneNmt(a.down) ==> NmtFate(a, b))
  }

  /** The same, if one more frame may have been lost at the end. */
  predicate Loosely(a: Link, ta: nat, b: Link, tb: nat) {
    && ta <= tb && a.lost <= b.lost
    && (Bit7Clear(a) ==> Bit7Clear(b))
    && b.drive.core.node == a.drive.core.node && b.drive.clearable == a.drive.clearable
    && (tb == ta ==> b.lost == a.lost)
    && (b.lost == a.lost ==> Fold(b.drive.core, b.down) == Fold(a.drive.core, a.down))
    && (a.down == [] ==> b.down == [] && b.drive.core == a.drive.core && b.reported == a.reported)
    && (AllInert(a.down) ==> AllInert(b.down) && Similar(a.drive.core, b.drive.core) && b.reported == a.reported)
    && (NoSdo(a) ==> NoSdo(b))
    && (tb == ta && Settled(a.drive.power) && NoControl(a.down) ==> b.drive.power == a.drive.power)
    && (tb == ta && Settled(a.drive.power) ==> Settled(b.drive.power) && Ahead(b) == Ahead(a))
    && (NoControl(a.down) ==> NoControl(b.down) && EnvPower(a.drive.power, b.drive.power))
  }

  lemma InertExec(c: Core, m: HostMessage)
    requires Inert(m)
    ensures Similar(c, CoreExec(c, m))
  {
  }

  lemma NoSdoStep(l: Link, e: Event)
    requires NoSdo(l)
    ensures NoSdo(LinkStep(l, e))
  {
    NoSdoInPdos(l.drive);
    if e.Deliver? && l.down != [] {
      NoSdoInPdos(Exec(l.drive, l.down[0].msg));
      NoAnswerToOthers(l.drive, l.down[0].msg);
    }
    hide Exec, Answer, OnSync, EmitTpdo1, EmitTpdo2;
  }

  /** Without a loss or a fault a settled drive goes where the control words under way lead. */
  lemma AheadStep(l: Link, e: Event)
    requires Settled(l.drive.power) && !Costs(l, e)
    ensures Settled(LinkStep(l, e).drive.power) && Ahead(LinkStep(l, e)) == Ahead(l)
  {
    if e.Deliver? && l.down != [] { ControlKeepsSettled(l.drive, l.down[0].msg); }
    hide CoreExec, ApplyControl, Answer, OnSync, EmitTpdo1, EmitTpdo2;
  }

  lemma LooselyStep(a: Link, ta: nat, b: Link, tb: nat, e: Event)
    requires Loosely(a, ta, b, tb)
    ensures Loosely(a, ta, LinkStep(b, e), tb + if Costs(b, e) then 1 else 0)
  {
    hide NoSdo, CoreExec, Pack, StatusWord, ObjectValue, ApplyControl, Bit7Clear, Answer, OnSync, EmitTpdo1, EmitTpdo2,
         Ahead;
    if NoSdo(a) { NoSdoStep(b, e); }
    if Bit7Clear(b) { Bit7ClearStep(b, e); }
    if Settled(b.drive.power) && !Costs(b, e) { AheadStep(b, e); }
    if b.down != [] && Inert(b.down[0].msg) { InertExec(b.drive.core, b.down[0].msg); }
    if b.down != [] {
      assert Fold(b.drive.core, b.down) == Fold(CoreExec(b.drive.core, b.down[0].msg), b.down[1..]);
    }
  }

  lemma DriftStep(a: Link, ta: nat, b: Link, tb: nat, e: Event)
    requires Drift(a, ta, b, tb)
    ensures Drift(a, ta, LinkStep(b, e), tb + if Costs(b, e) then 1 else 0)
  {
    LooselyStep(a, ta, b, tb, e);
    assert a.down == [] ==> b.down == [];
    hide Loosely, CoreExec, PowerExec, Answer, OnSync, EmitTpdo1, EmitTpdo2, Costs;
  }

  lemma DriftHear(a: Link, ta: nat, b: Link, tb: nat)
    requires Drift(a, ta, b, tb) && b.up != []
    ensures Drift(a, ta, b.(up := b.up[1..]), tb)
  {
    LooselyHear(a, ta, b, tb);
    hide Loosely;
  }

  lemma LooselyHear(a: Link, ta: nat, b: Link, tb: nat)
    requires Loosely(a, ta, b, tb) && b.up != []
    ensures Loosely(a, ta, b.(up := b.up[1..]), tb)
  {
  }

  lemma DriftTrans(a: Link, ta: nat, b: Link, tb: nat, c: Link, tc: nat)
    requires Drift(a, ta, b, tb) && Drift(b, tb, c, tc)
    ensures Drift(a, ta, c, tc)
  {
    hide NoSdo;
  }

  lemma DriftRefl(a: Link, ta: nat)
    ensures Drift(a, ta, a, ta)
  {
  }

  predicate WorldDrift(a: World, b: World) {
    b.links.Keys == a.links.Keys && forall n :: n in a.links ==> Drift(a.links[n], a.trouble, b.links[n], b.trouble)
  }

  lemma {:induction false} RunDrifts(w: World, cs: seq<Choice>, mode: Listening)
    ensures WorldDrift(w, Run(w, cs, mode))
  {
    if cs != [] {
      var p := Run(w, cs[..|cs| - 1], mode);
      var c := cs[|cs| - 1];
      RunDrifts(w, cs[..|cs| - 1], mode);
      StepKeepsNodes(p, c, mode);
      forall n | n in w.links
        ensures Drift(w.links[n], w.trouble, Run(w, cs, mode).links[n], Run(w, cs, mode).trouble)
      {
        hide Step, Drift, SeenFrom;
        StepSeenFrom(p, c, mode, n);
        DriftSeen(w.links[n], w.trouble, p, Step(p, c, mode), c, n);
      }
    }
  }

  lemma DriftSeen(a: Link, ta: nat, w: World, w': World, c: Choice, n: nat)
    requires n in w.links && n in w'.links && SeenFrom(w, w', c, n) && Drift(a, ta, w.links[n], w.trouble)
    requires w'.trouble == w.trouble + StepCost(w, c)
    ensures Drift(a, ta, w'.links[n], w'.trouble)
  {
    hide LinkStep, Drift;
    if c.node != n {
      DriftLater(a, ta, w.links[n], w.trouble, w'.trouble);
    } else if c.At? {
      DriftStep(a, ta, w.links[n], w.trouble, c.event);
    } else if w.links[n].up != [] {
      DriftHear(a, ta, w.links[n], w.trouble);
    }
  }

  lemma DriftLater(a: Link, ta: nat, b: Link, tb: nat, tc: nat)
    requires Drift(a, ta, b, tb) && tb <= tc
    ensures Drift(a, ta, b, tc)
  {
  }

  // Left-over answers ----------------------------------------------------------------------------------------

  /**
   SDO traffic older than request `bound` that can still reach the host is about 6040h:0 only: it comes from the
   shutdown writes of deactivate(), which nobody waits for.
   */
  predicate StaleQueues(l: Link, expired: set<nat>, bound: nat) {
    && (forall i :: 0 <= i < |l.up| && IsSdo(l.up[i].msg) && l.up[i].id < bound && l.up[i].id !in expired ==>
                      IsControlKey(l.up[i].msg.index, l.up[i].msg.subindex))
    && (forall i :: 0 <= i < |l.down| && IsSdoRequest(l.down[i].msg) && l.down[i].id < bound &&
                    l.down[i].id !in expired ==>
                      IsControlKey(l.down[i].msg.index, l.down[i].msg.subindex))
  }

  /** The same, with the answer the host holds. */
  predicate StaleOnly(l: Link, s: Option<Stored>, expired: set<nat>, bound: nat) {
    && StaleQueues(l, expired, bound)
    && (s.Some? && s.value.id < bound ==> IsControlKey(s.value.response.index, s.value.response.subindex))
  }

  lemma AnswerKeepsKey(d: Drive, m: HostMessage)
    ensures Answer(d, m).Some? ==>
              IsSdoRequest(m) && Answer(d, m).value.index == m.index && Answer(d, m).value.subindex == m.subindex
    ensures IsSdoRequest(m) && d.core.nmt != Stopped ==> Answer(d, m).Some?
  {
  }

  /** up' continues up with frames tagged `id`; an SDO answer among them is `answer`. */
  predicate Extends(up: seq<Reply>, up': seq<Reply>, id: nat, answer: Option<DriveMessage>) {
    && |up| <= |up'| && up'[..|up|] == up
    && forall i :: |up| <= i < |up'| ==>
                     up'[i].id == id && (IsSdo(up'[i].msg) ==> answer == Some(up'[i].msg))
  }

  lemma TagExtends(up: seq<Reply>, id: nat, ms: seq<DriveMessage>, answer: Option<DriveMessage>)
    requires forall i :: 0 <= i < |ms| && IsSdo(ms[i]) ==> answer == Some(ms[i])
    ensures Extends(up, up + Tag(id, ms), id, answer)
  {
    hide IsSdo;
    var t := Tag(id, ms);
    forall i | |up| <= i < |up + t| ensures (up + t)[i] == Reply(id, ms[i - |up|]) {
      assert (up + t)[i] == t[i - |up|];
    }
  }

  predicate NoNewMotion(up: seq<Reply>, up': seq<Reply>) {
    forall i :: |up| <= i < |up'| ==> !up'[i].msg.Tpdo1?
  }

  /** What an event does to the two queues. */
  lemma StepQueues(l: Link, e: Event)
    ensures var l' := LinkStep(l, e);
            var served := e.Deliver? && l.down != [];
            && (l'.down == l.down || (l.down != [] && l'.down == l.down[1..]))
            && (if served then Extends(l.up, l'.up, l.down[0].id, Answer(l.drive, l.down[0].msg))
                else Extends(l.up, l'.up, LastId(l), None) || (l.up != [] && l'.up == l.up[1..]))
            && l'.last == (if served then Some(Served(l.down[0], l.drive)) else l.last)
            && (l.drive.core.nmt != Operational && !served && |l.up| <= |l'.up| ==> NoNewMotion(l.up, l'.up))
  {
    hide EmitTpdo1, EmitTpdo2, OnSync, Exec, Answer, IsSdo, Extends;
    NoSdoInPdos(l.drive);
    match e {
      case Deliver =>
        if l.down != [] {
          var r := l.down[0];
          NoSdoInPdos(Exec(l.drive, r.msg));
          NoAnswerToOthers(l.drive, r.msg);
          var sync := if r.msg.Sync? then OnSync(Exec(l.drive, r.msg)) else [];
          TagExtends(l.up, r.id, ToSeq(Answer(l.drive, r.msg)) + sync, Answer(l.drive, r.msg));
        } else { SameExtends(l.up, LastId(l)); }
      case Fail(code) =>
        PlainFrames(code);
        SameExtends(l.up, LastId(l));
        TagExtends(l.up, LastId(l), [Emcy(code)], None);
      case Beat(state) => PlainFrames(state); TagExtends(l.up, LastId(l), [Heartbeat(state)], None);
      case Async1 =>
        PlainFrames(0);
        SameExtends(l.up, LastId(l));
        TagExtends(l.up, LastId(l), EmitTpdo1(l.drive), None);
      case Async2 =>
        PlainFrames(0);
        SameExtends(l.up, LastId(l));
        TagExtends(l.up, LastId(l), EmitTpdo2(l.drive), None);
      case _ => SameExtends(l.up, LastId(l));
    }
  }

  lemma SameExtends(up: seq<Reply>, id: nat)
    ensures Extends(up, up, id, None)
  {
  }

  lemma StaleStep(l: Link, expired: set<nat>, bound: nat, e: Event)
    requires StaleQueues(l, expired, bound)
    ensures StaleQueues(LinkStep(l, e), expired, bound)
  {
    StepQueues(l, e);
    if e.Deliver? && l.down != [] { AnswerKeepsKey(l.drive, l.down[0].msg); }
    hide LinkStep, Answer;
  }

  lemma StaleSeen(w: World, w': World, c: Choice, n: nat, bound: nat)
    requires n in w.links && n in w'.links && SeenFrom(w, w', c, n) && w'.expired == w.expired
    requires StaleQueues(w.links[n], w.expired, bound)
    ensures StaleQueues(w'.links[n], w'.expired, bound)
    ensures StaleOnly(w.links[n], StoredFor(w, n), w.expired, bound) ==>
              StaleOnly(w'.links[n], StoredFor(w', n), w'.expired, bound)
  {
    if c.At? { StaleStep(w.links[n], w.expired, bound, c.event); }
    hide LinkStep;
  }

  lemma {:induction false} RunKeepsStale(n: nat, w: World, cs: seq<Choice>, mode: Listening, bound: nat)
    requires n in w.links && StaleQueues(w.links[n], w.expired, bound)
    ensures var w' := Run(w, cs, mode);
            && n in w'.links && w'.expired == w.expired
            && StaleQueues(w'.links[n], w'.expired, bound)
            && (StaleOnly(w.links[n], StoredFor(w, n), w.expired, bound) ==>
                  StaleOnly(w'.links[n], StoredFor(w', n), w'.expired, bound))
  {
    if cs != [] {
      var p, c := Run(w, cs[..|cs| - 1], mode), cs[|cs| - 1];
      RunKeepsStale(n, w, cs[..|cs| - 1], mode, bound);
      StepKeepsNodes(p, c, mode);
      StepSeenFrom(p, c, mode, n);
      hide Step, StaleOnly, StaleQueues, SeenFrom;
      StaleSeen(p, Step(p, c, mode), c, n, bound);
    }
  }

  // One transaction ------------------------------------------------------------------------------------------

  function Rest(down: seq<Request>): seq<Request>
    requires down != []
  {
    down[..|down| - 1]
  }

  /** Request r is still under way; without it the link has only drifted from where the transaction found it. */
  predicate Unserved(a: Link, ta: nat, l: Link, t: nat, r: Request) {
    && l.down != [] && l.down[|l.down| - 1] == r && LastId(l) < r.id
    && Drift(a, ta, l.(down := Rest(l.down)), t)
  }

  /** The drive has served r, and nothing after it. */
  predicate ServedAs(a: Link, ta: nat, l: Link, t: nat, r: Request) {
    && l.down == [] && l.last.Some? && l.last.value.request == r
    && ta <= t && a.lost <= l.lost && (t == ta ==> l.lost == a.lost)
    && var b := l.last.value.before;
    && l.drive.core == CoreExec(b.core, r.msg) && b.core.node == a.drive.core.node
    && b.clearable == a.drive.clearable == l.drive.clearable
    && (a.down == [] ==> b.core == a.drive.core && l.lost == a.lost)
    && (OneNmt(a.down) ==>
          || (l.lost == a.lost && b.core == CoreExec(a.drive.core, a.down[0].msg))
          || (l.lost == a.lost + 1 && b.core == a.drive.core))
    && (AllInert(a.down) ==> Similar(a.drive.core, b.core))
    && (l.lost == a.lost ==> b.core == Fold(a.drive.core, a.down))
    && (t == ta && Settled(a.drive.power) && NoControl(a.down) ==>
          b.power == a.drive.power && l.drive.power == PowerExec(b, r.msg) && Settled(l.drive.power))
    && (t == ta && Settled(a.drive.power) ==>
          b.power == Ahead(a) && l.drive.power == PowerExec(b, r.msg) && Settled(l.drive.power))
    && (NoControl(a.down) ==> EnvPower(a.drive.power, b.power))
    && EnvPower(PowerExec(b, r.msg), l.drive.power)
    && (AllInert(a.down) && r.msg != SdoRead(POSITION_ACTUAL, 0) ==> l.reported == a.reported)
    && (r.msg == SdoRead(POSITION_ACTUAL, 0) && b.core.nmt != Stopped ==>
        l.reported == Some(Reading(b.position, r.epoch)))
    && IsInt32(b.position)
    && (l.drive.core.nmt == PreOperational ==> forall i :: 0 <= i < |l.up| && l.up[i].msg.Tpdo1? ==> l.up[i].id < r.id)
  }

  /** r was lost on its way to the drive. */
  predicate Dropped(a: Link, ta: nat, l: Link, t: nat, r: Request) {
    l.down == [] && ta < t && LastId(l) < r.id && Loosely(a, ta, l, t)
  }

  /** An answer carrying r's id is the drive's answer to r. */
  predicate Answers(l: Link, s: Option<Stored>, r: Request) {
    && (forall i :: 0 <= i < |l.up| && IsSdo(l.up[i].msg) && l.up[i].id == r.id ==>
                      && l.last.Some? && l.last.value.request == r
                      && Answer(l.last.value.before, r.msg) == Some(l.up[i].msg))
    && (s.Some? && s.value.id == r.id ==>
          && l.last.Some? && l.last.value.request == r
          && Answer(l.last.value.before, r.msg).Some?
          && s.value.response == Response(l.drive.core.node, Answer(l.last.value.before, r.msg).value))
  }

  predicate OnlyOurs(l: Link, s: Option<Stored>, r: Request) {
    && (forall i :: 0 <= i < |l.up| && IsSdo(l.up[i].msg) ==> r.id <= l.up[i].id)
    && (s.Some? ==> r.id <= s.value.id)
  }

  predicate InFlight(a: Link, ta: nat, l: Link, s: Option<Stored>, t: nat, r: Request) {
    && (Unserved(a, ta, l, t, r) || ServedAs(a, ta, l, t, r) || Dropped(a, ta, l, t, r))
    && Answers(l, s, r)
    && (NoSdo(a) ==> OnlyOurs(l, s, r))
  }

  lemma AnswersStep(l: Link, s: Option<Stored>, r: Request, e: Event)
    requires Answers(l, s, r) && LastId(l) <= r.id && SortedRequests(l.down, LastId(l), r.id + 1)
    requires l.down != [] && l.down[0].id == r.id ==> l.down[0] == r
    ensures Answers(LinkStep(l, e), s, r)
  {
    StepQueues(l, e);
    StepKeepsDriveNode(l, e);
    hide LinkStep, Answer;
  }

  lemma StepKeepsDriveNode(l: Link, e: Event)
    ensures LinkStep(l, e).drive.core.node == l.drive.core.node
    ensures LinkStep(l, e).drive.clearable == l.drive.clearable
    ensures l.lost <= LinkStep(l, e).lost
    ensures !Costs(l, e) ==> LinkStep(l, e).lost == l.lost
  {
    hide CoreExec, PowerExec;
  }

  lemma OnlyOursStep(l: Link, s: Option<Stored>, r: Request, e: Event)
    requires OnlyOurs(l, s, r)
    requires e.Deliver? && l.down != [] && IsSdoRequest(l.down[0].msg) ==> l.down[0].id == r.id
    ensures OnlyOurs(LinkStep(l, e), s, r)
  {
    StepQueues(l, e);
    if e.Deliver? && l.down != [] { AnswerKeepsKey(l.drive, l.down[0].msg); }
    hide LinkStep, Answer;
  }

  /** While r is last in the queue, whatever happens ahead of it happens as if r were not there. */
  lemma StepAheadOf(l: Link, e: Event)
    requires l.down != [] && (|l.down| > 1 || !(e.Deliver? || e.LoseDown?))
    ensures var l' := LinkStep(l, e);
            && l'.down != [] && l'.down[|l'.down| - 1] == l.down[|l.down| - 1]
            && l'.(down := Rest(l'.down)) == LinkStep(l.(down := Rest(l.down)), e)
            && (l'.last == l.last || (|l.down| > 1 && l'.last == Some(Served(l.down[0], l.drive))))
  {
    hide CoreExec, PowerExec, Answer, OnSync, EmitTpdo1, EmitTpdo2;
    if |l.down| > 1 {
      assert Rest(l.down)[1..] == Rest(l.down[1..]);
    }
  }

  lemma UnservedStep(a: Link, ta: nat, l: Link, t: nat, r: Request, e: Event)
    requires Unserved(a, ta, l, t, r) && SortedRequests(l.down, LastId(l), r.id + 1)
    requires |l.down| > 1 || !(e.Deliver? || e.LoseDown?)
    ensures Unserved(a, ta, LinkStep(l, e), t + (if Costs(l, e) then 1 else 0), r)
  {
    StepAheadOf(l, e);
    DriftStep(a, ta, l.(down := Rest(l.down)), t, e);
    hide Drift, LinkStep;
  }

  /** The drive takes the last request there is. */
  lemma DeliverLast(l: Link, r: Request)
    requires l.down == [r]
    ensures var l' := LinkStep(l, Deliver);
            && l'.down == [] && l'.last == Some(Served(r, l.drive)) && l'.lost == l.lost
            && l'.drive == Exec(l.drive, r.msg)
            && (r.msg != SdoRead(POSITION_ACTUAL, 0) ==> l'.reported == l.reported)
            && (r.msg == SdoRead(POSITION_ACTUAL, 0) && l.drive.core.nmt != Stopped ==>
                  l'.reported == Some(Reading(l.drive.position, r.epoch)))
  {
    hide CoreExec, PowerExec, ObjectValue, OnSync, EmitTpdo1, EmitTpdo2, Exec, IsReset;
  }

  /** A drive that is pre-operational afterwards has sent no TPDO1 meanwhile. */
  lemma NoMotionServed(l: Link, r: Request)
    requires l.down == [r] && RepliesUpTo(l.up, LastId(l)) && LastId(l) < r.id
    ensures var l' := LinkStep(l, Deliver);
            l'.drive.core.nmt == PreOperational ==>
              forall i :: 0 <= i < |l'.up| && l'.up[i].msg.Tpdo1? ==> l'.up[i].id < r.id
  {
    var l' := LinkStep(l, Deliver);
    StepQueues(l, Deliver);
    NoSdoInPdos(l'.drive);
    NoAnswerToOthers(l.drive, r.msg);
    hide CoreExec, PowerExec, Answer, Pack, StatusWord, ObjectValue, EmitTpdo1, EmitTpdo2;
  }

  lemma ServeR(a: Link, ta: nat, l: Link, t: nat, r: Request)
    requires Unserved(a, ta, l, t, r) && |l.down| == 1 && IsInt32(l.drive.position)
    requires RepliesUpTo(l.up, LastId(l))
    ensures ServedAs(a, ta, LinkStep(l, Deliver), t, r)
  {
    var b := l.(down := Rest(l.down));
    assert b.down == [];
    assert Fold(b.drive.core, b.down) == b.drive.core && Ahead(b) == b.drive.power;
    hide LinkStep, CoreExec, PowerExec, Fold, Ahead, Bit7Clear, NoSdo, RepliesUpTo, Similar, AllInert, NoControl;
    assert l.down == [r];
    DeliverLast(l, r);
    NoMotionServed(l, r);
    ControlKeepsSettled(l.drive, r.msg);
  }

  lemma ControlKeepsSettled(d: Drive, m: HostMessage)
    ensures Settled(d.power) ==> Settled(PowerExec(d, m))
  {
  }

  lemma DriftLost(a: Link, ta: nat, b: Link, tb: nat, m: HostMessage)
    requires Drift(a, ta, b, tb)
    ensures Loosely(a, ta, Lost(b, m), tb + 1)
  {
    hide Armed, Fold;
  }

  lemma LoseR(a: Link, ta: nat, l: Link, t: nat, r: Request)
    requires Unserved(a, ta, l, t, r) && |l.down| == 1
    ensures Dropped(a, ta, LinkStep(l, LoseDown), t + 1, r)
  {
    DriftLost(a, ta, l.(down := Rest(l.down)), t, r.msg);
    hide Drift, Loosely;
  }

  lemma ServedStep(a: Link, ta: nat, l: Link, t: nat, r: Request, e: Event)
    requires ServedAs(a, ta, l, t, r) && IsInt32(l.drive.position)
    ensures ServedAs(a, ta, LinkStep(l, e), t + (if Costs(l, e) then 1 else 0), r)
  {
    StepQueues(l, e);
    NoSdoInPdos(l.drive);
    hide CoreExec, PowerExec, Answer, EmitTpdo1, EmitTpdo2, Fold, Similar, AllInert;
  }

  lemma InFlightStep(n: nat, a: Link, ta: nat, l: Link, s: Option<Stored>, t: nat, r: Request, e: Event)
    requires InFlight(a, ta, l, s, t, r) && LinkOk(n, l, s, r.id + 1)
    ensures InFlight(a, ta, LinkStep(l, e), s, t + (if Costs(l, e) then 1 else 0), r)
  {
    if Unserved(a, ta, l, t, r) {
      assert |l.down| > 1 ==> l.down[0].id < r.id;
      assert NoSdo(a) && |l.down| > 1 ==> !IsSdoRequest(l.down[0].msg) by {
        if NoSdo(a) && |l.down| > 1 { assert Rest(l.down)[0] == l.down[0]; }
      }
      if |l.down| > 1 || !(e.Deliver? || e.LoseDown?) {
        UnservedStep(a, ta, l, t, r, e);
      } else if e.Deliver? {
        ServeR(a, ta, l, t, r);
      } else {
        LoseR(a, ta, l, t, r);
      }
    } else if ServedAs(a, ta, l, t, r) {
      ServedStep(a, ta, l, t, r, e);
    } else {
      LooselyStep(a, ta, l, t, e);
      StepQueues(l, e);
    }
    hide LinkStep, Drift, Loosely, Unserved, ServedAs, Edges, EnableGuard;
    if NoSdo(a) { OnlyOursStep(l, s, r, e); }
    AnswersStep(l, s, r, e);
  }

  lemma InFlightHear(n: nat, a: Link, ta: nat, l: Link, s: Option<Stored>, t: nat, r: Request)
    requires InFlight(a, ta, l, s, t, r) && LinkOk(n, l, s, r.id + 1) && l.up != []
    ensures var l' := l.(up := l.up[1..]);
            && InFlight(a, ta, l', s, t, r)
            && (IsSdo(l.up[0].msg) ==> InFlight(a, ta, l', Some(Stored(l.up[0].id, Response(n, l.up[0].msg))), t, r))
  {
    var l' := l.(up := l.up[1..]);
    if Unserved(a, ta, l, t, r) {
      DriftHear(a, ta, l.(down := Rest(l.down)), t);
      assert l.(down := Rest(l.down)).(up := l.up[1..]) == l'.(down := Rest(l'.down));
    } else if Dropped(a, ta, l, t, r) {
      LooselyHear(a, ta, l, t);
    }
    hide Drift, Loosely, Edges, EnableGuard, Answer;
  }

  lemma InFlightForget(a: Link, ta: nat, l: Link, s: Option<Stored>, t: nat, r: Request, t': nat)
    requires InFlight(a, ta, l, s, t, r) && t <= t'
    ensures InFlight(a, ta, l, s, t', r)
    ensures InFlight(a, ta, l, None, t', r)
  {
  }

  lemma InFlightSeen(n: nat, a: Link, ta: nat, w: World, w': World, c: Choice, r: Request)
    requires n in w.links && n in w'.links && SeenFrom(w, w', c, n)
    requires w'.trouble == w.trouble + StepCost(w, c)
    requires LinkOk(n, w.links[n], StoredFor(w, n), r.id + 1)
    requires InFlight(a, ta, w.links[n], StoredFor(w, n), w.trouble, r)
    ensures InFlight(a, ta, w'.links[n], StoredFor(w', n), w'.trouble, r)
  {
    var l, s := w.links[n], StoredFor(w, n);
    if c.node != n {
      InFlightForget(a, ta, l, s, w.trouble, r, w'.trouble);
    } else if c.At? {
      InFlightStep(n, a, ta, l, s, w.trouble, r, c.event);
    } else if l.up != [] {
      InFlightHear(n, a, ta, l, s, w.trouble, r);
    }
    hide InFlight, LinkOk, LinkStep;
  }

  /** Whatever the bus, the drives and the receive thread do, the transaction's invariant stands. */
  lemma {:induction false} RunKeepsInFlight(n: nat, a: Link, ta: nat, w: World, r: Request, cs: seq<Choice>,
                                            mode: Listening)
    requires WorldOk(w, r.id + 1) && n in w.links
    requires InFlight(a, ta, w.links[n], StoredFor(w, n), w.trouble, r)
    ensures var w' := Run(w, cs, mode);
            w'.links.Keys == w.links.Keys && InFlight(a, ta, w'.links[n], StoredFor(w', n), w'.trouble, r)
  {
    hide Step, InFlight, LinkOk, WorldOk, SeenFrom, StepCost;
    if cs != [] {
      var p, c := Run(w, cs[..|cs| - 1], mode), cs[|cs| - 1];
      var q := Step(p, c, mode);
      WorldOkRun(w, r.id + 1, cs[..|cs| - 1], mode);
      RunKeepsInFlight(n, a, ta, w, r, cs[..|cs| - 1], mode);
      StepKeepsNodes(p, c, mode);
      StepSeenFrom(p, c, mode, n);
      LinkIn(p, r.id + 1, n);
      InFlightSeen(n, a, ta, p, q, c, r);
    }
  }

  lemma LinkIn(w: World, next: nat, n: nat)
    requires WorldOk(w, next) && n in w.links
    ensures LinkOk(n, w.links[n], StoredFor(w, n), next)
  {
    hide LinkOk;
  }

  /** The test in sdo_transaction: node, index and subindex agree; byte 0 is not looked at. */
  predicate Matches(response: SdoResponse, node: nat, m: HostMessage)
    requires IsSdoRequest(m)
  {
    response.node == node && response.index == m.index && response.subindex == m.subindex
  }

  /** A drive's answer passes the test for a request exactly if it comes from that drive and is about that object. */
  lemma AnswersMatchTheirObject(d: Drive, m: HostMessage, node: nat, request: HostMessage)
    requires IsSdoRequest(m) && IsSdoRequest(request) && Answer(d, m).Some?
    ensures Matches(Response(d.core.node, Answer(d, m).value), node, request) <==>
            d.core.node == node && m.index == request.index && m.subindex == request.subindex
  {
    hide WriteObject, ObjectValue;
  }

  /**
   An answer that passes the test is the drive's answer to this very request, provided no other SDO traffic was under
   way, or the object is not the one shutdown writes address. Afterwards no SDO traffic is left.
   */
  lemma AcceptedIsOurs(n: nat, a: Link, ta: nat, l: Link, s: Option<Stored>, t: nat, r: Request, expired: set<nat>)
    requires LinkOk(n, l, s, r.id + 1) && InFlight(a, ta, l, s, t, r)
    requires IsSdoRequest(r.msg) && s.Some? && Matches(s.value.response, n, r.msg)
    requires NoSdo(a) || (StaleOnly(l, s, expired, r.id) && !IsControlKey(r.msg.index, r.msg.subindex))
    ensures s.value.id == r.id && ServedAs(a, ta, l, t, r) && NoSdo(l)
    ensures Answer(l.last.value.before, r.msg).Some?
    ensures s.value.response == Response(n, Answer(l.last.value.before, r.msg).value)
    ensures l.drive.core.nmt == PreOperational ==> forall i :: 0 <= i < |l.up| ==> !l.up[i].msg.Tpdo1?
  {
    hide Drift, Edges, EnableGuard, Answer;
    assert s.value.id == r.id;
    forall i | 0 <= i < |l.up| ensures !IsSdo(l.up[i].msg) {
      assert l.up[i].id <= r.id;
    }
  }

  /**
   The only mix-up possible, whatever happens after request r went out: a response that passes the test is the drive's
   own answer to r, or it answers an older write of 6040h:0, left over from a shutdown.
   */
  lemma MixUpIsAboutControlWords(n: nat, a: Link, ta: nat, w: World, r: Request, cs: seq<Choice>, mode: Listening)
    requires WorldOk(w, r.id + 1) && n in w.links && w.stored == None && IsSdoRequest(r.msg)
    requires InFlight(a, ta, w.links[n], None, w.trouble, r) && StaleQueues(w.links[n], w.expired, r.id)
    ensures var w' := Run(w, cs, mode);
            w'.stored.Some? && Matches(w'.stored.value.response, n, r.msg) ==>
              n in w'.links && OursOrOlder(n, a, ta, w'.links[n], w'.stored.value, w'.trouble, r)
  {
    var w' := Run(w, cs, mode);
    assert StoredFor(w, n) == None;
    hide Run, InFlight, LinkOk, WorldOk, StaleQueues, OursOrOlder;
    RunKeepsInFlight(n, a, ta, w, r, cs, mode);
    RunKeepsStale(n, w, cs, mode, r.id);
    WorldOkRun(w, r.id + 1, cs, mode);
    if w'.stored.Some? && Matches(w'.stored.value.response, n, r.msg) {
      LinkIn(w', r.id + 1, n);
      assert StoredFor(w', n) == w'.stored;
      MixUpAtLink(n, a, ta, w'.links[n], w'.stored, w'.trouble, r, w'.expired);
    }
  }

  /** The stored response is the drive's own answer to r, or answers an earlier control word while r is one too. */
  predicate OursOrOlder(n: nat, a: Link, ta: nat, l: Link, s: Stored, t: nat, r: Request)
    requires IsSdoRequest(r.msg)
  {
    if s.id == r.id then
      && ServedAs(a, ta, l, t, r) && Answer(l.last.value.before, r.msg).Some?
      && s.response == Response(n, Answer(l.last.value.before, r.msg).value)
    else s.id < r.id && IsControlKey(r.msg.index, r.msg.subindex)
  }

  lemma MixUpAtLink(n: nat, a: Link, ta: nat, l: Link, s: Option<Stored>, t: nat, r: Request, expired: set<nat>)
    requires LinkOk(n, l, s, r.id + 1) && InFlight(a, ta, l, s, t, r) && StaleOnly(l, s, expired, r.id)
    requires IsSdoRequest(r.msg) && s.Some? && Matches(s.value.response, n, r.msg)
    ensures OursOrOlder(n, a, ta, l, s.value, t, r)
  {
    hide Drift, Loosely, Edges, EnableGuard, Answer, StaleQueues;
  }

  /**
   The mix-up does happen: with the acknowledgement of the last shutdown still under way, the fault reset of the next
   activation is taken for acknowledged while it has not reached the drive.
   */
  lemma MixUpHappens(n: nat, d: Drive)
    requires IsNode(n) && d.core.node == n && !d.core.bit7 && IsInt32(d.position) && IsInt32(d.velocity)
    ensures var earlier := Request(1, 0, SdoWrite(CONTROL_WORD, 0, SHUTDOWN, 2));
            var r := Request(2, 1, SdoWrite(CONTROL_WORD, 0, FAULT_RESET, 2));
            var l := Link(d, [r], [Reply(1, Ack(CONTROL_WORD, 0))], Some(Served(earlier, d)), None, [], [], 0, 0);
            var w := World(map[n := l], None, [], {}, 0, []);
            var w' := Run(w, [Hear(n)], All);
            && WorldOk(w, 3)
            && w'.stored.Some? && Matches(w'.stored.value.response, n, r.msg) && !w'.stored.value.response.aborted
            && w'.stored.value.id < r.id && n in w'.links && w'.links[n].down == [r]
  {
    var r := Request(2, 1, SdoWrite(CONTROL_WORD, 0, FAULT_RESET, 2));
    var l := Link(d, [r], [Reply(1, Ack(CONTROL_WORD, 0))],
                  Some(Served(Request(1, 0, SdoWrite(CONTROL_WORD, 0, SHUTDOWN, 2)), d)),
                  None, [], [], 0, 0);
    var w := World(map[n := l], None, [], {}, 0, []);
    assert [Hear(n)][..0] == [];
    assert Run(w, [], All) == w;
    assert Rising(d.core.bit7, l.down) by { assert l.down[1..] == []; }
  }
}
