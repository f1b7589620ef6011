// In which order the answers of one drive are accepted.

/** What the order of the frames on the wire makes of late answers, over all schedules of the two threads. */
module AnswerOrder {
  import opened Wrappers
  import opened ReceiveThread

  /** The frames the receive thread has yet to store, oldest first. */
  function Flow(s: State): seq<Item> {
    (if HeldAnswer(s.rx).Some? then [Sdo(HeldAnswer(s.rx).value)] else []) + s.buffer
  }

  predicate SameDrive(x: Exchange, y: Exchange) {
    x.key.node == y.key.node
  }

  /** Answers of one drive come in the order of their requests, those still to come last. */
  predicate InOrder(flow: seq<Item>, pending: set<Exchange>) {
    && (forall i, j :: 0 <= i < j < |flow| && flow[i].Sdo? && flow[j].Sdo? &&
                       SameDrive(flow[i].answer, flow[j].answer) ==>
                         flow[i].answer.number < flow[j].answer.number)
    && (forall i, y :: 0 <= i < |flow| && flow[i].Sdo? && y in pending && SameDrive(flow[i].answer, y) ==>
          flow[i].answer.number < y.number)
    && (forall y, z :: y in pending && z in pending && y.number == z.number ==> y == z)
  }

  /** x came before everything still to come from its drive. */
  predicate Before(x: Exchange, flow: seq<Item>, pending: set<Exchange>) {
    && (forall i :: 0 <= i < |flow| && flow[i].Sdo? && SameDrive(x, flow[i].answer) ==>
                      x.number < flow[i].answer.number)
    && (forall y :: y in pending && SameDrive(x, y) ==> x.number < y.number)
  }

  /** No number is higher than n. */
  predicate Numbered(flow: seq<Item>, pending: set<Exchange>, n: nat) {
    && (forall i :: 0 <= i < |flow| && flow[i].Sdo? ==> flow[i].answer.number <= n)
    && (forall y :: y in pending ==> y.number <= n)
  }

  predicate Queues(s: State) {
    && InOrder(Flow(s), s.pending) && Numbered(Flow(s), s.pending, s.requests)
    && (s.response.Some? ==> Before(s.response.value, Flow(s), s.pending) && s.response.value.number <= s.requests)
  }

  predicate Accepted(s: State) {
    AllBefore(s.accepted, Flow(s), s.pending) && Listed(s.accepted, s.requests) &&
    ((InTransaction(s.main) || s.main.Cleared?) && s.response.Some? ==> AllOlder(s.accepted, s.response.value))
  }

  predicate AllBefore(accepted: seq<(Exchange, Exchange)>, flow: seq<Item>, pending: set<Exchange>) {
    forall k :: 0 <= k < |accepted| ==> Before(accepted[k].1, flow, pending)
  }

  predicate AllOlder(accepted: seq<(Exchange, Exchange)>, x: Exchange) {
    forall k :: 0 <= k < |accepted| && SameDrive(accepted[k].1, x) ==> accepted[k].1.number < x.number
  }

  /** The answers of one drive in the order of its requests, none asked for after the request it was taken for. */
  predicate Listed(accepted: seq<(Exchange, Exchange)>, n: nat) {
    && (forall k :: 0 <= k < |accepted| ==> accepted[k].1.number <= accepted[k].0.number <= n)
    && (forall i, k :: 0 <= i < k < |accepted| && SameDrive(accepted[i].1, accepted[k].1) ==>
          accepted[i].1.number < accepted[k].1.number)
  }

  lemma RxFlow(s: State, e: Action)
    requires RxStep(s, e).Some?
    ensures var s' := RxStep(s, e).value;
            && s'.pending == s.pending && s'.requests == s.requests && s'.accepted == s.accepted
            && (InTransaction(s'.main) || s'.main.Cleared? <==> InTransaction(s.main) || s.main.Cleared?)
            && (Flow(s') == Flow(s) || (Flow(s) != [] && Flow(s') == Flow(s)[1..]))
            && (if e.Store? then Flow(s) != [] && Flow(s') == Flow(s)[1..] && s'.response.Some? &&
                                 Flow(s)[0] == Sdo(s'.response.value)
                else s'.response == s.response)
  {
    RxKeepsBooks(s, e);
    if e.Take? {
      assert s.buffer == [s.buffer[0]] + s.buffer[1..];
    } else {
      RxLeavesQueues(s, e);
    }
    if e.Store? { assert Flow(s)[1..] == s.buffer; }
    hide RxStep;
  }

  lemma TailInOrder(flow: seq<Item>, pending: set<Exchange>)
    requires InOrder(flow, pending) && flow != []
    ensures InOrder(flow[1..], pending) && (flow[0].Sdo? ==> Before(flow[0].answer, flow[1..], pending))
    ensures forall n: nat :: Numbered(flow, pending, n) ==> Numbered(flow[1..], pending, n)
  {
  }

  lemma StaysBefore(x: Exchange, flow: seq<Item>, pending: set<Exchange>)
    requires Before(x, flow, pending)
    ensures flow != [] ==> Before(x, flow[1..], pending)
  {
  }

  lemma RxKeepsQueues(s: State, e: Action)
    requires RxStep(s, e).Some? && Queues(s)
    ensures Queues(RxStep(s, e).value)
  {
    RxFlow(s, e);
    hide RxStep, Flow, InOrder, Before;
    if Flow(s) != [] { TailInOrder(Flow(s), s.pending); }
    if s.response.Some? { StaysBefore(s.response.value, Flow(s), s.pending); }
  }

  lemma RxKeepsAccepted(s: State, e: Action)
    requires RxStep(s, e).Some? && Accepted(s)
    ensures Accepted(RxStep(s, e).value)
  {
    var s' := RxStep(s, e).value;
    RxFlow(s, e);
    hide RxStep, Flow, InTransaction;
    forall k | 0 <= k < |s.accepted| ensures Before(s.accepted[k].1, Flow(s'), s.pending) {
      assert Before(s.accepted[k].1, Flow(s), s.pending);
      StaysBefore(s.accepted[k].1, Flow(s), s.pending);
    }
  }

  /** An answer appears behind everything of its drive. */
  lemma EnvFlow(s: State, e: Action)
    requires EnvStep(s, e).Some?
    ensures var s' := EnvStep(s, e).value;
            && s' == s.(pending := s'.pending, buffer := s'.buffer)
            && (if e.DriveAnswers? then e.exchange in s.pending && s'.pending == Unanswered(s.pending, e.exchange)
                else s'.pending == s.pending)
            && (Flow(s') == Flow(s) || (e.DriveAnswers? && Flow(s') == Flow(s) + [Sdo(e.exchange)]) ||
                (e.DriveReports? && Flow(s') == Flow(s) + [Telemetry]))
  {
  }

  lemma InOrderAppended(flow: seq<Item>, pending: set<Exchange>, x: Exchange)
    requires InOrder(flow, pending) && x in pending
    ensures InOrder(flow, Unanswered(pending, x)) && InOrder(flow + [Sdo(x)], Unanswered(pending, x))
    ensures forall n: nat :: Numbered(flow, pending, n) ==>
              Numbered(flow, Unanswered(pending, x), n) && Numbered(flow + [Sdo(x)], Unanswered(pending, x), n)
  {
  }

  lemma BeforeAppended(a: Exchange, flow: seq<Item>, pending: set<Exchange>, x: Exchange)
    requires Before(a, flow, pending) && x in pending
    ensures Before(a, flow, Unanswered(pending, x)) && Before(a, flow + [Sdo(x)], Unanswered(pending, x))
  {
  }

  lemma TelemetryIsNothing(flow: seq<Item>, pending: set<Exchange>)
    ensures InOrder(flow, pending) ==> InOrder(flow + [Telemetry], pending)
    ensures forall a :: Before(a, flow, pending) ==> Before(a, flow + [Telemetry], pending)
    ensures forall n: nat :: Numbered(flow, pending, n) ==> Numbered(flow + [Telemetry], pending, n)
  {
  }

  lemma EnvKeepsQueues(s: State, e: Action)
    requires EnvStep(s, e).Some? && Queues(s)
    ensures Queues(EnvStep(s, e).value)
  {
    EnvFlow(s, e);
    hide EnvStep, Flow, InOrder, Before, Numbered, Unanswered;
    if e.DriveAnswers? {
      InOrderAppended(Flow(s), s.pending, e.exchange);
      if s.response.Some? { BeforeAppended(s.response.value, Flow(s), s.pending, e.exchange); }
    } else {
      TelemetryIsNothing(Flow(s), s.pending);
    }
  }

  lemma EnvKeepsAccepted(s: State, e: Action)
    requires EnvStep(s, e).Some? && Accepted(s)
    ensures Accepted(EnvStep(s, e).value)
  {
    var s' := EnvStep(s, e).value;
    EnvFlow(s, e);
    hide EnvStep, Flow, InTransaction;
    forall k | 0 <= k < |s.accepted| ensures Before(s.accepted[k].1, Flow(s'), s'.pending) {
      assert Before(s.accepted[k].1, Flow(s), s.pending);
      if e.DriveAnswers? { BeforeAppended(s.accepted[k].1, Flow(s), s.pending, e.exchange); }
    }
  }

  lemma MainFlow(s: State, e: Action)
    requires Lives(s) && MainStep(s, e).Some?
    ensures Flow(MainStep(s, e).value) == if e.Open? then [] else Flow(s)
  {
    MainLeavesQueues(s, e);
    assert e.Open? ==> s.rx.Absent?;
    hide MainStep;
  }

  /** The youngest request is the last to be answered. */
  lemma AskedLast(flow: seq<Item>, pending: set<Exchange>, n: nat, key: Key)
    requires Numbered(flow, pending, n)
    ensures var more := pending + {Exchange(n + 1, key)};
            && Numbered(flow, more, n + 1) && (InOrder(flow, pending) ==> InOrder(flow, more))
            && forall a :: Before(a, flow, pending) && a.number <= n ==> Before(a, flow, more)
  {
  }

  lemma NothingInFlow(flow: seq<Item>, pending: set<Exchange>)
    ensures InOrder(flow, pending) ==> InOrder([], pending)
    ensures forall a :: Before(a, flow, pending) ==> Before(a, [], pending)
    ensures forall n: nat :: Numbered(flow, pending, n) ==> Numbered([], pending, n)
  {
  }

  lemma MainKeepsQueues(s: State, e: Action)
    requires Lives(s) && MainStep(s, e).Some? && Queues(s)
    ensures Queues(MainStep(s, e).value)
  {
    hide MainStep, Lives, Flow, InOrder, Before, Numbered;
    MainFlow(s, e);
    MainLeavesQueues(s, e);
    NothingInFlow(Flow(s), s.pending);
    if Asks(s, e) { AskedLast(Flow(s), s.pending, s.requests, KeyAsked(s.main, e)); }
  }

  /** What the main thread does to the list of accepted answers. */
  lemma MainAccepts(s: State, e: Action)
    requires MainStep(s, e).Some?
    ensures var s' := MainStep(s, e).value;
            && (s'.accepted == s.accepted ||
                (InTransaction(s.main) && s.response.Some? && s'.main.Configuring? && (e.Check? || e.Look?) &&
                 s'.accepted == s.accepted + [(s.request, s.response.value)]))
            && (InTransaction(s'.main) ==> InTransaction(s.main) || s.main.Cleared?)
            && (s'.main.Cleared? ==> s'.response.None?)
  {
  }

  lemma MainKeepsAccepted(s: State, e: Action)
    requires Lives(s) && Rendezvous(s) && MainStep(s, e).Some? && Queues(s) && Accepted(s)
    ensures Accepted(MainStep(s, e).value)
  {
    hide MainStep, Lives, Flow, InOrder, UnderWay, AllBefore, AllOlder, Listed, Before, Numbered, LeftOver;
    var s' := MainStep(s, e).value;
    MainFlow(s, e);
    MainLeavesQueues(s, e);
    MainAccepts(s, e);
    MoreToCome(s.accepted, Flow(s), s.pending, s.requests, KeyAsked(s.main, e));
    if s'.accepted != s.accepted {
      AcceptsOneMore(s.accepted, s.request, s.response.value, Flow(s), s.pending, s.requests);
    }
  }

  lemma MoreToCome(accepted: seq<(Exchange, Exchange)>, flow: seq<Item>, pending: set<Exchange>, n: nat, key: Key)
    requires AllBefore(accepted, flow, pending) && Listed(accepted, n) && Numbered(flow, pending, n)
    ensures AllBefore(accepted, [], pending) && AllBefore(accepted, flow, pending + {Exchange(n + 1, key)})
    ensures Listed(accepted, n + 1)
  {
    NothingInFlow(flow, pending);
    AskedLast(flow, pending, n, key);
    hide Before, Numbered;
  }

  lemma AcceptsOneMore(accepted: seq<(Exchange, Exchange)>, request: Exchange, answer: Exchange, flow: seq<Item>,
                       pending: set<Exchange>, n: nat)
    requires AllBefore(accepted, flow, pending) && Before(answer, flow, pending)
    requires Listed(accepted, n) && AllOlder(accepted, answer) && answer.number <= request.number <= n
    ensures AllBefore(accepted + [(request, answer)], flow, pending) && Listed(accepted + [(request, answer)], n)
  {
    hide Before;
  }

  lemma InitiallyInOrder()
    ensures Queues(INITIAL) && Accepted(INITIAL)
  {
  }

  lemma {:induction false} AlwaysInOrder(es: seq<Action>)
    requires After(es).Some?
    ensures Queues(After(es).value) && Accepted(After(es).value)
  {
    hide Queues, Accepted, Lives, Rendezvous, MainStep, RxStep, EnvStep;
    if es == [] {
      InitiallyInOrder();
    } else {
      AlwaysInOrder(es[..|es| - 1]);
      Reachable(es[..|es| - 1]);
      var s, e := After(es[..|es| - 1]).value, es[|es| - 1];
      if IsRxStep(e) {
        RxKeepsQueues(s, e);
        RxKeepsAccepted(s, e);
      } else if IsEnvStep(e) {
        EnvKeepsQueues(s, e);
        EnvKeepsAccepted(s, e);
      } else {
        MainKeepsQueues(s, e);
        MainKeepsAccepted(s, e);
      }
    }
  }

  /**
   In every schedule the answers of one drive are accepted in the order of its requests, however late they come. A
   transaction that comes after one that accepted answer a accepts only answers to requests younger than a's.
   */
  lemma AcceptedInOrder(es: seq<Action>)
    requires After(es).Some?
    ensures var accepted := After(es).value.accepted;
            && (forall k :: 0 <= k < |accepted| ==> accepted[k].1.number <= accepted[k].0.number)
            && (forall i, k :: 0 <= i < k < |accepted| && accepted[i].1.key.node == accepted[k].1.key.node ==>
                  accepted[i].1.number < accepted[k].1.number)
  {
    AlwaysInOrder(es);
    hide After, Queues;
  }
}
