// The main thread and the receive thread of a SocketCAN backend, one atomic action at a time.

/**
 Shared state: the descriptor, `rx_running_`, `sdo_mutex_`, `sdo_response_`, the condition variable, `feedback_mutex_`.
 A backend without SDO transactions (the drivetrain's) is this machine with fewer steps taken.
 */
module ReceiveThread {
  import opened Wrappers

  /** Node and object of an SDO exchange, as sdo_transaction compares them; 6040h:0 is what deactivate() writes. */
  datatype Key = ControlWord(node: nat) | Object(node: nat, index: nat, subindex: nat)

  /** A request and the answer to it share number and key; the code sees only the key. */
  datatype Exchange = Exchange(number: nat, key: Key)

  datatype Item = Telemetry | Sdo(answer: Exchange)

  datatype Main =
    | Between                            // no call under way
    | Opened                             // activate(): socket open
    | Flagged                            //   rx_running_ set, thread not started yet
    | Configuring                        //   thread started, no transaction under way
    | Locked(key: Key)                   // sdo_transaction(): mutex taken
    | Cleared(key: Key)                  //   response reset
    | Sent(key: Key)                     //   request sent, mutex still held
    | Waiting(key: Key)                  //   mutex released, asleep on the condition variable
    | Woken(key: Key, timeUp: bool)      //   notified, timed out or woken for nothing; needs the mutex
    | Looking(key: Key, timeUp: bool)    //   mutex taken again
    | Reading(seen: nat)                 // read(): feedback mutex taken at this version of the table
    | Stopping                           // deactivate(): shutdown frames going out
    | Unflagged                          //   rx_running_ cleared
    | Joined                             //   thread gone, socket still open

  datatype Rx =
    | Absent
    | Testing                            // about to look at rx_running_
    | Receiving                          // inside receive()
    | Holding(item: Item)                // frame parsed, lock not taken
    | Storing(answer: Exchange)            // holds sdo_mutex_
    | Notifying
    | Recording                          // holds feedback_mutex_
    | Ended                              // loop left, joinable

  datatype Owner = MainThread | RxThread

  /**
   `pending` holds the requests not answered yet, over all activations; `request` is the last request a transaction
   sent, `orphans` those whose transaction ended without their answer, `timeouts` counts the transactions given up,
   `accepted` pairs each accepted answer with the request of its transaction. No thread looks at these five.
   */
  datatype State = State(main: Main, rx: Rx, sdoMutex: Option<Owner>, feedbackMutex: Option<Owner>,
                         response: Option<Exchange>, running: bool, fd: Option<nat>, opens: nat, startedOn: nat,
                         buffer: seq<Item>, requests: nat, version: nat,
                         pending: set<Exchange>, request: Exchange, orphans: set<Exchange>,
                         timeouts: nat, accepted: seq<(Exchange, Exchange)>)

  const INITIAL := State(Between, Absent, None, None, None, false, None, 0, 0, [], 0, 0,
                         {}, Exchange(0, ControlWord(0)), {}, 0, [])

  datatype Action =
    | Open | Flag | Start | Finish | Fail
    | Lock(key: Key) | Reset | Send(ok: bool) | Check | TimeOut | Spurious | Relock | Look
    | StartRead | EndRead
    | Stop | Shut(node: nat) | Unflag | Join | Close
    | Test | Expire | Take | LockSdo | Store | Notify | LockFeedback | Record
    | DriveAnswers(exchange: Exchange) | DriveReports

  predicate IsRxStep(e: Action) {
    e.Test? || e.Expire? || e.Take? || e.LockSdo? || e.Store? || e.Notify? || e.LockFeedback? || e.Record?
  }

  predicate IsEnvStep(e: Action) {
    e.DriveAnswers? || e.DriveReports?
  }

  /** The predicate the main thread waits for. */
  predicate Arrived(s: State, key: Key) {
    s.response.Some? && s.response.value.key == key
  }

  function Accept(s: State): State
    requires s.response.Some?
  {
    s.(main := Configuring, sdoMutex := None, accepted := s.accepted + [(s.request, s.response.value)],
       orphans := if s.response.value == s.request then s.orphans else s.orphans + {s.request})
  }

  /** A request is on the bus. */
  function Ask(s: State, key: Key): State {
    s.(requests := s.requests + 1, pending := s.pending + {Exchange(s.requests + 1, key)})
  }

  /** The main thread's next action; None while it is not at that point, or blocked. */
  function MainStep(s: State, e: Action): Option<State> {
    match (s.main, e)
    case (Between, Open) =>                                  // frames left in an earlier socket are gone
      if s.fd.None? && s.rx.Absent?
      then Some(s.(main := Opened, fd := Some(s.opens), opens := s.opens + 1, buffer := [])) else None
    case (Opened, Flag) => Some(s.(main := Flagged, running := true))
    case (Flagged, Start) =>
      if s.fd.Some? then Some(s.(main := Configuring, rx := Testing, startedOn := s.fd.value)) else None
    case (Configuring, Finish) => Some(s.(main := Between))
    case (Configuring, Fail) => Some(s.(main := Stopping))
    case (Configuring, Lock(key)) =>
      if s.sdoMutex.None? then Some(s.(main := Locked(key), sdoMutex := Some(MainThread))) else None
    case (Locked(key), Reset) => Some(s.(main := Cleared(key), response := None))
    case (Cleared(key), Send(ok)) =>
      if ok then Some(Ask(s, key).(main := Sent(key), request := Exchange(s.requests + 1, key)))
      else Some(s.(main := Stopping, sdoMutex := None))
    case (Sent(key), Check) =>
      if Arrived(s, key) then Some(Accept(s)) else Some(s.(main := Waiting(key), sdoMutex := None))
    case (Waiting(key), TimeOut) => Some(s.(main := Woken(key, true)))
    case (Waiting(key), Spurious) => Some(s.(main := Woken(key, false)))
    case (Woken(key, timeUp), Relock) =>
      if s.sdoMutex.None? then Some(s.(main := Looking(key, timeUp), sdoMutex := Some(MainThread))) else None
    case (Looking(key, timeUp), Look) =>
      if Arrived(s, key) then Some(Accept(s))
      else if timeUp then
        Some(s.(main := Stopping, sdoMutex := None, orphans := s.orphans + {s.request}, timeouts := s.timeouts + 1))
      else Some(s.(main := Waiting(key), sdoMutex := None))
    case (Between, StartRead) =>
      if s.fd.Some? && s.feedbackMutex.None?
      then Some(s.(main := Reading(s.version), feedbackMutex := Some(MainThread))) else None
    case (Reading(_), EndRead) => Some(s.(main := Between, feedbackMutex := None))
    case (Between, Stop) => if s.fd.Some? then Some(s.(main := Stopping)) else Some(s.(running := false))
    // the shutdown write of deactivate(), nobody waits
    case (Stopping, Shut(node)) => Some(Ask(s, ControlWord(node)))
    case (Stopping, Unflag) => Some(s.(main := Unflagged, running := false))
    case (Unflagged, Join) => if s.rx.Ended? then Some(s.(main := Joined, rx := Absent)) else None
    case (Joined, Close) => Some(s.(main := Between, fd := None))
    case _ => None
  }

  /** The receive thread's next action. */
  function RxStep(s: State, e: Action): Option<State> {
    match (s.rx, e)
    case (Testing, Test) => Some(s.(rx := if s.running then Receiving else Ended))
    case (Receiving, Expire) => Some(s.(rx := Testing))
    case (Receiving, Take) =>
      if s.buffer != [] then Some(s.(rx := Holding(s.buffer[0]), buffer := s.buffer[1..])) else None
    case (Holding(Sdo(a)), LockSdo) =>
      if s.sdoMutex.None? then Some(s.(rx := Storing(a), sdoMutex := Some(RxThread))) else None
    case (Storing(a), Store) => Some(s.(rx := Notifying, response := Some(a), sdoMutex := None))
    case (Notifying, Notify) =>
      Some(s.(rx := Testing, main := if s.main.Waiting? then Woken(s.main.key, false) else s.main))
    case (Holding(Telemetry), LockFeedback) =>
      if s.feedbackMutex.None? then Some(s.(rx := Recording, feedbackMutex := Some(RxThread))) else None
    case (Recording, Record) => Some(s.(rx := Testing, version := s.version + 1, feedbackMutex := None))
    case _ => None
  }

  /** What may still be answered after x: everything but x and the older requests to its drive. */
  function Unanswered(pending: set<Exchange>, x: Exchange): set<Exchange> {
    set y | y in pending && y != x && !(y.key.node == x.key.node && y.number < x.number)
  }

  /**
   A drive answers each request at most once, at any later time, in whatever socket is open then, if any. Its answers
   keep the order of the requests: one that was passed over does not come any more.
   */
  function EnvStep(s: State, e: Action): Option<State> {
    match e
    case DriveAnswers(x) =>
      if x !in s.pending then None
      else Some(s.(pending := Unanswered(s.pending, x),
                   buffer := if s.fd.Some? then s.buffer + [Sdo(x)] else s.buffer))
    case DriveReports => if s.fd.Some? then Some(s.(buffer := s.buffer + [Telemetry])) else None
    case _ => None
  }

  function Next(s: State, e: Action): Option<State> {
    if IsRxStep(e) then RxStep(s, e) else if IsEnvStep(e) then EnvStep(s, e) else MainStep(s, e)
  }

  /** The state after a schedule; None if some step of it was not possible. */
  function After(es: seq<Action>): Option<State> {
    if es == [] then Some(INITIAL)
    else
      var before := After(es[..|es| - 1]);
      if before.None? then None else Next(before.value, es[|es| - 1])
  }

  // Invariant ------------------------------------------------------------------------------------------------

  predicate HasSdoMutex(m: Main) {
    m.Locked? || m.Cleared? || m.Sent? || m.Looking?
  }

  predicate InTransaction(m: Main) {
    m.Sent? || m.Waiting? || m.Woken? || m.Looking?
  }

  predicate Locks(s: State) {
    && (s.sdoMutex == Some(MainThread) <==> HasSdoMutex(s.main))
    && (s.sdoMutex == Some(RxThread) <==> s.rx.Storing?)
    && (s.feedbackMutex == Some(MainThread) <==> s.main.Reading?)
    && (s.feedbackMutex == Some(RxThread) <==> s.rx.Recording?)
    && (s.main.Reading? ==> s.version == s.main.seen)
  }

  /** Descriptor, flag and thread at each point of the main thread. */
  predicate Lives(s: State) {
    && (!s.rx.Absent? ==> s.fd == Some(s.startedOn))
    && (s.rx.Ended? ==> !s.running)
    && (match s.main
        case Between => s.fd.Some? == s.running == !s.rx.Absent?
        case Opened => s.fd.Some? && s.rx.Absent? && !s.running
        case Flagged => s.fd.Some? && s.rx.Absent? && s.running
        case Unflagged => s.fd.Some? && !s.rx.Absent? && !s.running
        case Joined => s.fd.Some? && s.rx.Absent? && !s.running
        case _ => s.fd.Some? && !s.rx.Absent? && s.running)
  }

  function HeldAnswer(rx: Rx): Option<Exchange> {
    match rx
    case Holding(Sdo(a)) => Some(a)
    case Storing(a) => Some(a)
    case _ => None
  }

  /** How often the answer of exchange x is to come, in the socket, parsed but blocked on the mutex, or being stored. */
  function UnderWay(s: State, x: Exchange): nat {
    (if x in s.pending then 1 else 0) + multiset(s.buffer)[Sdo(x)] + if HeldAnswer(s.rx) == Some(x) then 1 else 0
  }

  function IsStored(s: State, x: Exchange): nat {
    if s.response == Some(x) then 1 else 0
  }

  /** Every exchange has at most one answer, wherever it is. */
  ghost predicate Single(s: State) {
    forall x :: UnderWay(s, x) + IsStored(s, x) <= 1 && (UnderWay(s, x) + IsStored(s, x) > 0 ==> x.number <= s.requests)
  }

  /** The answer of an exchange nobody waits for: about 6040h:0, or its transaction has ended without it. */
  predicate LeftOver(s: State, x: Exchange) {
    x.key.ControlWord? || x in s.orphans
  }

  /** What an answer under way or stored can be, and that the one waited for is not lost unless overwritten. */
  ghost predicate Rendezvous(s: State) {
    && (forall x :: UnderWay(s, x) > 0 ==> LeftOver(s, x) || (InTransaction(s.main) && x == s.request))
    && (InTransaction(s.main) ==>
          && s.main.key == s.request.key && s.request.number == s.requests
          && (s.response.Some? && s.response.value != s.request ==> LeftOver(s, s.response.value))
          && (UnderWay(s, s.request) == 0 ==> s.response.Some?))
    && (s.main.Cleared? ==> s.response == None)
    && (s.main.Waiting? && Arrived(s, s.main.key) ==> s.rx.Notifying?)
    && (forall k :: 0 <= k < |s.accepted| ==> Ours(s, s.accepted[k].0, s.accepted[k].1))
    && (s.timeouts == 0 ==> forall x :: x in s.orphans ==> x.key.ControlWord?)
  }

  /** The answer belongs to the request, or is a left-over about the same object. */
  predicate Ours(s: State, request: Exchange, answer: Exchange) {
    answer == request || (answer.key == request.key && LeftOver(s, answer))
  }

  ghost predicate Inv(s: State) {
    Locks(s) && Lives(s) && Single(s) && Rendezvous(s)
  }

  lemma MainKeepsLocks(s: State, e: Action)
    requires Locks(s) && Lives(s) && MainStep(s, e).Some?
    ensures Locks(MainStep(s, e).value)
  {
    hide Arrived;
  }

  lemma MainKeepsLives(s: State, e: Action)
    requires Lives(s) && MainStep(s, e).Some?
    ensures Lives(MainStep(s, e).value)
  {
    hide Arrived;
  }

  lemma MainKeepsSingle(s: State, e: Action)
    requires Lives(s) && Single(s) && MainStep(s, e).Some?
    ensures Single(MainStep(s, e).value)
  {
    var s' := MainStep(s, e).value;
    forall x ensures UnderWay(s', x) + IsStored(s', x) <= 1
      ensures UnderWay(s', x) + IsStored(s', x) > 0 ==> x.number <= s'.requests
    {
      assert UnderWay(s, x) + IsStored(s, x) <= 1;
      MainMovesNothing(s, e, x);
    }
  }

  /**
   The main thread adds an answer to come by asking, and drops answers by resetting the response or opening a socket.
   */
  lemma MainMovesNothing(s: State, e: Action, x: Exchange)
    requires Lives(s) && MainStep(s, e).Some?
    ensures var s' := MainStep(s, e).value;
            && UnderWay(s', x) <= UnderWay(s, x) + (if Asks(s, e) && x.number == s.requests + 1 then 1 else 0)
            && (!e.Open? ==> UnderWay(s, x) <= UnderWay(s', x))
            && (s'.response == s.response || (e.Reset? && s'.response == None))
            && s'.requests == s.requests + if Asks(s, e) then 1 else 0
  {
    MainLeavesQueues(s, e);
    hide MainStep;
  }

  predicate Asks(s: State, e: Action) {
    e.Shut? || (e.Send? && e.ok)
  }

  function KeyAsked(m: Main, e: Action): Key {
    if e.Shut? then ControlWord(e.node) else if m.Cleared? then m.key else ControlWord(0)
  }

  lemma MainLeavesQueues(s: State, e: Action)
    requires Lives(s) && MainStep(s, e).Some?
    ensures var s' := MainStep(s, e).value;
            && HeldAnswer(s'.rx) == HeldAnswer(s.rx)
            && s'.buffer == (if e.Open? then [] else s.buffer)
            && (s'.response == s.response || (e.Reset? && s'.response == None))
            && s'.requests == s.requests + (if Asks(s, e) then 1 else 0)
            && (!Asks(s, e) ==> s'.pending == s.pending)
            && (Asks(s, e) ==> s'.pending == s.pending + {Exchange(s.requests + 1, KeyAsked(s.main, e))})
  {
    hide Arrived;
  }

  /** What the main thread does to the books of the rendezvous. */
  lemma MainBooks(s: State, e: Action)
    requires Lives(s) && MainStep(s, e).Some?
    ensures var s' := MainStep(s, e).value;
            && (InTransaction(s'.main) && !e.Send? ==>
                  InTransaction(s.main) && s'.main.key == s.main.key && s'.requests == s.requests)
            && (e.Send? && e.ok ==>
                  && s.main.Cleared? && s'.main == Sent(s.main.key) &&
                      s'.request == Exchange(s.requests + 1, s.main.key)
                  && s'.request in s'.pending)
            && (!e.Send? || !e.ok ==> s'.request == s.request)
            && (s'.main.Cleared? ==> s'.response == None)
            && (s'.main.Waiting? ==> !Arrived(s', s'.main.key))
            && (s'.orphans == s.orphans || s'.orphans == s.orphans + {s.request})
            && s.timeouts <= s'.timeouts
  {
  }

  /** How a transaction ends. */
  lemma MainEnds(s: State, e: Action)
    requires MainStep(s, e).Some? && InTransaction(s.main)
    ensures var s' := MainStep(s, e).value;
            var accepts := (e.Check? || e.Look?) && Arrived(s, s.main.key);
            && (s'.accepted == if accepts then s.accepted + [(s.request, s.response.value)] else s.accepted)
            && (!InTransaction(s'.main) ==> s.request in s'.orphans || (accepts && s.response.value == s.request))
            && (s'.orphans == s.orphans || s'.timeouts > s.timeouts || (accepts && s.response.value != s.request))
  {
  }

  lemma MainKeepsRendezvous(s: State, e: Action)
    requires Lives(s) && Single(s) && Rendezvous(s) && MainStep(s, e).Some?
    ensures Rendezvous(MainStep(s, e).value)
  {
    var s' := MainStep(s, e).value;
    MainBooks(s, e);
    if InTransaction(s.main) { MainEnds(s, e); } else { MainBooksOutside(s, e); }
    hide MainStep;
    forall x ensures UnderWay(s', x) > 0 ==> LeftOver(s', x) || (InTransaction(s'.main) && x == s'.request) {
      MainMovesNothing(s, e, x);
      assert UnderWay(s, x) + IsStored(s, x) <= 1;
      hide UnderWay;
    }
    MainMovesNothing(s, e, s.request);
    hide UnderWay, Single;
    forall k | 0 <= k < |s'.accepted| ensures Ours(s', s'.accepted[k].0, s'.accepted[k].1) {
      if k < |s.accepted| { assert Ours(s, s.accepted[k].0, s.accepted[k].1); }
    }
  }

  lemma MainBooksOutside(s: State, e: Action)
    requires MainStep(s, e).Some? && !InTransaction(s.main)
    ensures var s' := MainStep(s, e).value;
            s'.accepted == s.accepted && s'.orphans == s.orphans && s'.timeouts == s.timeouts
  {
  }

  lemma MainKeepsInv(s: State, e: Action)
    requires Inv(s) && MainStep(s, e).Some?
    ensures Inv(MainStep(s, e).value)
  {
    hide Locks, Lives, Single, Rendezvous, MainStep;
    MainKeepsLocks(s, e);
    MainKeepsLives(s, e);
    MainKeepsSingle(s, e);
    MainKeepsRendezvous(s, e);
  }

  lemma RxKeepsFlags(s: State, e: Action)
    requires Locks(s) && Lives(s) && RxStep(s, e).Some?
    ensures Locks(RxStep(s, e).value) && Lives(RxStep(s, e).value)
  {
  }

  /** The receive thread moves answers on and never makes one. */
  lemma RxMoves(s: State, e: Action, x: Exchange)
    requires RxStep(s, e).Some?
    ensures var s' := RxStep(s, e).value;
            && UnderWay(s', x) <= UnderWay(s, x)
            && (!e.Store? ==> UnderWay(s', x) == UnderWay(s, x) && s'.response == s.response)
            && (e.Store? ==> s'.response.Some? && UnderWay(s, s'.response.value) > 0 &&
                             UnderWay(s', x) + IsStored(s', x) == UnderWay(s, x))
  {
    if e.Take? { TakeMoves(s, x); } else { RxLeavesQueues(s, e); hide RxStep; }
  }

  lemma TakeMoves(s: State, x: Exchange)
    requires RxStep(s, Take).Some?
    ensures UnderWay(RxStep(s, Take).value, x) == UnderWay(s, x) && RxStep(s, Take).value.response == s.response
  {
    assert s.buffer == [s.buffer[0]] + s.buffer[1..];
    assert multiset(s.buffer) == multiset{s.buffer[0]} + multiset(s.buffer[1..]);
  }

  lemma RxLeavesQueues(s: State, e: Action)
    requires RxStep(s, e).Some? && !e.Take?
    ensures var s' := RxStep(s, e).value;
            && s'.buffer == s.buffer && s'.pending == s.pending
            && (!e.Store? ==> HeldAnswer(s'.rx) == HeldAnswer(s.rx) && s'.response == s.response)
            && (e.Store? ==> HeldAnswer(s'.rx) == None && HeldAnswer(s.rx).Some? && s'.response == HeldAnswer(s.rx))
  {
  }

  lemma RxKeepsSingle(s: State, e: Action)
    requires Single(s) && RxStep(s, e).Some?
    ensures Single(RxStep(s, e).value)
  {
    var s' := RxStep(s, e).value;
    RxKeepsBooks(s, e);
    hide UnderWay, RxStep;
    forall x ensures UnderWay(s', x) + IsStored(s', x) <= 1
      ensures UnderWay(s', x) + IsStored(s', x) > 0 ==> x.number <= s'.requests
    {
      assert UnderWay(s, x) + IsStored(s, x) <= 1;
      RxMoves(s, e, x);
    }
  }

  lemma RxKeepsBooks(s: State, e: Action)
    requires RxStep(s, e).Some?
    ensures var s' := RxStep(s, e).value;
            && s'.requests == s.requests && s'.request == s.request && s'.orphans == s.orphans &&
                s'.accepted == s.accepted
            && s'.timeouts == s.timeouts
            && (s'.main == s.main || (e.Notify? && s.main.Waiting? && s'.main == Woken(s.main.key, false)))
            && (s.rx.Notifying? ==> e.Notify?) && (e.Store? ==> s'.rx.Notifying?)
  {
    assert e.Store? ==> s.rx.Storing?;
  }

  lemma RxKeepsRendezvous(s: State, e: Action)
    requires Locks(s) && Rendezvous(s) && RxStep(s, e).Some?
    ensures Rendezvous(RxStep(s, e).value)
  {
    var s' := RxStep(s, e).value;
    RxKeepsBooks(s, e);
    assert e.Store? ==> s.rx.Storing?;
    forall x ensures UnderWay(s', x) <= UnderWay(s, x)
      ensures !e.Store? ==> UnderWay(s', x) == UnderWay(s, x) && s'.response == s.response
      ensures e.Store? ==> s'.response.Some? && UnderWay(s, s'.response.value) > 0
    {
      RxMoves(s, e, x);
    }
    hide UnderWay, RxStep;
  }

  lemma RxKeepsInv(s: State, e: Action)
    requires Inv(s) && RxStep(s, e).Some?
    ensures Inv(RxStep(s, e).value)
  {
    hide Locks, Lives, Single, Rendezvous, RxStep;
    RxKeepsFlags(s, e);
    RxKeepsSingle(s, e);
    RxKeepsRendezvous(s, e);
  }

  /** An answer appearing in the socket was to come; with the socket closed it is gone. */
  lemma EnvMoves(s: State, e: Action, x: Exchange)
    requires EnvStep(s, e).Some?
    ensures var s' := EnvStep(s, e).value;
            && UnderWay(s', x) <= UnderWay(s, x)
            && (s.fd.Some? && (e.DriveAnswers? ==> e.exchange.number <= x.number) ==> UnderWay(s', x) == UnderWay(s, x))
  {
    var s' := EnvStep(s, e).value;
    var item := if e.DriveAnswers? then Sdo(e.exchange) else Telemetry;
    if s.fd.Some? {
      assert s'.buffer == s.buffer + [item];
      BufferAppend(s.buffer, item, x);
      assert multiset(s'.buffer)[Sdo(x)] == multiset(s.buffer)[Sdo(x)] + if item == Sdo(x) then 1 else 0;
    }
  }

  lemma BufferAppend(buffer: seq<Item>, item: Item, x: Exchange)
    ensures multiset(buffer + [item])[Sdo(x)] == multiset(buffer)[Sdo(x)] + if item == Sdo(x) then 1 else 0
  {
    assert multiset(buffer + [item]) == multiset(buffer) + multiset{item};
  }

  lemma EnvKeepsInv(s: State, e: Action)
    requires Inv(s) && EnvStep(s, e).Some?
    ensures Inv(EnvStep(s, e).value)
  {
    var s' := EnvStep(s, e).value;
    assert s' == s.(pending := s'.pending, buffer := s'.buffer);
    assert InTransaction(s.main) ==> s.fd.Some?;
    forall x ensures UnderWay(s', x) <= UnderWay(s, x)
      ensures s.fd.Some? && (e.DriveAnswers? ==> e.exchange.number <= x.number) ==> UnderWay(s', x) == UnderWay(s, x)
    {
      EnvMoves(s, e, x);
    }
    if e.DriveAnswers? {
      assert UnderWay(s, e.exchange) + IsStored(s, e.exchange) <= 1;
      assert e.exchange.number <= s.requests;
    }
    hide UnderWay, EnvStep, InTransaction;
    assert Locks(s') && Lives(s') && Rendezvous(s');
    assert forall x :: UnderWay(s', x) + IsStored(s', x) <= UnderWay(s, x) + IsStored(s, x);
    assert Single(s');
  }

  lemma NextKeepsInv(s: State, e: Action)
    requires Inv(s) && Next(s, e).Some?
    ensures Inv(Next(s, e).value)
  {
    hide Inv, MainStep, RxStep, EnvStep;
    if IsRxStep(e) { RxKeepsInv(s, e); } else if IsEnvStep(e) { EnvKeepsInv(s, e); } else { MainKeepsInv(s, e); }
  }

  lemma {:induction false} Reachable(es: seq<Action>)
    requires After(es).Some?
    ensures Inv(After(es).value)
  {
    if es != [] {
      Reachable(es[..|es| - 1]);
      var s, e := After(es[..|es| - 1]).value, es[|es| - 1];
      hide Inv, Next;
      NextKeepsInv(s, e);
    }
  }

  // What every schedule guarantees ---------------------------------------------------------------------------

  /**
   Whatever the interleaving and however late answers come: the answer a transaction accepts is the one to its own
   request, or a left-over about the same object, which is 6040h:0 as long as no transaction has timed out.
   */
  lemma EveryAcceptedAnswerIsOurs(es: seq<Action>)
    requires After(es).Some?
    ensures var s := After(es).value;
            forall k :: 0 <= k < |s.accepted| ==>
              var (request, answer) := s.accepted[k];
              && answer.key == request.key
              && (answer == request || answer.key.ControlWord? || answer in s.orphans)
              && (s.timeouts == 0 && !request.key.ControlWord? ==> answer == request)
  {
    Reachable(es);
    var s := After(es).value;
    hide After, Locks, Lives, Single;
    forall k | 0 <= k < |s.accepted|
      ensures var (request, answer) := s.accepted[k];
              && answer.key == request.key
              && (answer == request || answer.key.ControlWord? || answer in s.orphans)
              && (s.timeouts == 0 && !request.key.ControlWord? ==> answer == request)
    {
      assert Ours(s, s.accepted[k].0, s.accepted[k].1);
    }
  }

  /**
   Every request has at most one answer anywhere: to come, in the socket, parsed but blocked on the mutex, being stored,
   or stored. During a transaction each of them is the one waited for or a left-over, and the one waited for is
   somewhere unless a left-over was stored over it.
   */
  lemma AtMostOneAnswer(es: seq<Action>, x: Exchange)
    requires After(es).Some?
    ensures var s := After(es).value;
            && UnderWay(s, x) + IsStored(s, x) <= 1
            && (InTransaction(s.main) && UnderWay(s, x) + IsStored(s, x) > 0 ==> x == s.request || LeftOver(s, x))
            && (InTransaction(s.main) && UnderWay(s, s.request) + IsStored(s, s.request) == 0 ==>
                  s.response.Some? && LeftOver(s, s.response.value))
            && (s.timeouts == 0 && LeftOver(s, x) ==> x.key.ControlWord?)
  {
    Reachable(es);
    hide After, Locks, Lives, UnderWay;
  }

  lemma Then(es: seq<Action>, s: State, e: Action) returns (more: seq<Action>, s': State)
    requires After(es) == Some(s) && Next(s, e).Some?
    ensures s' == Next(s, e).value && After(more) == Some(s')
  {
    more, s' := es + [e], Next(s, e).value;
    assert more[..|more| - 1] == es;
    hide Next;
  }

  /** activate() up to the first transaction. */
  lemma Activates(es: seq<Action>, s: State) returns (more: seq<Action>, s': State)
    requires After(es) == Some(s) && s.main.Between? && s.fd.None? && s.rx.Absent?
    ensures s' == s.(main := Configuring, rx := Testing, running := true, fd := Some(s.opens), opens := s.opens + 1,
                     startedOn := s.opens, buffer := [])
    ensures After(more) == Some(s')
  {
    hide After, RxStep, EnvStep;
    more, s' := Then(es, s, Open);
    more, s' := Then(more, s', Flag);
    more, s' := Then(more, s', Start);
  }

  /** deactivate() with one drive, which does not answer yet: the shutdown write ... */
  lemma ShutsDown(es: seq<Action>, s: State, node: nat) returns (more: seq<Action>, s': State)
    requires After(es) == Some(s) && s.main.Configuring?
    ensures s' == Ask(s, ControlWord(node)).(main := Stopping) && After(more) == Some(s')
  {
    hide After, RxStep, EnvStep, Arrived;
    more, s' := Then(es, s, Fail);
    more, s' := Then(more, s', Shut(node));
  }

  /** ... the end of the receive thread ... */
  lemma ThreadEnds(es: seq<Action>, s: State) returns (more: seq<Action>, s': State)
    requires After(es) == Some(s) && s.main.Stopping? && s.rx.Testing?
    ensures s' == s.(main := Unflagged, rx := Ended, running := false) && After(more) == Some(s')
  {
    hide After, EnvStep, Arrived;
    more, s' := Then(es, s, Unflag);
    hide MainStep;
    more, s' := Then(more, s', Test);
  }

  /** ... and of the socket. */
  lemma Closes(es: seq<Action>, s: State) returns (more: seq<Action>, s': State)
    requires After(es) == Some(s) && s.main.Unflagged? && s.rx.Ended?
    ensures s' == s.(main := Between, rx := Absent, fd := None) && After(more) == Some(s')
  {
    hide After, RxStep, EnvStep, Arrived;
    more, s' := Then(es, s, Join);
    more, s' := Then(more, s', Close);
  }

  /** A transaction up to its request ... */
  lemma Requests(es: seq<Action>, s: State, key: Key) returns (more: seq<Action>, s': State)
    requires After(es) == Some(s) && s.main.Configuring? && s.sdoMutex.None?
    ensures s' == Ask(s, key).(main := Sent(key), sdoMutex := Some(MainThread), response := None,
                               request := Exchange(s.requests + 1, key))
    ensures After(more) == Some(s')
  {
    hide After, RxStep, EnvStep, Arrived;
    more, s' := Then(es, s, Lock(key));
    more, s' := Then(more, s', Reset);
    more, s' := Then(more, s', Send(true));
  }

  /** ... and its wait. */
  lemma Waits(es: seq<Action>, s: State) returns (more: seq<Action>, s': State)
    requires After(es) == Some(s) && s.main.Sent? && s.response.None?
    ensures s' == s.(main := Waiting(s.main.key), sdoMutex := None) && After(more) == Some(s')
  {
    hide After, RxStep, EnvStep;
    more, s' := Then(es, s, Check);
  }

  /** The receive thread stores the oldest frame. */
  lemma StoreNext(es: seq<Action>, s: State, x: Exchange) returns (more: seq<Action>, s': State)
    requires After(es) == Some(s) && s.rx.Testing? && s.running && s.sdoMutex.None?
    requires s.buffer != [] && s.buffer[0] == Sdo(x)
    ensures s' == s.(rx := Notifying, buffer := s.buffer[1..], response := Some(x)) && After(more) == Some(s')
  {
    hide After, MainStep, EnvStep;
    more, s' := Then(es, s, Test);
    more, s' := Then(more, s', Take);
    more, s' := Then(more, s', LockSdo);
    more, s' := Then(more, s', Store);
  }

  /**
   It does get lost that way: a left-over acknowledgement stored between the answer and the main thread's look takes its
   place. The main thread is woken, finds the wrong object and sleeps on; no answer to its request is left anywhere.
   */
  lemma AnswerCanBeOverwritten(node: nat, key: Key) returns (es: seq<Action>, s: State)
    requires key.node != node
    ensures After(es) == Some(s) && s.main == Waiting(key) && s.timeouts == 0 && s.request == Exchange(2, key)
    ensures s.response == Some(Exchange(1, ControlWord(node))) && UnderWay(s, s.request) + IsStored(s, s.request) == 0
  {
    var late, ours := Exchange(1, ControlWord(node)), Exchange(2, key);
    hide After, MainStep, RxStep, Next;
    es, s := WaitingBehind(node, key);
    es, s := AnswerArrives(es, s, ours);
    es, s := AnswerArrives(es, s, late);
    es, s := StoreNext(es, s, ours);
    es, s := Wakes(es, s);
    es, s := StoreNext(es, s, late);
    es, s := SleepsOn(es, s);
  }

  /** A deactivation whose shutdown write is not answered yet ... */
  lemma Unacknowledged(node: nat) returns (es: seq<Action>, s: State)
    ensures s == INITIAL.(opens := 1, requests := 1, pending := {Exchange(1, ControlWord(node))}) &&
            After(es) == Some(s)
  {
    assert After([]) == Some(INITIAL);
    hide After, MainStep, RxStep, Next;
    es, s := Activates([], INITIAL);
    es, s := ShutsDown(es, s, node);
    es, s := ThreadEnds(es, s);
    es, s := Closes(es, s);
    assert s.pending == {Exchange(1, ControlWord(node))};
  }

  /** ... and the next activation waiting for the answer about another object. */
  lemma WaitingBehind(node: nat, key: Key) returns (es: seq<Action>, s: State)
    ensures s == State(Waiting(key), Testing, None, None, None, true, Some(1), 2, 1, [], 2, 0,
                       {Exchange(1, ControlWord(node)), Exchange(2, key)}, Exchange(2, key), {}, 0, [])
    ensures After(es) == Some(s)
  {
    hide After, MainStep, RxStep, Next;
    es, s := Unacknowledged(node);
    es, s := Activates(es, s);
    es, s := Requests(es, s, key);
    es, s := Waits(es, s);
    assert s.pending == {Exchange(1, ControlWord(node)), Exchange(2, key)};
  }

  lemma AnswerArrives(es: seq<Action>, s: State, x: Exchange) returns (more: seq<Action>, s': State)
    requires After(es) == Some(s) && x in s.pending && s.fd.Some?
    ensures s' == s.(pending := Unanswered(s.pending, x), buffer := s.buffer + [Sdo(x)]) && After(more) == Some(s')
  {
    hide After, MainStep, RxStep;
    more, s' := Then(es, s, DriveAnswers(x));
  }

  lemma Wakes(es: seq<Action>, s: State) returns (more: seq<Action>, s': State)
    requires After(es) == Some(s) && s.main.Waiting? && s.rx.Notifying?
    ensures s' == s.(main := Woken(s.main.key, false), rx := Testing) && After(more) == Some(s')
  {
    hide After, MainStep, EnvStep;
    more, s' := Then(es, s, Notify);
  }

  lemma SleepsOn(es: seq<Action>, s: State) returns (more: seq<Action>, s': State)
    requires After(es) == Some(s) && s.main.Woken? && !s.main.timeUp && s.sdoMutex.None? && !Arrived(s, s.main.key)
    ensures s' == s.(main := Waiting(s.main.key)) && After(more) == Some(s')
  {
    hide After, RxStep, EnvStep;
    more, s' := Then(es, s, Relock);
    more, s' := Then(more, s', Look);
  }

  /** While the main thread sleeps, an answer it waits for cannot be stored without a wakeup on its way. */
  lemma NoLostWakeup(es: seq<Action>)
    requires After(es).Some? && After(es).value.main.Waiting?
    ensures Arrived(After(es).value, After(es).value.main.key) ==> After(es).value.rx.Notifying?
  {
    Reachable(es);
    hide After;
  }

  /** A live receive thread works on the descriptor it was started with; between calls the three flags agree. */
  lemma DescriptorOutlivesThread(es: seq<Action>)
    requires After(es).Some?
    ensures var s := After(es).value;
            && (!s.rx.Absent? ==> s.fd == Some(s.startedOn))
            && (s.main.Between? ==> s.fd.Some? == s.running == !s.rx.Absent?)
  {
    Reachable(es);
    hide After;
  }

  /** While read() copies the table, no frame is recorded in it. */
  lemma ReadSeesOneInstant(es: seq<Action>)
    requires After(es).Some? && After(es).value.main.Reading?
    ensures After(es).value.version == After(es).value.main.seen && !After(es).value.rx.Recording?
  {
    Reachable(es);
    hide After;
  }

  /** What is left for the receive thread to do once the flag is down. */
  function Rank(rx: Rx): nat {
    match rx
    case Absent => 0
    case Ended => 0
    case Testing => 1
    case Notifying => 2
    case Recording => 2
    case Storing(_) => 3
    case Holding(_) => 4
    case Receiving => 5
  }

  function RxSteps(es: seq<Action>): nat {
    if es == [] then 0 else RxSteps(es[..|es| - 1]) + if IsRxStep(es[|es| - 1]) then 1 else 0
  }

  function RxNext(s: State): Action {
    match s.rx
    case Testing => Test
    case Receiving => Expire
    case Holding(item) => if item.Sdo? then LockSdo else LockFeedback
    case Storing(_) => Store
    case Notifying => Notify
    case _ => Record
  }

  lemma RxCanAct(s: State)
    requires Locks(s) && !s.rx.Absent? && !s.rx.Ended? && !HasSdoMutex(s.main) && !s.main.Reading?
    ensures IsRxStep(RxNext(s)) && RxStep(s, RxNext(s)).Some?
  {
    assert s.sdoMutex.Some? ==> s.sdoMutex.value == RxThread;
    assert s.feedbackMutex.Some? ==> s.feedbackMutex.value == RxThread;
  }

  /**
   While deactivate() waits in join, the receive thread can always act, and each of its actions brings its end
   nearer.
   */
  lemma JoinAdvances(s: State)
    requires Inv(s) && s.main.Unflagged?
    ensures !s.rx.Ended? ==> exists e :: IsRxStep(e) && RxStep(s, e).Some?
    ensures forall e :: IsRxStep(e) && RxStep(s, e).Some? ==> Rank(RxStep(s, e).value.rx) < Rank(s.rx)
    ensures s.rx.Ended? ==> MainStep(s, Join).Some?
  {
    hide Rendezvous;
    if !s.rx.Ended? {
      RxCanAct(s);
      assert IsRxStep(RxNext(s)) && RxStep(s, RxNext(s)).Some?;
    }
  }

  /** Join returns after at most five actions of the receive thread, whatever else happens on the bus. */
  lemma {:induction false} JoinTerminates(es: seq<Action>, more: seq<Action>)
    requires After(es).Some? && After(es).value.main.Unflagged?
    requires After(es + more).Some? && forall k :: 0 <= k < |more| ==> IsRxStep(more[k]) || IsEnvStep(more[k])
    ensures After(es + more).value.main.Unflagged?
    ensures RxSteps(more) + Rank(After(es + more).value.rx) <= Rank(After(es).value.rx) <= 5
  {
    hide After, Next, Inv;
    if more == [] {
      assert es + more == es;
    } else {
      var short, e := more[..|more| - 1], more[|more| - 1];
      assert es + more == es + short + [e];
      AfterOneMore(es + short, e);
      JoinTerminates(es, short);
      Reachable(es + short);
      JoinStep(After(es + short).value, e);
    }
  }

  lemma AfterOneMore(es: seq<Action>, e: Action)
    ensures After(es + [e]).Some? ==> After(es).Some? && Next(After(es).value, e) == After(es + [e])
  {
    hide Next;
    assert (es + [e])[..|es + [e]| - 1] == es;
  }

  lemma JoinStep(s: State, e: Action)
    requires Inv(s) && s.main.Unflagged? && Next(s, e).Some? && (IsRxStep(e) || IsEnvStep(e))
    ensures var s' := Next(s, e).value;
            s'.main.Unflagged? && Rank(s'.rx) + (if IsRxStep(e) then 1 else 0) <= Rank(s.rx)
  {
    JoinAdvances(s);
    hide Inv, MainStep;
  }

  function MainNext(s: State): Action {
    match s.main
    case Opened => Flag
    case Flagged => Start
    case Configuring => Finish
    case Locked(_) => Reset
    case Cleared(_) => Send(true)
    case Sent(_) => Check
    case Waiting(_) => TimeOut
    case Woken(_, _) => Relock
    case Looking(_, _) => Look
    case Reading(_) => EndRead
    case Stopping => Unflag
    case Joined => Close
    case _ => Join
  }

  /** No deadlock: unless the main thread is between calls, one of the two threads can act. */
  lemma SomebodyCanAct(es: seq<Action>)
    requires After(es).Some? && !After(es).value.main.Between?
    ensures exists e :: !IsEnvStep(e) && Next(After(es).value, e).Some?
  {
    Reachable(es);
    var s := After(es).value;
    hide After;
    SomebodyCanActIn(s);
  }

  lemma SomebodyCanActIn(s: State)
    requires Inv(s) && !s.main.Between?
    ensures exists e :: !IsEnvStep(e) && Next(s, e).Some?
  {
    hide Rendezvous;
    if (s.main.Woken? && s.sdoMutex.Some?) || (s.main.Unflagged? && !s.rx.Ended?) {
      if s.main.Woken? { assert s.sdoMutex.value == RxThread; }
      RxCanAct(s);
      assert !IsEnvStep(RxNext(s)) && Next(s, RxNext(s)).Some?;
    } else {
      MainCanAct(s);
      assert !IsEnvStep(MainNext(s)) && Next(s, MainNext(s)).Some?;
    }
  }

  lemma MainCanAct(s: State)
    requires Lives(s) && !s.main.Between?
    requires (s.main.Woken? ==> s.sdoMutex.None?) && (s.main.Unflagged? ==> s.rx.Ended?)
    ensures !IsRxStep(MainNext(s)) && !IsEnvStep(MainNext(s)) && MainStep(s, MainNext(s)).Some?
  {
    hide Arrived;
  }
}
