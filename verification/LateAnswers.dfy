// Which late answers can disturb a transaction: exactly when its own answer can be lost or another one accepted.

/** Continuations of the two-thread machine from the moment a request goes out to the end of its transaction. */
module LateAnswers {
  import opened Wrappers
  import opened ReceiveThread

  /** The state after more steps, the transaction going on after each of them. */
  function During(s: State, more: seq<Action>): Option<State> {
    if !InTransaction(s.main) then None
    else if more == [] then Some(s)
    else
      var before := During(s, more[..|more| - 1]);
      if before.None? then None
      else
        var after := Next(before.value, more[|more| - 1]);
        if after.Some? && InTransaction(after.value.main) then after else None
  }

  lemma Prolongs(s: State, more: seq<Action>, t: State, e: Action) returns (longer: seq<Action>, t': State)
    requires During(s, more) == Some(t) && Next(t, e).Some? && InTransaction(Next(t, e).value.main)
    ensures t' == Next(t, e).value && During(s, longer) == Some(t')
  {
    hide Next, InTransaction;
    longer, t' := more + [e], Next(t, e).value;
    assert longer[..|longer| - 1] == more;
  }

  /** Such a continuation is a schedule like any other. */
  lemma {:induction false} DuringIsASchedule(es: seq<Action>, s: State, more: seq<Action>)
    requires After(es) == Some(s) && During(s, more).Some?
    ensures After(es + more) == During(s, more)
  {
    hide Next, InTransaction;
    if more == [] {
      assert es + more == es;
    } else {
      DuringIsASchedule(es, s, more[..|more| - 1]);
      assert (es + more)[..|es + more| - 1] == es + more[..|more| - 1];
    }
  }

  /** The next step after such a continuation has this transaction accept x. */
  predicate Takes(s: State, more: seq<Action>, e: Action, x: Exchange) {
    && During(s, more).Some?
    && var t := During(s, more).value;
    && Next(t, e).Some?
    && Next(t, e).value.accepted == s.accepted + [(s.request, x)]
  }

  /** The drive has answered the request and its answer is gone: not in the socket, not parsed, not stored. */
  predicate Lost(s: State) {
    UnderWay(s, s.request) + IsStored(s, s.request) == 0
  }

  predicate Loses(s: State, more: seq<Action>) {
    During(s, more).Some? && Lost(During(s, more).value)
  }

  /** The state in which the request for s.main.key has just gone out. */
  function Requested(s: State): State
    requires s.main.Cleared?
  {
    Ask(s, s.main.key).(main := Sent(s.main.key), request := Exchange(s.requests + 1, s.main.key))
  }

  lemma GoesOut(s: State)
    requires Inv(s) && s.main.Cleared?
    ensures Next(s, Send(true)) == Some(Requested(s)) && Inv(Requested(s))
    ensures Requested(s).main.Sent? && Requested(s).response.None? && Requested(s).request in Requested(s).pending
  {
    NextKeepsInv(s, Send(true));
  }

  // The answer that is stored last --------------------------------------------------------------------------

  function LastSdo(buffer: seq<Item>): Option<Exchange> {
    if buffer == [] then None
    else
      var last := buffer[|buffer| - 1];
      if last.Sdo? then Some(last.answer) else LastSdo(buffer[..|buffer| - 1])
  }

  /** The response once everything read from the socket so far, and everything in it, has been stored. */
  function LastAnswer(s: State): Option<Exchange> {
    if LastSdo(s.buffer).Some? then LastSdo(s.buffer)
    else if HeldAnswer(s.rx).Some? then HeldAnswer(s.rx) else s.response
  }

  lemma {:induction false} LastSdoOfTail(buffer: seq<Item>)
    requires buffer != []
    ensures LastSdo(buffer) == if LastSdo(buffer[1..]).Some? then LastSdo(buffer[1..])
                               else if buffer[0].Sdo? then Some(buffer[0].answer) else None
  {
    if |buffer| > 1 && buffer[|buffer| - 1].Telemetry? {
      LastSdoOfTail(buffer[..|buffer| - 1]);
      assert buffer[1..][..|buffer| - 2] == buffer[..|buffer| - 1][1..];
    }
  }

  lemma {:induction false} LastSdoIsThere(buffer: seq<Item>)
    requires LastSdo(buffer).Some?
    ensures Sdo(LastSdo(buffer).value) in buffer
  {
    if buffer[|buffer| - 1].Telemetry? { LastSdoIsThere(buffer[..|buffer| - 1]); }
  }

  lemma LastAnswerIsThere(s: State)
    requires LastAnswer(s).Some?
    ensures UnderWay(s, LastAnswer(s).value) + IsStored(s, LastAnswer(s).value) > 0
  {
    if LastSdo(s.buffer).Some? { LastSdoIsThere(s.buffer); }
  }

  lemma RxKeepsLastAnswer(s: State, e: Action)
    requires RxStep(s, e).Some?
    ensures LastAnswer(RxStep(s, e).value) == LastAnswer(s) && RxStep(s, e).value.pending == s.pending
  {
    if e.Take? { LastSdoOfTail(s.buffer); } else { RxLeavesQueues(s, e); hide RxStep; }
  }

  lemma EnvMovesLastAnswer(s: State, e: Action)
    requires EnvStep(s, e).Some? && s.fd.Some?
    ensures var s' := EnvStep(s, e).value;
            LastAnswer(s') == if e.DriveAnswers? then Some(e.exchange) else LastAnswer(s)
  {
    assert (s.buffer + [Telemetry])[..|s.buffer|] == s.buffer;
  }

  // What a transaction leaves alone ---------------------------------------------------------------------------

  lemma MainWhileWaiting(s: State, e: Action)
    requires MainStep(s, e).Some? && InTransaction(s.main) && InTransaction(MainStep(s, e).value.main)
    ensures var s' := MainStep(s, e).value;
            s' == s.(main := s'.main, sdoMutex := s'.sdoMutex) && s'.main.key == s.main.key
  {
  }

  lemma MainKeepsLastAnswer(s: State, e: Action)
    requires MainStep(s, e).Some? && InTransaction(s.main) && InTransaction(MainStep(s, e).value.main)
    ensures LastAnswer(MainStep(s, e).value) == LastAnswer(s)
  {
    MainWhileWaiting(s, e);
    hide MainStep;
  }

  /** During a transaction answers only move on: none is added, and none accepted. */
  ghost predicate Later(s: State, t: State) {
    && InTransaction(s.main) && InTransaction(t.main)
    && t.main.key == s.main.key && t.request == s.request && t.accepted == s.accepted && t.pending <= s.pending
    && forall y :: UnderWay(t, y) + IsStored(t, y) <= UnderWay(s, y) + IsStored(s, y)
  }

  lemma StepIsLater(s: State, e: Action)
    requires Inv(s) && InTransaction(s.main) && Next(s, e).Some? && InTransaction(Next(s, e).value.main)
    ensures Later(s, Next(s, e).value)
  {
    hide Inv, MainStep, RxStep;
    var s' := Next(s, e).value;
    if IsRxStep(e) {
      RxKeepsBooks(s, e);
      RxKeepsLastAnswer(s, e);
      forall y ensures UnderWay(s', y) + IsStored(s', y) <= UnderWay(s, y) + IsStored(s, y) { RxMoves(s, e, y); }
    } else if IsEnvStep(e) {
      forall y ensures UnderWay(s', y) + IsStored(s', y) <= UnderWay(s, y) + IsStored(s, y) { EnvMoves(s, e, y); }
    } else {
      MainWhileWaiting(s, e);
    }
  }

  lemma {:induction false} DuringIsLater(s: State, more: seq<Action>)
    requires Inv(s) && During(s, more).Some?
    ensures Inv(During(s, more).value) && Later(s, During(s, more).value)
  {
    hide Inv, Next, UnderWay, IsStored;
    if more != [] {
      DuringIsLater(s, more[..|more| - 1]);
      var t, e := During(s, more[..|more| - 1]).value, more[|more| - 1];
      NextKeepsInv(t, e);
      StepIsLater(t, e);
    }
  }

  // Draining the socket while the main thread sleeps --------------------------------------------------------

  predicate Asleep(m: Main) {
    m.Waiting? || m.Woken?
  }

  predicate Drained(s: State) {
    s.buffer == [] && HeldAnswer(s.rx).None?
  }

  function Work(s: State): nat {
    8 * |s.buffer| + if s.rx.Receiving? then 0 else Rank(s.rx)
  }

  function DrainNext(s: State): Action {
    if s.rx.Receiving? then Take else RxNext(s)
  }

  lemma Drains(s: State)
    requires Inv(s) && Asleep(s.main) && !Drained(s)
    ensures var e := DrainNext(s);
            && IsRxStep(e) && RxStep(s, e).Some?
            && var s' := RxStep(s, e).value;
            && Asleep(s'.main) && Work(s') < Work(s)
  {
    hide Single, Rendezvous;
    if !s.rx.Receiving? { RxCanAct(s); }
  }

  /** Everything in the socket gets stored before the main thread looks again. */
  lemma DrainsAll(s: State, more: seq<Action>, t: State) returns (longer: seq<Action>, t': State)
    requires During(s, more) == Some(t) && Inv(t) && Asleep(t.main)
    ensures During(s, longer) == Some(t') && Drained(t')
    ensures LastAnswer(t') == LastAnswer(t) && t'.pending == t.pending && t'.request == t.request
    decreases Work(t)
  {
    longer, t' := more, t;
    if !Drained(t) {
      Drains(t);
      hide Inv, During, RxStep, LastAnswer, Work;
      RxKeepsLastAnswer(t, DrainNext(t));
      RxKeepsBooks(t, DrainNext(t));
      NextKeepsInv(t, DrainNext(t));
      longer, t' := Prolongs(s, more, t, DrainNext(t));
      longer, t' := DrainsAll(s, longer, t');
    }
  }

  /** An answer in the socket gets stored while the main thread sleeps. */
  lemma DrainsUpTo(s: State, more: seq<Action>, t: State, x: Exchange) returns (longer: seq<Action>, t': State)
    requires During(s, more) == Some(t) && Inv(t) && Asleep(t.main) && x !in t.pending && UnderWay(t, x) > 0
    ensures During(s, longer) == Some(t') && Inv(t') && Asleep(t'.main)
    ensures t'.response == Some(x) && t'.sdoMutex.None?
    decreases Work(t)
  {
    Drains(t);
    if DrainNext(t).Store? { StoreReleases(t, Store); }
    hide Inv, During, RxStep, Work, UnderWay, DrainNext;
    RxKeepsLastAnswer(t, DrainNext(t));
    RxMoves(t, DrainNext(t), x);
    NextKeepsInv(t, DrainNext(t));
    longer, t' := Prolongs(s, more, t, DrainNext(t));
    if UnderWay(t', x) > 0 { longer, t' := DrainsUpTo(s, longer, t', x); }
  }

  lemma StoreReleases(s: State, e: Action)
    requires RxStep(s, e).Some? && e.Store?
    ensures RxStep(s, e).value.sdoMutex.None?
  {
  }

  // The mix-up ------------------------------------------------------------------------------------------------

  /**
   A transaction can accept the answer of another request exactly if that answer is about the same object and still
   under way when the request goes out; its own answer it always can.
   */
  lemma {:induction false} AcceptableIff(es: seq<Action>, s: State, x: Exchange)
    requires After(es) == Some(s) && s.main.Cleared?
    ensures (exists more, e :: Takes(Requested(s), more, e, x)) <==>
            x == Requested(s).request || (x.key == s.main.key && UnderWay(s, x) > 0)
  {
    Reachable(es);
    var sent := Requested(s);
    GoesOut(s);
    MainMovesNothing(s, Send(true), x);
    hide After, Inv, Next, During;
    assert UnderWay(sent, x) > 0 <==> x == sent.request || UnderWay(s, x) > 0;
    forall more, e | Takes(sent, more, e, x) ensures x.key == s.main.key && UnderWay(sent, x) > 0 {
      TakesOnlyThese(sent, more, e, x);
    }
    if x.key == s.main.key && UnderWay(sent, x) > 0 {
      var more, e := CanTake(sent, x);
    }
  }

  lemma TakesOnlyThese(sent: State, more: seq<Action>, e: Action, x: Exchange)
    requires Inv(sent) && sent.main.Sent? && sent.response.None? && Takes(sent, more, e, x)
    ensures x.key == sent.main.key && UnderWay(sent, x) > 0
  {
    DuringIsLater(sent, more);
    var t := During(sent, more).value;
    hide During, Inv, UnderWay, MainStep, RxStep;
    assert |Next(t, e).value.accepted| == |t.accepted| + 1;
    if IsRxStep(e) {
      RxKeepsBooks(t, e);
    } else if !IsEnvStep(e) {
      MainEnds(t, e);
      assert Next(t, e).value.accepted[|t.accepted|] == (sent.request, x);
      assert UnderWay(t, x) + IsStored(t, x) <= UnderWay(sent, x) + IsStored(sent, x);
    }
  }

  lemma CanTake(sent: State, x: Exchange) returns (more: seq<Action>, e: Action)
    requires Inv(sent) && sent.main.Sent? && sent.response.None? && x.key == sent.main.key && UnderWay(sent, x) > 0
    ensures Takes(sent, more, e, x)
  {
    var t;
    more, t := Sleeps(sent);
    hide During, Inv;
    if x in t.pending { more, t := Answers(sent, more, t, x); }
    hide UnderWay, Next;
    more, t := DrainsUpTo(sent, more, t, x);
    DuringIsLater(sent, more);
    more, t := LooksAgain(sent, more, t);
    e := Look;
    AcceptsStored(t, x);
  }

  lemma AcceptsStored(t: State, x: Exchange)
    requires t.main.Looking? && t.response == Some(x) && x.key == t.main.key
    ensures Next(t, Look).Some? && Next(t, Look).value.accepted == t.accepted + [(t.request, x)]
  {
  }

  lemma Sleeps(sent: State) returns (more: seq<Action>, t: State)
    requires Inv(sent) && sent.main.Sent? && sent.response.None?
    ensures t == sent.(main := Waiting(sent.main.key), sdoMutex := None) && Inv(t) && During(sent, more) == Some(t)
  {
    NextKeepsInv(sent, Check);
    hide Inv;
    more, t := Prolongs(sent, [], sent, Check);
  }

  lemma Answers(s: State, more: seq<Action>, t: State, x: Exchange) returns (longer: seq<Action>, t': State)
    requires During(s, more) == Some(t) && Inv(t) && Asleep(t.main) && x in t.pending
    ensures t' == t.(pending := Unanswered(t.pending, x), buffer := t.buffer + [Sdo(x)]) && Inv(t')
    ensures During(s, longer) == Some(t') && UnderWay(t', x) > 0 && LastAnswer(t') == Some(x)
  {
    assert t.fd.Some?;
    NextKeepsInv(t, DriveAnswers(x));
    hide During, Inv, MainStep, RxStep;
    longer, t' := Prolongs(s, more, t, DriveAnswers(x));
  }

  lemma LooksAgain(s: State, more: seq<Action>, t: State) returns (longer: seq<Action>, t': State)
    requires During(s, more) == Some(t) && Asleep(t.main) && t.sdoMutex.None?
    ensures During(s, longer) == Some(t') && t'.main.Looking? && t'.main.key == t.main.key
    ensures t' == t.(main := t'.main, sdoMutex := t'.sdoMutex)
  {
    longer, t' := more, t;
    hide During, RxStep, EnvStep;
    if t.main.Waiting? { longer, t' := Prolongs(s, longer, t', Spurious); }
    longer, t' := Prolongs(s, longer, t', Relock);
  }

  // The loss --------------------------------------------------------------------------------------------------

  /** Only the drive asked can still answer, and its answer to the request will be, or is, the last one stored. */
  predicate OwnOnly(s: State) {
    && (forall x :: x in s.pending ==>
          x == s.request || (x.key.node == s.request.key.node && x.number < s.request.number))
    && (s.request in s.pending || (s.pending == {} && LastAnswer(s) == Some(s.request)))
  }

  lemma OwnStaysOwn(s: State, e: Action)
    requires Inv(s) && OwnOnly(s) && InTransaction(s.main)
    requires Next(s, e).Some? && InTransaction(Next(s, e).value.main)
    ensures OwnOnly(Next(s, e).value)
  {
    var s' := Next(s, e).value;
    hide Single, Rendezvous, MainStep, RxStep, LastAnswer;
    if IsRxStep(e) {
      RxKeepsBooks(s, e);
      RxKeepsLastAnswer(s, e);
    } else if IsEnvStep(e) {
      EnvMovesLastAnswer(s, e);
      if e == DriveAnswers(s.request) { assert s'.pending == {}; }
    } else {
      MainWhileWaiting(s, e);
      MainKeepsLastAnswer(s, e);
    }
  }

  lemma {:induction false} OwnIsNeverLost(s: State, more: seq<Action>)
    requires Inv(s) && OwnOnly(s) && During(s, more).Some?
    ensures OwnOnly(During(s, more).value) && !Lost(During(s, more).value)
  {
    DuringIsLater(s, more);
    hide Inv, Next, OwnOnly;
    if more != [] {
      DuringIsLater(s, more[..|more| - 1]);
      OwnIsNeverLost(s, more[..|more| - 1]);
      OwnStaysOwn(During(s, more[..|more| - 1]).value, more[|more| - 1]);
    }
    OwnIsSomewhere(During(s, more).value);
  }

  lemma OwnIsSomewhere(s: State)
    requires OwnOnly(s)
    ensures !Lost(s)
  {
    if s.request !in s.pending { LastAnswerIsThere(s); }
  }

  lemma CanLose(sent: State, x: Exchange) returns (more: seq<Action>)
    requires Inv(sent) && sent.main.Sent? && sent.response.None?
    requires sent.request in sent.pending && x in sent.pending && x.key.node != sent.request.key.node
    ensures Loses(sent, more)
  {
    var t;
    more, t := Sleeps(sent);
    hide During, Inv, LastAnswer;
    more, t := Answers(sent, more, t, sent.request);
    more, t := Answers(sent, more, t, x);
    more, t := DrainsAll(sent, more, t);
    LostWhenDrained(t, x);
  }

  lemma LostWhenDrained(t: State, x: Exchange)
    requires Drained(t) && t.request !in t.pending && LastAnswer(t) == Some(x) && x != t.request
    ensures Lost(t)
  {
  }

  lemma PendingIsNumbered(s: State, x: Exchange)
    requires Inv(s) && x in s.pending
    ensures x.number <= s.requests
  {
    assert UnderWay(s, x) + IsStored(s, x) > 0;
  }

  /**
   The drive's answer to a request can be lost exactly if a request to another drive is unanswered when this one goes
   out.
   */
  lemma {:induction false} LosableIff(es: seq<Action>, s: State)
    requires After(es) == Some(s) && s.main.Cleared?
    ensures (exists more :: Loses(Requested(s), more)) <==>
            (exists x :: x in s.pending && x.key.node != s.main.key.node)
  {
    Reachable(es);
    var sent := Requested(s);
    GoesOut(s);
    hide After, Inv, Next, During;
    if x :| x in s.pending && x.key.node != s.main.key.node {
      var more := CanLose(sent, x);
    } else {
      forall x | x in s.pending ensures x.number <= s.requests { PendingIsNumbered(s, x); }
      assert OwnOnly(sent);
      forall more | During(sent, more).Some? ensures !Loses(sent, more) { OwnIsNeverLost(sent, more); }
    }
  }
}
