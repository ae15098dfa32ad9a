/** What every reachable state of the request machine satisfies, kept by each kind of step. */
module ChatInvariant {
  import opened Wrappers
  import opened ChatMachine
  import B = Breaker
  import G = Gate
  import R = Retry
  import Q = QuotaMachine
  import QT = QuotaTheorems
  import QI = QuotaInvariant

  predicate Runs(stage: Stage) {
    stage.Admitted? || stage.Charging? || stage.Charged? || stage.Calling? || stage.Retrying? || stage.Answered? || stage.Leaving?
  }

  /** Slots, permits, committed charges and provider calls of one request. */
  function SlotsOf(r: Request): nat { if Runs(r.stage) || r.stage.Waiting? || r.stage.Released? then 1 else 0 }
  function PermitsOf(r: Request): nat { if Runs(r.stage) then 1 else 0 }
  function PaidOf(r: Request): nat { if r.charge.Some? then 1 else 0 }
  function CallsOf(r: Request): nat { r.calls }
  function StoredOf(r: Request): nat { if r.stage == Done(Ok) then 1 else 0 }

  function Sum(rs: seq<Request>, w: Request -> nat): nat {
    if rs == [] then 0 else Sum(rs[..|rs| - 1], w) + w(rs[|rs| - 1])
  }

  lemma SumAppend(rs: seq<Request>, r: Request, w: Request -> nat)
    ensures Sum(rs + [r], w) == Sum(rs, w) + w(r)
  {
    assert (rs + [r])[..|rs|] == rs;
  }

  lemma {:induction false} SumUpdate(rs: seq<Request>, i: nat, r: Request, w: Request -> nat)
    requires i < |rs|
    ensures Sum(rs[i := r], w) + w(rs[i]) == Sum(rs, w) + w(r)
    ensures Sum(rs, w) >= w(rs[i])
  {
    var front := rs[..|rs| - 1];
    var rs' := rs[i := r];
    if i == |rs| - 1 {
      assert rs'[..|rs'| - 1] == front;
    } else {
      SumUpdate(front, i, r, w);
      assert rs'[..|rs'| - 1] == front[i := r];
    }
  }

  lemma {:induction false} SumAtMost(rs: seq<Request>, w: Request -> nat, v: Request -> nat, k: nat)
    requires forall r :: r in rs ==> w(r) <= k * v(r)
    ensures Sum(rs, w) <= k * Sum(rs, v)
  {
    if rs != [] {
      var front, last := rs[..|rs| - 1], rs[|rs| - 1];
      assert last in rs;
      SumAtMost(front, w, v, k);
      Distribute(k, Sum(front, v), v(last));
    }
  }

  lemma Distribute(k: nat, a: nat, b: nat)
    ensures k * a + k * b == k * (a + b)
  {}

  // ----- The invariant -----

  /** Every attempt so far asks for another. */
  ghost predicate Retried(os: seq<R.Outcome<Reply>>) {
    forall k :: 0 <= k < |os| ==> R.ShouldRetry(R.Triage(os[k]))
  }

  /** The attempts are those of a retry loop that has stopped. */
  ghost predicate Concluded(c: Config, r: Request) {
    |r.outcomes| == r.calls && R.Stops(r.outcomes, c.maxAttempts, r.calls)
  }

  function LastAnswer(r: Request): R.Answer<Reply>
    requires r.outcomes != []
  {
    R.Triage(r.outcomes[|r.outcomes| - 1])
  }

  /** How a concluded request ends, by the answer of its last attempt. */
  function EndOf(a: R.Answer<Reply>): Ending {
    match a
    case Value(reply) => Verdict(reply)
    case Transient(_) => ProviderFailed
    case Permanent(_) => ProviderFailed
    case PassedThrough => OperationRefused
    case Abandoned => Aborted
  }

  predicate Refusal(end: Ending) {
    end.ServiceRefused? || end.CircuitOpen? || end.QueueFull? || end.QuotaRefused?
  }

  predicate Untried(r: Request) {
    r.calls == 0 && r.outcomes == []
  }

  /** What a request that ends so has done: a refusal nothing, an aborted request anything on the way, and
      any other the attempts its ending is the answer of. */
  ghost predicate EndFits(c: Config, end: Ending, r: Request) {
    if Refusal(end) then r.charge.None? && Untried(r)
    else if end.Aborted? then
      && (r.charge.None? ==> Untried(r))
      && ((Retried(r.outcomes) && |r.outcomes| <= r.calls <= |r.outcomes| + 1)
          || (Concluded(c, r) && (LastAnswer(r).Abandoned? || LastAnswer(r).Value?)))
    else r.charge.Some? && Concluded(c, r) && EndOf(LastAnswer(r)) == end
  }

  predicate InsideEnd(end: Ending) {
    !end.ServiceRefused? && !end.CircuitOpen? && !end.QueueFull?
  }

  ghost predicate Fits(c: Config, r: Request) {
    && r.calls <= c.maxAttempts
    && (r.calls > 0 ==> r.charge.Some?)
    && match r.stage
       case Arrived => r.charge.None? && Untried(r) && r.chat.None?
       case Checked | Passed | Waiting | Admitted | Charging(_) => r.charge.None? && Untried(r)
       case Charged => r.charge.Some? && Untried(r)
       case Calling => r.charge.Some? && Retried(r.outcomes) && r.calls == |r.outcomes| + 1
       case Retrying => r.charge.Some? && Retried(r.outcomes) && r.calls == |r.outcomes| && 1 <= r.calls < c.maxAttempts
       case Answered(reply) => r.charge.Some? && Concluded(c, r) && LastAnswer(r) == R.Value(reply)
       case Persisting => r.charge.Some? && Concluded(c, r) && EndOf(LastAnswer(r)) == Ok
       case Leaving(end) => InsideEnd(end) && EndFits(c, end, r)
       case Released(end) => InsideEnd(end) && EndFits(c, end, r)
       case Done(end) => EndFits(c, end, r) && (end.CircuitOpen? ==> 1 <= end.retryAfter <= c.limits.resetSeconds)
  }

  /** The end of an attempt: one more is due, or the loop has stopped. */
  lemma AttemptConcludes(c: Config, r: Request, outcome: R.Outcome<Reply>, r': Request)
    requires ValidConfig(c) && r.stage.Calling? && Fits(c, r)
    requires r' == r.(stage := StageAfter(outcome, r.calls, c.maxAttempts), outcomes := r.outcomes + [outcome])
    ensures Fits(c, r')
  {
    assert r'.outcomes[..|r.outcomes|] == r.outcomes;
    assert LastAnswer(r') == R.Triage(outcome);
    if r'.stage.Retrying? {
      assert Retried(r'.outcomes);
    } else {
      assert R.Stops(r'.outcomes, c.maxAttempts, r'.calls);
    }
  }

  ghost predicate AllFit(c: Config, rs: seq<Request>) {
    forall i :: 0 <= i < |rs| ==> Fits(c, rs[i])
  }

  ghost predicate GateOk(c: Config, g: G.Room, rs: seq<Request>) {
    && g.slots + Sum(rs, SlotsOf) == c.poolSize + c.queueSize
    && g.permits + Sum(rs, PermitsOf) == c.poolSize
  }

  /** The request's charge, committed or under way, is its own: same user, same instant. */
  predicate Backed(log: seq<Q.Entry>, txs: seq<Q.Tx>, r: Request) {
    && (r.charge.Some? ==> r.charge.value < |log|
                           && log[r.charge.value].user == r.user && log[r.charge.value].at == r.at)
    && (r.stage.Charging? ==> r.stage.tx < |txs| && txs[r.stage.tx].user == r.user && txs[r.stage.tx].at == r.at)
  }

  ghost predicate OwnCharges(rs: seq<Request>) {
    forall i, j :: 0 <= i < j < |rs| && rs[i].charge.Some? ==> rs[i].charge != rs[j].charge
  }

  /** Every committed charge is exactly one request's. */
  ghost predicate QuotaOk(log: seq<Q.Entry>, txs: seq<Q.Tx>, rs: seq<Request>) {
    && |log| == Sum(rs, PaidOf)
    && OwnCharges(rs)
    && forall i :: 0 <= i < |rs| ==> Backed(log, txs, rs[i])
  }

  /** What the breaker's log has of a request is what its attempts record, and of nobody else anything. */
  ghost predicate RecordsOk(log: seq<B.Event>, rs: seq<Request>) {
    && (forall i :: 0 <= i < |rs| ==> OwnRecords(log, i, rs[i]))
    && (forall i: nat :: i >= |rs| ==> R.Own(log, i) == [])
  }

  ghost predicate OwnRecords(log: seq<B.Event>, i: nat, r: Request) {
    R.Own(log, i) == R.AllRecorded(r.outcomes)
  }

  ghost predicate BreakerOk(c: Config, b: B.Breaker, log: seq<B.Event>, clock: real) {
    b == B.After(log, c.limits) && B.Clocked(log, clock)
  }

  ghost predicate Inv(c: Config, s: State) {
    && ValidConfig(c)
    && Q.Reachable(s.quota)
    && AllFit(c, s.requests)
    && GateOk(c, s.gate, s.requests)
    && QuotaOk(s.quota.log, s.quota.txs, s.requests)
    && RecordsOk(s.log, s.requests)
    && BreakerOk(c, s.breaker, s.log, s.clock)
  }

  // ----- One part at a time -----

  lemma GateMoves(c: Config, g: G.Room, g': G.Room, rs: seq<Request>, i: nat, r: Request)
    requires i < |rs| && GateOk(c, g, rs)
    requires g'.slots + SlotsOf(r) == g.slots + SlotsOf(rs[i])
    requires g'.permits + PermitsOf(r) == g.permits + PermitsOf(rs[i])
    ensures GateOk(c, g', rs[i := r])
  {
    SumUpdate(rs, i, r, SlotsOf);
    SumUpdate(rs, i, r, PermitsOf);
  }

  lemma FitMoves(c: Config, rs: seq<Request>, i: nat, r: Request)
    requires i < |rs| && AllFit(c, rs) && Fits(c, r)
    ensures AllFit(c, rs[i := r])
  {}

  lemma QuotaMoves(log: seq<Q.Entry>, txs: seq<Q.Tx>, rs: seq<Request>, i: nat, r: Request)
    requires i < |rs| && QuotaOk(log, txs, rs)
    requires r.charge == rs[i].charge && Backed(log, txs, r)
    ensures QuotaOk(log, txs, rs[i := r])
  {
    SumUpdate(rs, i, r, PaidOf);
  }

  /** No transaction changes its user or instant, and the log only grows. */
  ghost predicate Later(log: seq<Q.Entry>, txs: seq<Q.Tx>, log': seq<Q.Entry>, txs': seq<Q.Tx>) {
    && |log| <= |log'| && log'[..|log|] == log
    && |txs| <= |txs'|
    && forall t :: 0 <= t < |txs| ==> txs'[t].user == txs[t].user && txs'[t].at == txs[t].at
  }

  lemma BackedLater(log: seq<Q.Entry>, txs: seq<Q.Tx>, log': seq<Q.Entry>, txs': seq<Q.Tx>, r: Request)
    requires Backed(log, txs, r) && Later(log, txs, log', txs')
    ensures Backed(log', txs', r)
  {
    if r.charge.Some? { assert log'[..|log|][r.charge.value] == log[r.charge.value]; }
  }

  lemma QuotaLater(log: seq<Q.Entry>, txs: seq<Q.Tx>, txs': seq<Q.Tx>, rs: seq<Request>)
    requires QuotaOk(log, txs, rs) && Later(log, txs, log, txs')
    ensures QuotaOk(log, txs', rs)
  {
    forall i | 0 <= i < |rs| ensures Backed(log, txs', rs[i]) {
      BackedLater(log, txs, log, txs', rs[i]);
    }
  }

  lemma ChargeIsFresh(log: seq<Q.Entry>, txs: seq<Q.Tx>, rs: seq<Request>, i: nat, r: Request)
    requires i < |rs| && QuotaOk(log, txs, rs) && r.charge == Some(|log|)
    ensures OwnCharges(rs[i := r])
  {
    forall j | 0 <= j < |rs| ensures rs[j].charge != r.charge {
      assert Backed(log, txs, rs[j]);
    }
  }

  lemma QuotaCommits(log: seq<Q.Entry>, txs: seq<Q.Tx>, e: Q.Entry, txs': seq<Q.Tx>, rs: seq<Request>, i: nat, r: Request)
    requires i < |rs| && QuotaOk(log, txs, rs) && Later(log, txs, log + [e], txs')
    requires rs[i].charge.None? && r.charge == Some(|log|) && e.user == r.user && e.at == r.at && !r.stage.Charging?
    ensures QuotaOk(log + [e], txs', rs[i := r])
  {
    SumUpdate(rs, i, r, PaidOf);
    ChargeIsFresh(log, txs, rs, i, r);
    var rs' := rs[i := r];
    forall j | 0 <= j < |rs'| ensures Backed(log + [e], txs', rs'[j]) {
      if j != i { BackedLater(log, txs, log + [e], txs', rs[j]); }
    }
  }

  lemma RecordsMove(log: seq<B.Event>, rs: seq<Request>, i: nat, r: Request)
    requires i < |rs| && RecordsOk(log, rs) && OwnRecords(log, i, r)
    ensures RecordsOk(log, rs[i := r])
  {}

  lemma OwnIsOthers(log: seq<B.Event>, e: B.Event, j: nat)
    requires e.Check? || e.req != j
    ensures R.Own(log + [e], j) == R.Own(log, j)
  {
    R.OwnGrows(log, e, j);
  }

  /** A check records nothing for anybody. */
  lemma CheckRecordsNothing(log: seq<B.Event>, now: real, rs: seq<Request>)
    requires RecordsOk(log, rs)
    ensures RecordsOk(log + [B.Check(now)], rs)
  {
    forall j: nat ensures R.Own(log + [B.Check(now)], j) == R.Own(log, j) {
      OwnIsOthers(log, B.Check(now), j);
    }
  }

  lemma AllRecordedAppend(os: seq<R.Outcome<Reply>>, o: R.Outcome<Reply>)
    ensures R.AllRecorded(os + [o]) == R.AllRecorded(os) + R.Recorded(o)
  {
    assert (os + [o])[..|os|] == os;
  }

  /** The event of an attempt is what the attempt records. */
  lemma RecordLands(log: seq<B.Event>, outcome: R.Outcome<Reply>, now: real, rs: seq<Request>, i: nat, r: Request)
    requires i < |rs| && RecordsOk(log, rs) && r.outcomes == rs[i].outcomes + [outcome]
    ensures match EventOf(outcome, now, i)
            case None => RecordsOk(log, rs[i := r])
            case Some(e) => RecordsOk(log + [e], rs[i := r])
  {
    AllRecordedAppend(rs[i].outcomes, outcome);
    assert OwnRecords(log, i, rs[i]);
    match EventOf(outcome, now, i)
    case None => assert R.AllRecorded(rs[i].outcomes) + [] == R.AllRecorded(rs[i].outcomes);
    case Some(e) =>
      R.OwnGrows(log, e, i);
      forall j: nat | j != i ensures R.Own(log + [e], j) == R.Own(log, j) {
        OwnIsOthers(log, e, j);
      }
      var rs' := rs[i := r];
      forall j | 0 <= j < |rs'| ensures OwnRecords(log + [e], j, rs'[j]) {
        if j != i { assert OwnRecords(log, j, rs[j]); }
      }
  }

  lemma BreakerLogs(c: Config, b: B.Breaker, log: seq<B.Event>, clock: real, e: B.Event, now: real)
    requires BreakerOk(c, b, log, clock) && clock <= now && (e.Succeed? || e.at == now)
    ensures BreakerOk(c, B.Step(b, c.limits, e), log + [e], now)
  {
    B.LaterClocked(log, clock, now);
    B.LogEvent(log, e, now);
    assert (log + [e])[..|log|] == log;
  }

  // ----- One event at a time -----

  /** A step of request `i` alone: no quota, no breaker. */
  lemma Moves(c: Config, s: State, s': State, i: nat, r: Request)
    requires Inv(c, s) && i < |s.requests|
    requires s' == s.(requests := s.requests[i := r], gate := s'.gate, chats := s'.chats)
    requires r.user == s.requests[i].user && r.at == s.requests[i].at && r.charge == s.requests[i].charge
    requires !r.stage.Charging? && Fits(c, r) && OwnRecords(s.log, i, r)
    requires s'.gate.slots + SlotsOf(r) == s.gate.slots + SlotsOf(s.requests[i])
    requires s'.gate.permits + PermitsOf(r) == s.gate.permits + PermitsOf(s.requests[i])
    ensures Inv(c, s')
  {
    FitMoves(c, s.requests, i, r);
    GateMoves(c, s.gate, s'.gate, s.requests, i, r);
    assert Backed(s.quota.log, s.quota.txs, s.requests[i]);
    QuotaMoves(s.quota.log, s.quota.txs, s.requests, i, r);
    RecordsMove(s.log, s.requests, i, r);
  }

  /** A move to another stage that keeps charge and calls. */
  lemma StageMoves(c: Config, s: State, s': State, i: nat, stage: Stage)
    requires Inv(c, s) && i < |s.requests| && !stage.Charging?
    requires s' == Goto(s, i, stage).(gate := s'.gate, chats := s'.chats)
    requires Fits(c, s.requests[i].(stage := stage))
    requires s'.gate.slots + SlotsOf(s.requests[i].(stage := stage)) == s.gate.slots + SlotsOf(s.requests[i])
    requires s'.gate.permits + PermitsOf(s.requests[i].(stage := stage)) == s.gate.permits + PermitsOf(s.requests[i])
    ensures Inv(c, s')
  {
    assert OwnRecords(s.log, i, s.requests[i]);
    Moves(c, s, s', i, s.requests[i].(stage := stage));
  }

  lemma FitsOf(c: Config, s: State, i: nat)
    requires Inv(c, s) && i < |s.requests|
    ensures Fits(c, s.requests[i]) && Backed(s.quota.log, s.quota.txs, s.requests[i])
    ensures OwnRecords(s.log, i, s.requests[i])
  {}

  predicate Fresh(r: Request) {
    r.stage.Arrived? && r.charge.None? && r.chat.None? && Untried(r)
  }

  lemma GateGrows(c: Config, g: G.Room, rs: seq<Request>, r: Request)
    requires GateOk(c, g, rs) && Fresh(r)
    ensures GateOk(c, g, rs + [r])
  {
    SumAppend(rs, r, SlotsOf);
    SumAppend(rs, r, PermitsOf);
  }

  lemma QuotaGrows(log: seq<Q.Entry>, txs: seq<Q.Tx>, rs: seq<Request>, r: Request)
    requires QuotaOk(log, txs, rs) && Fresh(r)
    ensures QuotaOk(log, txs, rs + [r])
  {
    SumAppend(rs, r, PaidOf);
  }

  lemma RecordsGrow(log: seq<B.Event>, rs: seq<Request>, r: Request)
    requires RecordsOk(log, rs) && Fresh(r)
    ensures RecordsOk(log, rs + [r])
  {
    assert R.Own(log, |rs|) == [];
  }

  lemma ArriveKeeps(c: Config, s: State, s': State, r: Request)
    requires Inv(c, s) && s' == s.(requests := s.requests + [r]) && Fresh(r)
    ensures Inv(c, s')
  {
    GateGrows(c, s.gate, s.requests, r);
    QuotaGrows(s.quota.log, s.quota.txs, s.requests, r);
    RecordsGrow(s.log, s.requests, r);
  }

  lemma AdviceIsBounded(c: Config, b: B.Breaker, log: seq<B.Event>, clock: real, now: real)
    requires ValidConfig(c) && BreakerOk(c, b, log, clock) && clock <= now && B.Refuses(b, c.limits, now)
    ensures 1 <= B.RetryAfter(b, c.limits, now) <= c.limits.resetSeconds
  {
    B.LaterClocked(log, clock, now);
    B.RefusalIsInTheWindow(log, c.limits, now);
  }

  lemma BeforeCallKeeps(c: Config, s: State, s': State, i: nat, now: real)
    requires Inv(c, s) && At(s, i, Checked) && s.clock <= now && s' == DoBeforeCall(c, s, i, now)
    ensures Inv(c, s')
  {
    FitsOf(c, s, i);
    var checked := s.(breaker := B.Step(s.breaker, c.limits, B.Check(now)), log := s.log + [B.Check(now)], clock := now);
    CheckLogs(c, s, checked, now);
    if B.Refuses(s.breaker, c.limits, now) {
      AdviceIsBounded(c, s.breaker, s.log, s.clock, now);
      StageMoves(c, checked, s', i, Done(CircuitOpen(B.RetryAfter(s.breaker, c.limits, now))));
    } else {
      StageMoves(c, checked, s', i, Passed);
    }
  }

  lemma CheckLogs(c: Config, s: State, checked: State, now: real)
    requires Inv(c, s) && s.clock <= now
    requires checked == s.(breaker := B.Step(s.breaker, c.limits, B.Check(now)), log := s.log + [B.Check(now)], clock := now)
    ensures Inv(c, checked)
  {
    BreakerLogs(c, s.breaker, s.log, s.clock, B.Check(now), now);
    CheckRecordsNothing(s.log, now, s.requests);
  }

  /** While a request holds a slot the queue is not full, so its token goes back. */
  lemma TokenFits(c: Config, s: State, i: nat)
    requires Inv(c, s) && i < |s.requests| && SlotsOf(s.requests[i]) == 1
    ensures s.gate.slots < c.poolSize + c.queueSize
  {
    SumUpdate(s.requests, i, s.requests[i], SlotsOf);
  }

  lemma ReleaseSlotKeeps(c: Config, s: State, s': State, i: nat)
    requires Inv(c, s) && i < |s.requests| && s.requests[i].stage.Released? && s' == DoReleaseSlot(c, s, i)
    ensures Inv(c, s')
  {
    FitsOf(c, s, i);
    TokenFits(c, s, i);
    StageMoves(c, s, s', i, s'.requests[i].stage);
  }

  lemma EnterKeeps(c: Config, s: State, s': State, i: nat)
    requires Inv(c, s) && At(s, i, Passed) && s' == DoEnter(s, i)
    ensures Inv(c, s')
  {
    FitsOf(c, s, i);
    StageMoves(c, s, s', i, s'.requests[i].stage);
  }

  lemma BeginChargeKeeps(c: Config, s: State, s': State, i: nat)
    requires Inv(c, s) && At(s, i, Admitted) && s' == DoBeginCharge(s, i)
    ensures Inv(c, s')
  {
    var r := s.requests[i];
    var r' := r.(stage := Charging(|s.quota.txs|));
    FitsOf(c, s, i);
    QT.ReachableNext(s.quota, s'.quota, Q.BeginCharge(r.user, r.at));
    QuotaLater(s.quota.log, s.quota.txs, s'.quota.txs, s.requests);
    FitMoves(c, s.requests, i, r');
    GateMoves(c, s.gate, s'.gate, s.requests, i, r');
    QuotaMoves(s.quota.log, s'.quota.txs, s.requests, i, r');
    RecordsMove(s.log, s.requests, i, r');
  }

  lemma CallKeeps(c: Config, s: State, s': State, i: nat)
    requires Inv(c, s) && (At(s, i, Charged) || At(s, i, Retrying)) && s' == DoCall(s, i)
    ensures Inv(c, s')
  {
    FitsOf(c, s, i);
    Moves(c, s, s', i, s'.requests[i]);
  }

  /** The end of an attempt, as far as gate, quota and the request itself go. */
  lemma ConcludeMoves(c: Config, s: State, i: nat, outcome: R.Outcome<Reply>, r: Request)
    requires Inv(c, s) && At(s, i, Calling)
    requires r == s.requests[i].(stage := StageAfter(outcome, s.requests[i].calls, c.maxAttempts),
                                 outcomes := s.requests[i].outcomes + [outcome])
    requires Fits(c, r)
    ensures AllFit(c, s.requests[i := r]) && GateOk(c, s.gate, s.requests[i := r])
    ensures QuotaOk(s.quota.log, s.quota.txs, s.requests[i := r])
  {
    FitsOf(c, s, i);
    FitMoves(c, s.requests, i, r);
    GateMoves(c, s.gate, s.gate, s.requests, i, r);
    QuotaMoves(s.quota.log, s.quota.txs, s.requests, i, r);
  }

  lemma ConcludeKeeps(c: Config, s: State, s': State, i: nat, now: real, outcome: R.Outcome<Reply>)
    requires Inv(c, s) && At(s, i, Calling) && s.clock <= now && s' == DoConclude(c, s, i, now, outcome)
    ensures Inv(c, s')
  {
    var r := s'.requests[i];
    FitsOf(c, s, i);
    AttemptConcludes(c, s.requests[i], outcome, r);
    ConcludeMoves(c, s, i, outcome, r);
    RecordLands(s.log, outcome, now, s.requests, i, r);
    match EventOf(outcome, now, i)
    case None => B.LaterClocked(s.log, s.clock, now);
    case Some(e) => BreakerLogs(c, s.breaker, s.log, s.clock, e, now);
  }

  /** Whatever a request was doing, it may end aborted. */
  lemma AbortFits(c: Config, r: Request)
    requires Fits(c, r) && !r.stage.Leaving? && !r.stage.Released? && !r.stage.Done?
    ensures EndFits(c, Aborted, r)
  {}

  lemma AbortKeeps(c: Config, s: State, s': State, i: nat)
    requires Inv(c, s) && i < |s.requests| && DoAbort(s, i) == Some(s')
    ensures Inv(c, s')
  {
    FitsOf(c, s, i);
    AbortLeaves(s, s', i);
    AbortFits(c, s.requests[i]);
    EndMoves(c, s, s', i, s'.requests[i].stage);
  }

  lemma AbortLeaves(s: State, s': State, i: nat)
    requires i < |s.requests| && DoAbort(s, i) == Some(s')
    ensures !s.requests[i].stage.Leaving? && !s.requests[i].stage.Released? && !s.requests[i].stage.Done?
    ensures |s'.requests| == |s.requests| && s' == Goto(s, i, s'.requests[i].stage)
    ensures var stage := s'.requests[i].stage;
            && stage == (if Runs(s.requests[i].stage) then Leaving(Aborted)
                         else if s.requests[i].stage.Waiting? then Released(Aborted) else Done(Aborted))
            && SlotsOf(s.requests[i].(stage := stage)) == SlotsOf(s.requests[i])
            && PermitsOf(s.requests[i].(stage := stage)) == PermitsOf(s.requests[i])
  {}

  /** A move out, of a request that may end so. */
  lemma EndMoves(c: Config, s: State, s': State, i: nat, stage: Stage)
    requires Inv(c, s) && i < |s.requests|
    requires match stage
             case Leaving(end) => InsideEnd(end) && EndFits(c, end, s.requests[i])
             case Released(end) => InsideEnd(end) && EndFits(c, end, s.requests[i])
             case Done(end) => InsideEnd(end) && EndFits(c, end, s.requests[i])
             case _ => false
    requires s' == Goto(s, i, stage).(gate := s'.gate, chats := s'.chats)
    requires s'.gate.slots + SlotsOf(s.requests[i].(stage := stage)) == s.gate.slots + SlotsOf(s.requests[i])
    requires s'.gate.permits + PermitsOf(s.requests[i].(stage := stage)) == s.gate.permits + PermitsOf(s.requests[i])
    ensures Inv(c, s')
  {
    FitsOf(c, s, i);
    StageMoves(c, s, s', i, stage);
  }

  lemma PersistKeeps(c: Config, s: State, s': State, i: nat)
    requires Inv(c, s) && At(s, i, Persisting) && s' == DoPersist(s, i)
    ensures Inv(c, s')
  {
    FitsOf(c, s, i);
    AbortFits(c, s.requests[i]);
    PersistEnds(s, s', i);
    EndMoves(c, s, s', i, s'.requests[i].stage);
  }

  lemma PersistEnds(s: State, s': State, i: nat)
    requires i < |s.requests| && s' == DoPersist(s, i)
    ensures |s'.requests| == |s.requests| && s'.requests[i].stage in {Done(Ok), Done(Aborted)}
    ensures s' == Goto(s, i, s'.requests[i].stage).(chats := s'.chats)
  {}

  // ----- The charge inside a request -----

  lemma QuotaTxKept(q: Q.State, q': Q.State, e: Q.Event)
    requires Q.Reachable(q) && Q.Next(q, e) == Some(q')
    ensures Q.Reachable(q') && |q.txs| <= |q'.txs|
    ensures forall t :: 0 <= t < |q.txs| ==> q'.txs[t].user == q.txs[t].user && q'.txs[t].at == q.txs[t].at
  {
    QT.ReachableInv(q);
    QT.ReachableNext(q, q', e);
    forall t | 0 <= t < |q.txs|
      ensures t < |q'.txs| && q'.txs[t].user == q.txs[t].user && q'.txs[t].at == q.txs[t].at
    {
      if QI.Moves(e, t) {
        OwnTxKept(q, q', e, t);
      } else {
        QT.OthersSame(q, q', e, t);
      }
    }
    QI.EventKeeps(q, q', e);
  }

  lemma OwnTxKept(q: Q.State, q': Q.State, e: Q.Event, t: nat)
    requires QI.Inv(q) && Q.Next(q, e) == Some(q') && t < |q.txs| && QI.Moves(e, t)
    ensures t < |q'.txs| && q'.txs[t].user == q.txs[t].user && q'.txs[t].at == q.txs[t].at
  {
    if e.Advance? && !q.txs[t].pc.Charged? {
      QI.StepLocal(q, q', t);
    }
  }

  predicate Won(pc: Q.Pc) {
    pc.Finished? && pc.outcome.Success?
  }

  lemma WonWithUnit(pc: Q.Pc)
    requires Won(pc)
    ensures pc == Q.Finished(Success(()))
  {
    match pc.outcome.value
    case () =>
  }

  /** A charge's step either commits, growing the log by its own entry, or leaves the log alone and does
      not end in a success. */
  lemma ChargeStepCases(q: Q.State, q': Q.State, t: nat)
    requires Q.Reachable(q) && t < |q.txs| && Q.Step(q, t) == Some(q')
    ensures Q.Reachable(q') && |q'.txs| == |q.txs|
    ensures Won(q'.txs[t].pc) ==> exists g :: q'.log == q.log + [Q.Entry(q.txs[t].user, q.txs[t].at, g)]
    ensures !Won(q'.txs[t].pc) ==> q'.log == q.log
  {
    assert Q.Next(q, Q.Advance(t)) == Some(q');
    QuotaTxKept(q, q', Q.Advance(t));
    if q.txs[t].pc.Charged? {
      QT.CommitsAreAtomicCharges(q, q', t);
    } else {
      QT.RefusalsWriteNothing(q, q', t);
      if Won(q'.txs[t].pc) {
        WonWithUnit(q'.txs[t].pc);
        assert false;
      }
    }
  }

  lemma ChargeKeeps(c: Config, s: State, s': State, i: nat)
    requires Inv(c, s) && i < |s.requests| && s.requests[i].stage.Charging? && DoCharge(s, i) == Some(s')
    ensures Inv(c, s')
  {
    var t := s.requests[i].stage.tx;
    FitsOf(c, s, i);
    ChargeStepCases(s.quota, s'.quota, t);
    QuotaTxKept(s.quota, s'.quota, Q.Advance(t));
    if Won(s'.quota.txs[t].pc) {
      ChargeCommits(c, s, s', i, s'.quota);
    } else {
      ChargeGoesOn(c, s, s', i, s'.quota);
    }
  }

  lemma ChargeGoesOn(c: Config, s: State, s': State, i: nat, q': Q.State)
    requires Inv(c, s) && i < |s.requests| && s.requests[i].stage.Charging? && s.requests[i].stage.tx < |q'.txs|
    requires s' == AfterChargeStep(s, i, s.requests[i].stage.tx, q')
    requires !Won(q'.txs[s.requests[i].stage.tx].pc)
    requires Q.Reachable(q') && q'.log == s.quota.log && Later(s.quota.log, s.quota.txs, s.quota.log, q'.txs)
    ensures Inv(c, s')
  {
    var t := s.requests[i].stage.tx;
    FitsOf(c, s, i);
    QuotaLater(s.quota.log, s.quota.txs, q'.txs, s.requests);
    if q'.txs[t].pc.Finished? {
      StageMoves(c, s.(quota := q'), s', i, Leaving(QuotaRefused(q'.txs[t].pc.outcome.error)));
    }
  }

  lemma ChargeCommits(c: Config, s: State, s': State, i: nat, q': Q.State)
    requires Inv(c, s) && i < |s.requests| && s.requests[i].stage.Charging?
    requires s' == s.(quota := q', requests := s.requests[i := s.requests[i].(stage := Charged, charge := Some(|s.quota.log|))])
    requires Q.Reachable(q') && Later(s.quota.log, s.quota.txs, s.quota.log, q'.txs)
    requires exists g :: q'.log == s.quota.log + [Q.Entry(s.requests[i].user, s.requests[i].at, g)]
    ensures Inv(c, s')
  {
    FitsOf(c, s, i);
    var r' := s'.requests[i];
    var g :| q'.log == s.quota.log + [Q.Entry(s.requests[i].user, s.requests[i].at, g)];
    QuotaCommits(s.quota.log, s.quota.txs, Q.Entry(r'.user, r'.at, g), q'.txs, s.requests, i, r');
    FitMoves(c, s.requests, i, r');
    GateMoves(c, s.gate, s'.gate, s.requests, i, r');
    RecordsMove(s.log, s.requests, i, r');
  }

  lemma CrashWritesNothing(q: Q.State, q': Q.State, t: nat)
    requires Q.Next(q, Q.Crash(t)) == Some(q')
    ensures q'.log == q.log
  {}

  lemma ChargeDiesKeeps(c: Config, s: State, s': State, i: nat)
    requires Inv(c, s) && i < |s.requests| && s.requests[i].stage.Charging? && DoChargeDies(s, i) == Some(s')
    ensures Inv(c, s')
  {
    FitsOf(c, s, i);
    var t := s.requests[i].stage.tx;
    QuotaTxKept(s.quota, s'.quota, Q.Crash(t));
    CrashWritesNothing(s.quota, s'.quota, t);
    QuotaLater(s.quota.log, s.quota.txs, s'.quota.txs, s.requests);
    StageMoves(c, s.(quota := s'.quota), s', i, Leaving(Aborted));
  }

  lemma SyncKeeps(c: Config, s: State, s': State, e: Q.Event)
    requires Inv(c, s) && DoSync(s, e) == Some(s')
    ensures Inv(c, s')
  {
    QuotaTxKept(s.quota, s'.quota, e);
    if e.Advance? {
      QT.OnlyCommitsWrite(s.quota, s'.quota, e.t);
    }
    QuotaLater(s.quota.log, s.quota.txs, s'.quota.txs, s.requests);
  }

  lemma CheckKeeps(c: Config, s: State, s': State, i: nat, drawn: ChatId)
    requires Inv(c, s) && At(s, i, Arrived) && s' == DoCheck(c, s, i, drawn)
    ensures Inv(c, s')
  {
    FitsOf(c, s, i);
    Moves(c, s, s', i, s'.requests[i]);
  }

  lemma AcquireKeeps(c: Config, s: State, s': State, i: nat)
    requires Inv(c, s) && At(s, i, Waiting) && DoAcquire(s, i) == Some(s')
    ensures Inv(c, s')
  {
    FitsOf(c, s, i);
    StageMoves(c, s, s', i, Admitted);
  }

  lemma JudgeKeeps(c: Config, s: State, s': State, i: nat)
    requires Inv(c, s) && i < |s.requests| && s.requests[i].stage.Answered?
    requires s' == Goto(s, i, Leaving(Verdict(s.requests[i].stage.reply)))
    ensures Inv(c, s')
  {
    FitsOf(c, s, i);
    StageMoves(c, s, s', i, s'.requests[i].stage);
  }

  lemma ReleasePermitKeeps(c: Config, s: State, s': State, i: nat)
    requires Inv(c, s) && i < |s.requests| && s.requests[i].stage.Leaving?
    requires s' == Goto(s, i, Released(s.requests[i].stage.end)).(gate := G.GivePermit(s.gate))
    ensures Inv(c, s')
  {
    FitsOf(c, s, i);
    StageMoves(c, s, s', i, s'.requests[i].stage);
  }

  /** Entering and leaving: nothing is charged, called or stored. */
  predicate OnTheWay(e: Event) {
    e.Arrive? || e.Check? || e.BeforeCall? || e.Enter? || e.Acquire? || e.ReleasePermit? || e.ReleaseSlot? || e.Abort?
  }

  predicate AtTheGate(e: Event) {
    e.Enter? || e.Acquire? || e.ReleasePermit? || e.ReleaseSlot?
  }

  lemma GateKeeps(c: Config, s: State, s': State, e: Event)
    requires Inv(c, s) && Next(c, s, e) == Some(s') && AtTheGate(e)
    ensures Inv(c, s')
  {
    match e
    case Enter(i) => EnterKeeps(c, s, s', i);
    case Acquire(i) => AcquireKeeps(c, s, s', i);
    case ReleasePermit(i) => ReleasePermitKeeps(c, s, s', i);
    case ReleaseSlot(i) => ReleaseSlotKeeps(c, s, s', i);
  }

  lemma DoorKeeps(c: Config, s: State, s': State, e: Event)
    requires Inv(c, s) && Next(c, s, e) == Some(s') && OnTheWay(e) && !AtTheGate(e)
    ensures Inv(c, s')
  {
    match e
    case Arrive(user, at, kind) => ArriveKeeps(c, s, s', NewRequest(user, at, kind));
    case Check(i, drawn) => CheckKeeps(c, s, s', i, drawn);
    case BeforeCall(i, now) => BeforeCallKeeps(c, s, s', i, now);
    case Abort(i) => AbortKeeps(c, s, s', i);
  }

  lemma WorkKeeps(c: Config, s: State, s': State, e: Event)
    requires Inv(c, s) && Next(c, s, e) == Some(s') && !OnTheWay(e)
    ensures Inv(c, s')
  {
    match e
    case BeginCharge(i) => BeginChargeKeeps(c, s, s', i);
    case Charge(i) => ChargeKeeps(c, s, s', i);
    case ChargeDies(i) => ChargeDiesKeeps(c, s, s', i);
    case Call(i) => CallKeeps(c, s, s', i);
    case Conclude(i, now, outcome) => ConcludeKeeps(c, s, s', i, now, outcome);
    case Judge(i) => JudgeKeeps(c, s, s', i);
    case Persist(i) => PersistKeeps(c, s, s', i);
    case Delete(_, _) =>
    case Sync(q) => SyncKeeps(c, s, s', q);
  }

  lemma EventKeeps(c: Config, s: State, s': State, e: Event)
    requires Inv(c, s) && Next(c, s, e) == Some(s')
    ensures Inv(c, s')
  {
    if AtTheGate(e) {
      GateKeeps(c, s, s', e);
    } else if OnTheWay(e) {
      DoorKeeps(c, s, s', e);
    } else {
      WorkKeeps(c, s, s', e);
    }
  }
}
