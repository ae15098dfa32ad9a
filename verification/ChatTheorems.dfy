/** What whole runs of message requests guarantee, across admission, charge, provider and persistence. */
module ChatTheorems {
  import opened Wrappers
  import opened ChatMachine
  import opened ChatInvariant
  import B = Breaker
  import G = Gate
  import R = Retry
  import M = QuotaModel
  import H = QuotaHistory
  import Q = QuotaMachine
  import QT = QuotaTheorems

  lemma {:induction false} RunInv(c: Config, run: seq<State>, k: nat)
    requires Run(c, run) && k < |run|
    ensures Inv(c, run[k])
  {
    if k == 0 {
      QT.ReachableInit(run[0].quota);
      assert forall i: nat :: R.Own(run[0].log, i) == [];
    } else {
      RunInv(c, run, k - 1);
      assert StepsAt(c, run, k - 1);
      SuccessorKeeps(c, run[k - 1], run[k]);
    }
  }

  lemma SuccessorKeeps(c: Config, s: State, s': State)
    requires Inv(c, s) && Successor(c, s, s')
    ensures Inv(c, s')
  {
    var e :| Next(c, s, e) == Some(s');
    EventKeeps(c, s, s', e);
  }

  lemma ReachableInv(c: Config, s: State)
    requires Reachable(c, s)
    ensures Inv(c, s)
  {
    var run :| Run(c, run) && run[|run| - 1] == s;
    RunInv(c, run, |run| - 1);
  }

  lemma ReachableInit(c: Config, s: State)
    requires ValidConfig(c) && Init(c, s)
    ensures Reachable(c, s)
  {
    assert Run(c, [s]);
  }

  lemma ReachableNext(c: Config, s: State, s': State, e: Event)
    requires Reachable(c, s) && Next(c, s, e) == Some(s')
    ensures Reachable(c, s')
  {
    var run :| Run(c, run) && run[|run| - 1] == s;
    var longer := run + [s'];
    assert Successor(c, s, s');
    forall k | 0 <= k < |longer| - 1 ensures StepsAt(c, longer, k) {
      if k < |run| - 1 { assert StepsAt(c, run, k); }
    }
    assert Run(c, longer) && longer[|longer| - 1] == s';
  }

  lemma ReachableRequest(c: Config, s: State, i: nat)
    requires Reachable(c, s) && i < |s.requests|
    ensures Fits(c, s.requests[i]) && Backed(s.quota.log, s.quota.txs, s.requests[i])
    ensures OwnRecords(s.log, i, s.requests[i]) && Q.Reachable(s.quota)
  {
    ReachableInv(c, s);
    FitsOf(c, s, i);
  }

  // ----- Accounting -----

  /** The request has a committed charge of its own user and instant. */
  predicate PaidByItself(s: State, r: Request) {
    r.charge.Some? && r.charge.value < |s.quota.log|
    && s.quota.log[r.charge.value].user == r.user && s.quota.log[r.charge.value].at == r.at
  }

  /** A provider call only goes out for a request whose own charge has been committed before, which no
      other request shares, and never beyond the attempts allowed. */
  lemma CallsArePaidFirst(c: Config, s: State, s': State, i: nat)
    requires Reachable(c, s) && Next(c, s, Call(i)) == Some(s')
    ensures PaidByItself(s, s.requests[i])
    ensures forall j :: 0 <= j < |s.requests| && j != i ==> s.requests[j].charge != s.requests[i].charge
    ensures s'.requests[i].calls == s.requests[i].calls + 1 <= c.maxAttempts
  {
    CallGoesOut(c, s, s', i);
    PaidAlone(c, s, i);
  }

  lemma CallGoesOut(c: Config, s: State, s': State, i: nat)
    requires Next(c, s, Call(i)) == Some(s')
    ensures i < |s.requests| && (s.requests[i].stage.Charged? || s.requests[i].stage.Retrying?)
    ensures i < |s'.requests| && s'.requests[i].calls == s.requests[i].calls + 1
  {}

  lemma PaidAlone(c: Config, s: State, i: nat)
    requires Reachable(c, s) && i < |s.requests| && (s.requests[i].stage.Charged? || s.requests[i].stage.Retrying?)
    ensures PaidByItself(s, s.requests[i]) && s.requests[i].calls < c.maxAttempts
    ensures forall j :: 0 <= j < |s.requests| && j != i ==> s.requests[j].charge != s.requests[i].charge
  {
    ReachableInv(c, s);
    FitsOf(c, s, i);
    forall j | 0 <= j < |s.requests| && j != i ensures s.requests[j].charge != s.requests[i].charge {
      if j < i { assert OwnCharges(s.requests); }
    }
  }

  lemma PaysOnce(c: Config, rs: seq<Request>)
    requires AllFit(c, rs)
    ensures Sum(rs, CallsOf) <= c.maxAttempts * Sum(rs, PaidOf)
    ensures Sum(rs, StoredOf) <= 1 * Sum(rs, PaidOf)
  {
    forall r | r in rs ensures CallsOf(r) <= c.maxAttempts * PaidOf(r) && StoredOf(r) <= 1 * PaidOf(r) {
      var i :| 0 <= i < |rs| && rs[i] == r;
      assert Fits(c, rs[i]);
    }
    SumAtMost(rs, CallsOf, PaidOf, c.maxAttempts);
    SumAtMost(rs, StoredOf, PaidOf, 1);
  }

  /** Over the whole run: provider calls stay within the attempts allowed per committed charge, stored
      answers within the committed charges, and every committed charge is one request's. */
  lemma AccountsBalance(c: Config, s: State)
    requires Reachable(c, s)
    ensures Sum(s.requests, PaidOf) == |s.quota.log|
    ensures Sum(s.requests, CallsOf) <= c.maxAttempts * |s.quota.log|
    ensures Sum(s.requests, StoredOf) <= |s.quota.log|
  {
    ReachableInv(c, s);
    PaysOnce(c, s.requests);
  }

  /** A request refused by a service check, the breaker, the gate or the quota has committed no charge,
      called no provider and recorded nothing on the breaker. */
  lemma RefusalsCostNothing(c: Config, s: State, i: nat)
    requires Reachable(c, s) && i < |s.requests| && s.requests[i].stage.Done? && Refusal(s.requests[i].stage.end)
    ensures s.requests[i].charge == None && s.requests[i].calls == 0 && R.Own(s.log, i) == []
  {
    ReachableRequest(c, s, i);
  }

  /** How a request ends by how its last call did: well exactly when an analysis or a follow-up validated,
      refused without record when the operation was, aborted when cancelled, and otherwise by whether the
      provider answered at all. */
  ghost predicate EndsAs(outcome: R.Outcome<Reply>, end: Ending) {
    match outcome
    case Returned(reply) => end == if reply == AnalyzeMode(true) || reply == FollowUpMode(true) then Ok else Unusable
    case Raised(_) => end == ProviderFailed
    case Bypassed => end == OperationRefused
    case Cancelled => end == Aborted
  }

  lemma EndIsSpelledOut(outcome: R.Outcome<Reply>)
    ensures EndsAs(outcome, EndOf(R.Triage(outcome)))
  {}

  /** The attempts of a request are those of the retry loop: whatever is interleaved, a request that went
      through its provider calls made another call exactly after each exception that may pass, while any was
      left, ended as the last of them says, and left in the breaker's log exactly what these attempts record,
      in order. */
  lemma AttemptsAreTheRetryLoop(c: Config, s: State, i: nat)
    requires Reachable(c, s) && i < |s.requests| && s.requests[i].stage.Done?
    requires !Refusal(s.requests[i].stage.end) && !s.requests[i].stage.end.Aborted?
    ensures var r := s.requests[i];
            && r.calls == |r.outcomes| && R.GoesThrough(r.outcomes, c.maxAttempts, r.calls)
            && EndsAs(r.outcomes[r.calls - 1], r.stage.end)
            && R.Own(s.log, i) == R.AllRecorded(r.outcomes)
            && PaidByItself(s, r)
  {
    ReachableRequest(c, s, i);
    var r := s.requests[i];
    R.StopsIsSpelledOut(r.outcomes, c.maxAttempts, r.calls);
    EndIsSpelledOut(r.outcomes[r.calls - 1]);
  }

  lemma {:induction false} RecordsAreFewer(os: seq<R.Outcome<Reply>>)
    ensures |R.AllRecorded(os)| <= |os|
  {
    if os != [] { RecordsAreFewer(os[..|os| - 1]); }
  }

  /** At any moment a request's breaker records are what its attempts so far record, at most one a provider
      call, and only a paid request has any. */
  lemma RecordsArePaid(c: Config, s: State, i: nat)
    requires Reachable(c, s) && i < |s.requests|
    ensures R.Own(s.log, i) == R.AllRecorded(s.requests[i].outcomes)
    ensures |R.Own(s.log, i)| <= s.requests[i].calls <= c.maxAttempts
    ensures R.Own(s.log, i) != [] ==> PaidByItself(s, s.requests[i])
  {
    ReachableRequest(c, s, i);
    RecordsAreFewer(s.requests[i].outcomes);
  }

  /** Nothing but a check and the end of an attempt moves the breaker: a quota refusal, a full queue, a
      cancellation or a storage failure never does. */
  lemma OnlyChecksAndAttemptsMoveTheBreaker(c: Config, s: State, s': State, e: Event)
    requires Next(c, s, e) == Some(s') && !e.BeforeCall? && !e.Conclude?
    ensures s'.breaker == s.breaker && s'.log == s.log
  {}

  /** A quota refusal is the refusal of the atomic charge at that moment, and leaves rows, charges and
      breaker as they were. */
  lemma QuotaRefusalIsTrue(c: Config, s: State, s': State, i: nat, e: M.QuotaError)
    requires Reachable(c, s) && Next(c, s, Charge(i)) == Some(s') && At(s', i, Leaving(QuotaRefused(e)))
    ensures M.ChargeOutcome(s.quota.store, s.requests[i].user, s.requests[i].at) == Failure(e)
    ensures s'.quota.store == s.quota.store && s'.quota.log == s.quota.log
    ensures s'.breaker == s.breaker && s'.log == s.log
  {
    ReachableRequest(c, s, i);
    var t := s.requests[i].stage.tx;
    var q := Q.Step(s.quota, t).value;
    RefusedEnding(s, i, t, q, e);
    RefusedStep(s.quota, q, t, e);
  }

  lemma RefusedEnding(s: State, i: nat, t: nat, q: Q.State, e: M.QuotaError)
    requires i < |s.requests| && s.requests[i].stage.Charging?
    requires At(AfterChargeStep(s, i, t, q), i, Leaving(QuotaRefused(e)))
    ensures t < |q.txs| && q.txs[t].pc == Q.Finished(Failure(e))
    ensures AfterChargeStep(s, i, t, q).breaker == s.breaker && AfterChargeStep(s, i, t, q).log == s.log
  {}

  lemma RefusedStep(q: Q.State, q': Q.State, t: nat, e: M.QuotaError)
    requires Q.Reachable(q) && t < |q.txs| && Q.Step(q, t) == Some(q')
    requires t < |q'.txs| && q'.txs[t].pc == Q.Finished(Failure(e))
    ensures M.ChargeOutcome(q.store, q.txs[t].user, q.txs[t].at) == Failure(e)
    ensures q'.store == q.store && q'.log == q.log
  {
    if q.txs[t].pc.Charged? {
      QT.CommitsAreAtomicCharges(q, q', t);
      assert false;
    }
    QT.RefusalsWriteNothing(q, q', t);
  }

  /** The moment a request counts as charged, its rows change by exactly the atomic charge. */
  lemma ChargedIsCommitted(c: Config, s: State, s': State, i: nat)
    requires Reachable(c, s) && Next(c, s, Charge(i)) == Some(s') && At(s', i, Charged)
    ensures M.ChargeOutcome(s.quota.store, s.requests[i].user, s.requests[i].at) == Success(s'.quota.store)
    ensures |s'.quota.log| == |s.quota.log| + 1 && s'.requests[i].charge == Some(|s.quota.log|)
  {
    ReachableRequest(c, s, i);
    WonStep(s.quota, s'.quota, s.requests[i].stage.tx);
  }

  lemma WonStep(q: Q.State, q': Q.State, t: nat)
    requires Q.Reachable(q) && t < |q.txs| && Q.Step(q, t) == Some(q')
    requires t < |q'.txs| && Won(q'.txs[t].pc)
    ensures M.ChargeOutcome(q.store, q.txs[t].user, q.txs[t].at) == Success(q'.store) && |q'.log| == |q.log| + 1
  {
    if !q.txs[t].pc.Charged? {
      QT.RefusalsWriteNothing(q, q', t);
      WonWithUnit(q'.txs[t].pc);
      assert false;
    }
    QT.CommitsAreAtomicCharges(q, q', t);
  }

  // ----- The gate -----

  /** Free slots and held ones make up the pool and the queue, permits and running bodies the pool. */
  lemma GateIsConserved(c: Config, s: State)
    requires Reachable(c, s)
    ensures s.gate.slots + Sum(s.requests, SlotsOf) == c.poolSize + c.queueSize
    ensures s.gate.permits + Sum(s.requests, PermitsOf) == c.poolSize
    ensures Sum(s.requests, PermitsOf) <= c.poolSize && Sum(s.requests, SlotsOf) <= c.poolSize + c.queueSize
  {
    ReachableInv(c, s);
  }

  /** A request finds the queue full exactly when every slot is held, and then it takes nothing. */
  lemma QueueFullExactly(c: Config, s: State, s': State, i: nat)
    requires Reachable(c, s) && Next(c, s, Enter(i)) == Some(s')
    ensures At(s', i, Done(QueueFull)) <==> Sum(s.requests, SlotsOf) == c.poolSize + c.queueSize
    ensures !At(s', i, Done(QueueFull)) ==> At(s', i, Waiting) && s'.gate.slots + 1 == s.gate.slots
    ensures At(s', i, Done(QueueFull)) ==> s'.gate.slots == s.gate.slots && s'.gate.permits == s.gate.permits
  {
    GateIsConserved(c, s);
  }

  /** A request waits for a permit exactly while the pool is full of running bodies. */
  lemma WaitsOnlyForThePool(c: Config, s: State, i: nat)
    requires Reachable(c, s) && At(s, i, Waiting)
    ensures Next(c, s, Acquire(i)).None? <==> Sum(s.requests, PermitsOf) == c.poolSize
  {
    GateIsConserved(c, s);
  }

  /** The slot queue is never full when a token goes back: the swallowed exception cannot occur, and the
      token is free again. */
  lemma TokenGoesBack(c: Config, s: State, s': State, i: nat)
    requires Reachable(c, s) && Next(c, s, ReleaseSlot(i)) == Some(s')
    ensures s.gate.slots < c.poolSize + c.queueSize && s'.gate.slots == s.gate.slots + 1
  {
    SlotIsReleased(c, s, s', i);
    RoomForToken(c, s, i);
  }

  lemma SlotIsReleased(c: Config, s: State, s': State, i: nat)
    requires Next(c, s, ReleaseSlot(i)) == Some(s')
    ensures i < |s.requests| && s.requests[i].stage.Released?
    ensures s'.gate == G.GiveSlot(s.gate, c.poolSize + c.queueSize)
  {}

  lemma RoomForToken(c: Config, s: State, i: nat)
    requires Reachable(c, s) && i < |s.requests| && s.requests[i].stage.Released?
    ensures s.gate.slots < c.poolSize + c.queueSize
  {
    ReachableInv(c, s);
    TokenFits(c, s, i);
  }

  /** Whoever has ended holds neither a slot nor a permit. */
  lemma EndedHoldNothing(c: Config, s: State)
    requires Reachable(c, s) && forall i :: 0 <= i < |s.requests| ==> s.requests[i].stage.Done?
    ensures s.gate.slots == c.poolSize + c.queueSize && s.gate.permits == c.poolSize
  {
    GateIsConserved(c, s);
    SumZero(s.requests, SlotsOf);
    SumZero(s.requests, PermitsOf);
  }

  lemma {:induction false} SumZero(rs: seq<Request>, w: Request -> nat)
    requires forall i :: 0 <= i < |rs| ==> w(rs[i]) == 0
    ensures Sum(rs, w) == 0
  {
    if rs != [] {
      SumZero(rs[..|rs| - 1], w);
    }
  }

  /** A refusal by the breaker happens inside the window its log describes; the advice is the time left of it,
      rounded down to whole seconds but never to none. */
  lemma BreakerRefusesInItsWindow(c: Config, s: State, s': State, i: nat, now: real, retryAfter: int)
    requires Reachable(c, s) && Next(c, s, BeforeCall(i, now)) == Some(s') && At(s', i, Done(CircuitOpen(retryAfter)))
    ensures B.OpenSince(s.log, c.limits).Some?
    ensures B.OpenSince(s.log, c.limits).value <= now < B.OpenSince(s.log, c.limits).value + c.limits.resetSeconds as real
    ensures 1 <= retryAfter <= c.limits.resetSeconds
    ensures var left := B.OpenSince(s.log, c.limits).value + c.limits.resetSeconds as real - now;
            if left >= 1.0 then retryAfter as real <= left < retryAfter as real + 1.0 else retryAfter == 1
  {
    ReachableInv(c, s);
    B.LaterClocked(s.log, s.clock, now);
    B.RefusalIsInTheWindow(s.log, c.limits, now);
    B.AfterIsTheLog(s.log, c.limits);
  }

  // ----- Per grant and per month -----

  /** How many committed charges satisfy `p`. */
  function CountWhere(log: seq<Q.Entry>, p: Q.Entry -> bool): nat {
    if log == [] then 0 else CountWhere(log[..|log| - 1], p) + if p(log[|log| - 1]) then 1 else 0
  }

  function Paid(log: seq<Q.Entry>, p: Q.Entry -> bool, r: Request): nat {
    if r.charge.Some? && r.charge.value < |log| && p(log[r.charge.value]) then 1 else 0
  }

  function PaidWhere(log: seq<Q.Entry>, p: Q.Entry -> bool): Request -> nat {
    (r: Request) => Paid(log, p, r)
  }

  /** The provider calls of the requests whose charge satisfies `p`. */
  function CallsWhere(log: seq<Q.Entry>, p: Q.Entry -> bool): Request -> nat {
    (r: Request) => if Paid(log, p, r) == 1 then r.calls else 0
  }

  lemma {:induction false} SumSame(rs: seq<Request>, w: Request -> nat, rs': seq<Request>, w': Request -> nat)
    requires |rs'| == |rs| && forall i :: 0 <= i < |rs| ==> w'(rs'[i]) == w(rs[i])
    ensures Sum(rs', w') == Sum(rs, w)
  {
    if rs != [] {
      SumSame(rs[..|rs| - 1], w, rs'[..|rs'| - 1], w');
    }
  }

  /** The step leaves every charge as it is, and a new request has none. */
  ghost predicate ChargesSame(s: State, s': State) {
    && s'.quota.log == s.quota.log
    && |s.requests| <= |s'.requests| <= |s.requests| + 1
    && (forall i :: 0 <= i < |s.requests| ==> s'.requests[i].charge == s.requests[i].charge)
    && (|s'.requests| > |s.requests| ==> s'.requests[|s.requests|].charge.None?)
  }

  lemma SameKeepsPaid(s: State, s': State, p: Q.Entry -> bool)
    requires ChargesSame(s, s')
    ensures Sum(s'.requests, PaidWhere(s'.quota.log, p)) == Sum(s.requests, PaidWhere(s.quota.log, p))
  {
    var w := PaidWhere(s.quota.log, p);
    var front := s'.requests[..|s.requests|];
    SumSame(s.requests, w, front, w);
    if |s'.requests| > |s.requests| {
      assert s'.requests == front + [s'.requests[|s.requests|]];
      SumAppend(front, s'.requests[|s.requests|], w);
    } else {
      assert front == s'.requests;
    }
  }

  lemma CommitPays(log: seq<Q.Entry>, e: Q.Entry, rs: seq<Request>, i: nat, r: Request, p: Q.Entry -> bool)
    requires i < |rs| && rs[i].charge.None? && r.charge == Some(|log|)
    requires forall j :: 0 <= j < |rs| && rs[j].charge.Some? ==> rs[j].charge.value < |log|
    ensures Sum(rs[i := r], PaidWhere(log + [e], p)) == Sum(rs, PaidWhere(log, p)) + if p(e) then 1 else 0
    ensures CountWhere(log + [e], p) == CountWhere(log, p) + if p(e) then 1 else 0
  {
    var w, w' := PaidWhere(log, p), PaidWhere(log + [e], p);
    SumSame(rs, w, rs, w');
    SumUpdate(rs, i, r, w');
    assert (log + [e])[..|log|] == log;
  }

  lemma QuietWay(c: Config, s: State, s': State, e: Event)
    requires Next(c, s, e) == Some(s') && OnTheWay(e)
    ensures ChargesSame(s, s')
  {}

  lemma QuietWork(c: Config, s: State, s': State, e: Event)
    requires Next(c, s, e) == Some(s') && !OnTheWay(e) && !e.Charge? && !e.ChargeDies? && !e.Sync?
    ensures ChargesSame(s, s')
  {}

  lemma SyncStep(c: Config, s: State, s': State, e: Event)
    requires Inv(c, s) && Next(c, s, e) == Some(s') && (e.ChargeDies? || e.Sync?)
    ensures ChargesSame(s, s')
  {
    if e.Sync? && e.e.Advance? {
      QT.OnlyCommitsWrite(s.quota, s'.quota, e.e.t);
    }
  }

  lemma ChargeStep(c: Config, s: State, s': State, i: nat, p: Q.Entry -> bool)
    requires Inv(c, s) && Next(c, s, Charge(i)) == Some(s')
    requires Sum(s.requests, PaidWhere(s.quota.log, p)) == CountWhere(s.quota.log, p)
    ensures Sum(s'.requests, PaidWhere(s'.quota.log, p)) == CountWhere(s'.quota.log, p)
  {
    var e := ChargeStepShape(c, s, s', i);
    if !PaysEntry(s, s', i, e) {
      SameKeepsPaid(s, s', p);
    } else {
      ChargesInLog(c, s);
      CommitPays(s.quota.log, e, s.requests, i, s'.requests[i], p);
    }
  }

  /** One entry more, paid by request `i`. */
  ghost predicate PaysEntry(s: State, s': State, i: nat, e: Q.Entry) {
    && i < |s.requests| && |s'.requests| == |s.requests| && s'.requests == s.requests[i := s'.requests[i]]
    && s'.quota.log == s.quota.log + [e]
    && s.requests[i].charge.None? && s'.requests[i].charge == Some(|s.quota.log|)
  }

  /** A charge's step leaves log and charges alone, or adds one entry, paid by its request. */
  lemma ChargeStepShape(c: Config, s: State, s': State, i: nat) returns (e: Q.Entry)
    requires Inv(c, s) && Next(c, s, Charge(i)) == Some(s')
    ensures (s'.quota.log == s.quota.log && ChargesSame(s, s')) || PaysEntry(s, s', i, e)
  {
    var t := s.requests[i].stage.tx;
    FitsOf(c, s, i);
    ChargeStepped(c, s, s', i);
    ChargeStepCases(s.quota, s'.quota, t);
    e := ChargeShape(s, s', i, t, s'.quota);
  }

  lemma ChargeStepped(c: Config, s: State, s': State, i: nat)
    requires Next(c, s, Charge(i)) == Some(s')
    ensures i < |s.requests| && s.requests[i].stage.Charging? && s.requests[i].stage.tx < |s.quota.txs|
    ensures Q.Step(s.quota, s.requests[i].stage.tx) == Some(s'.quota)
    ensures s' == AfterChargeStep(s, i, s.requests[i].stage.tx, s'.quota)
  {}

  lemma ChargeShape(s: State, s': State, i: nat, t: nat, q: Q.State) returns (e: Q.Entry)
    requires i < |s.requests| && s.requests[i].stage == Charging(t) && s.requests[i].charge.None?
    requires t < |s.quota.txs| && t < |q.txs| && s' == AfterChargeStep(s, i, t, q)
    requires Won(q.txs[t].pc) ==> exists g :: q.log == s.quota.log + [Q.Entry(s.quota.txs[t].user, s.quota.txs[t].at, g)]
    requires !Won(q.txs[t].pc) ==> q.log == s.quota.log
    ensures (s'.quota.log == s.quota.log && ChargesSame(s, s')) || PaysEntry(s, s', i, e)
  {
    var tx := s.quota.txs[t];
    e := Q.Entry(tx.user, tx.at, 0);
    if Won(q.txs[t].pc) {
      var g :| q.log == s.quota.log + [Q.Entry(tx.user, tx.at, g)];
      e := Q.Entry(tx.user, tx.at, g);
    }
  }

  lemma ChargesInLog(c: Config, s: State)
    requires Inv(c, s)
    ensures forall j :: 0 <= j < |s.requests| && s.requests[j].charge.Some? ==> s.requests[j].charge.value < |s.quota.log|
  {
    forall j | 0 <= j < |s.requests| && s.requests[j].charge.Some?
      ensures s.requests[j].charge.value < |s.quota.log|
    {
      FitsOf(c, s, j);
    }
  }

  lemma StepPays(c: Config, s: State, s': State, p: Q.Entry -> bool)
    requires Inv(c, s) && Successor(c, s, s')
    requires Sum(s.requests, PaidWhere(s.quota.log, p)) == CountWhere(s.quota.log, p)
    ensures Sum(s'.requests, PaidWhere(s'.quota.log, p)) == CountWhere(s'.quota.log, p)
  {
    var e :| Next(c, s, e) == Some(s');
    if e.Charge? {
      ChargeStep(c, s, s', e.i, p);
    } else {
      if e.ChargeDies? || e.Sync? {
        SyncStep(c, s, s', e);
      } else if OnTheWay(e) {
        QuietWay(c, s, s', e);
      } else {
        QuietWork(c, s, s', e);
      }
      SameKeepsPaid(s, s', p);
    }
  }

  /** Whatever is asked of a committed charge, as many requests paid such a charge as were committed. */
  lemma {:induction false} RunPays(c: Config, run: seq<State>, k: nat, p: Q.Entry -> bool)
    requires Run(c, run) && k < |run|
    ensures Sum(run[k].requests, PaidWhere(run[k].quota.log, p)) == CountWhere(run[k].quota.log, p)
  {
    if k > 0 {
      RunPays(c, run, k - 1, p);
      RunInv(c, run, k - 1);
      assert StepsAt(c, run, k - 1);
      StepPays(c, run[k - 1], run[k], p);
    }
  }

  lemma ReachablePays(c: Config, s: State, p: Q.Entry -> bool)
    requires Reachable(c, s)
    ensures Sum(s.requests, PaidWhere(s.quota.log, p)) == CountWhere(s.quota.log, p)
    ensures AllFit(c, s.requests)
  {
    var run :| Run(c, run) && run[|run| - 1] == s;
    RunPays(c, run, |run| - 1, p);
    RunInv(c, run, |run| - 1);
  }

  lemma CallsWithinPaid(c: Config, rs: seq<Request>, log: seq<Q.Entry>, p: Q.Entry -> bool)
    requires AllFit(c, rs)
    ensures Sum(rs, CallsWhere(log, p)) <= c.maxAttempts * Sum(rs, PaidWhere(log, p))
  {
    var v, w := PaidWhere(log, p), CallsWhere(log, p);
    forall r | r in rs ensures w(r) <= c.maxAttempts * v(r) {
      var i :| 0 <= i < |rs| && rs[i] == r;
      assert Fits(c, rs[i]);
    }
    SumAtMost(rs, w, v, c.maxAttempts);
  }

  /** Provider calls stay within the attempts allowed per committed charge, of whatever kind. */
  lemma CallsWithin(c: Config, s: State, p: Q.Entry -> bool)
    requires Reachable(c, s)
    ensures Sum(s.requests, CallsWhere(s.quota.log, p)) <= c.maxAttempts * CountWhere(s.quota.log, p)
  {
    ReachablePays(c, s, p);
    CallsWithinPaid(c, s.requests, s.quota.log, p);
  }

  function OnGrant(g: M.GrantId): Q.Entry -> bool {
    (e: Q.Entry) => e.grant == g
  }

  function OnGrantIn(g: M.GrantId, period: string): Q.Entry -> bool {
    (e: Q.Entry) => e.grant == g && M.PeriodOf(e.at) == period
  }

  lemma {:induction false} CountsAreHistory(log: seq<Q.Entry>, g: M.GrantId, period: string)
    ensures CountWhere(log, OnGrant(g)) == |Q.HistoryOf(log, g)|
    ensures CountWhere(log, OnGrantIn(g, period)) == H.Count(Q.HistoryOf(log, g), period)
  {
    if log != [] {
      var front, last := log[..|log| - 1], log[|log| - 1];
      CountsAreHistory(front, g, period);
      var history := Q.HistoryOf(front, g);
      assert H.Front(history + [last.at]) == history;
      assert history + [] == history;
    }
  }

  lemma ReachableQuota(c: Config, s: State)
    requires Reachable(c, s)
    ensures Q.Reachable(s.quota)
  {
    ReachableInv(c, s);
  }

  /** The budget end to end: the provider calls that a grant pays for never exceed the attempts allowed
      times its allowance times its epochs. */
  lemma ProviderBudget(c: Config, s: State, g: M.GrantId)
    requires Reachable(c, s) && g in s.quota.store.usage
    ensures g in s.quota.initial.usage
    ensures Sum(s.requests, CallsWhere(s.quota.log, OnGrant(g))) <= c.maxAttempts * QT.GrantBudget(s.quota, g)
  {
    ReachableQuota(c, s);
    QT.SpendingIsBounded(s.quota, g);
    CountsAreHistory(s.quota.log, g, "");
    CallsWithin(c, s, OnGrant(g));
    TimesMonotone(c.maxAttempts, |Q.HistoryOf(s.quota.log, g)|, QT.GrantBudget(s.quota, g));
  }

  /** While captured months do not go back on a grant, the provider calls its charges of one month pay
      for never exceed the attempts allowed times the allowance. */
  lemma MonthlyProviderBudget(c: Config, s: State, g: M.GrantId, period: string)
    requires Reachable(c, s) && g in s.quota.store.usage && H.MonthsAscend(Q.HistoryOf(s.quota.log, g))
    ensures Sum(s.requests, CallsWhere(s.quota.log, OnGrantIn(g, period)))
            <= c.maxAttempts * QT.Allowance(s.quota.store, g)
  {
    ReachableQuota(c, s);
    QT.MonthlySpendingIsBounded(s.quota, g, period);
    CountsAreHistory(s.quota.log, g, period);
    CallsWithin(c, s, OnGrantIn(g, period));
    TimesMonotone(c.maxAttempts, H.Count(Q.HistoryOf(s.quota.log, g), period), QT.Allowance(s.quota.store, g));
  }

  lemma TimesMonotone(k: nat, a: nat, b: nat)
    requires a <= b
    ensures k * a <= k * b
  {}
}
