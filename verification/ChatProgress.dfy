/** A request inside its charge runs a transaction of its own that has not ended, so it is never stuck:
    it can always step or give up. */
module ChatProgress {
  import opened Wrappers
  import opened ChatMachine
  import opened ChatInvariant
  import opened ChatTheorems
  import R = Retry
  import Q = QuotaMachine
  import QT = QuotaTheorems
  import QI = QuotaInvariant

  predicate Open(txs: seq<Q.Tx>, t: nat) {
    t < |txs| && Q.IsCharge(txs[t].pc) && !Q.Ended(txs[t].pc)
  }

  /** Requests inside their charge and open transactions belong to each other, one to one. */
  ghost predicate Charges(txs: seq<Q.Tx>, rs: seq<Request>) {
    && (forall i :: 0 <= i < |rs| && rs[i].stage.Charging? ==> Open(txs, rs[i].stage.tx))
    && (forall i, j :: 0 <= i < j < |rs| && rs[i].stage.Charging? && rs[j].stage.Charging? ==>
          rs[i].stage.tx != rs[j].stage.tx)
    && (forall t: nat :: Open(txs, t) ==> Owned(rs, t))
  }

  predicate Owned(rs: seq<Request>, t: nat) {
    exists i :: 0 <= i < |rs| && rs[i].stage == Charging(t)
  }

  /** Requests only leave their charge, with a transaction that closes, and no other one opens. */
  lemma ChargesKept(txs: seq<Q.Tx>, rs: seq<Request>, txs': seq<Q.Tx>, rs': seq<Request>)
    requires Charges(txs, rs) && |rs| <= |rs'|
    requires forall i :: 0 <= i < |rs'| && rs'[i].stage.Charging? ==>
               i < |rs| && rs'[i].stage == rs[i].stage && Open(txs', rs[i].stage.tx)
    requires forall t: nat :: Open(txs', t) ==> Open(txs, t)
    requires forall i :: 0 <= i < |rs| && rs[i].stage.Charging? ==> rs'[i].stage == rs[i].stage || !Open(txs', rs[i].stage.tx)
    ensures Charges(txs', rs')
  {
    forall t: nat | Open(txs', t) ensures Owned(rs', t) {
      assert Owned(rs, t);
      var i :| 0 <= i < |rs| && rs[i].stage == Charging(t);
      assert rs'[i].stage == Charging(t);
    }
  }

  lemma SyncNeverCharges(q: Q.State, q': Q.State, t: nat)
    requires t < |q.txs| && !Q.IsCharge(q.txs[t].pc) && Q.Step(q, t) == Some(q')
    ensures t < |q'.txs| && !Q.IsCharge(q'.txs[t].pc)
  {}

  lemma StepNeedsOpen(q: Q.State, t: nat)
    requires t < |q.txs| && Q.IsCharge(q.txs[t].pc) && Q.Step(q, t).Some?
    ensures Open(q.txs, t)
  {}

  /** No event but a charge's beginning opens a transaction. */
  lemma WasOpen(q: Q.State, q': Q.State, e: Q.Event, t: nat)
    requires Q.Reachable(q) && Q.Next(q, e) == Some(q') && Open(q'.txs, t) && !e.BeginCharge?
    ensures Open(q.txs, t)
  {
    if t >= |q.txs| {
      NewIsSync(q, q', e, t);
      assert false;
    } else if !QI.Moves(e, t) {
      QT.ReachableInv(q);
      QT.OthersSame(q, q', e, t);
    } else if Q.IsCharge(q.txs[t].pc) {
      if e.Advance? { StepNeedsOpen(q, t); }
    } else if e.Advance? {
      SyncNeverCharges(q, q', t);
    }
  }

  lemma NoneOpens(q: Q.State, q': Q.State, e: Q.Event)
    requires Q.Reachable(q) && Q.Next(q, e) == Some(q') && !e.BeginCharge?
    ensures forall t: nat :: Open(q'.txs, t) ==> Open(q.txs, t)
  {
    forall t: nat | Open(q'.txs, t) ensures Open(q.txs, t) {
      WasOpen(q, q', e, t);
    }
  }

  lemma NewIsSync(q: Q.State, q': Q.State, e: Q.Event, t: nat)
    requires Q.Reachable(q) && Q.Next(q, e) == Some(q') && !e.BeginCharge? && |q.txs| <= t < |q'.txs|
    ensures !Q.IsCharge(q'.txs[t].pc)
  {
    QT.ReachableInv(q);
    if e.Advance? { QT.StepSame(q, q', e.t); }
  }

  lemma StaysOpen(q: Q.State, q': Q.State, e: Q.Event, t: nat)
    requires Q.Reachable(q) && Q.Next(q, e) == Some(q') && Open(q.txs, t) && !QI.Moves(e, t)
    ensures Open(q'.txs, t)
  {
    QT.ReachableInv(q);
    QT.OthersSame(q, q', e, t);
  }

  /** An open charge steps to an open charge, or to its outcome. */
  lemma OpenSteps(q: Q.State, q': Q.State, t: nat)
    requires Q.Reachable(q) && Open(q.txs, t) && Q.Step(q, t) == Some(q')
    ensures |q'.txs| == |q.txs| && (Open(q'.txs, t) || q'.txs[t].pc.Finished?)
  {
    QT.ReachableInv(q);
    QT.StepSame(q, q', t);
    QT.ChargeNeverSees(q, q', t);
  }

  lemma ChargeMoves(c: Config, s: State, s': State, i: nat)
    requires Inv(c, s) && Charges(s.quota.txs, s.requests) && Next(c, s, Charge(i)) == Some(s')
    ensures Charges(s'.quota.txs, s'.requests)
  {
    var t, q := ChargesAt(c, s, s', i);
    ChargingKeepsCharges(s, s', i, t, q);
  }

  lemma ChargesAt(c: Config, s: State, s': State, i: nat) returns (t: nat, q: Q.State)
    requires Next(c, s, Charge(i)) == Some(s')
    ensures i < |s.requests| && s.requests[i].stage == Charging(t) && t < |s.quota.txs|
    ensures Q.Step(s.quota, t) == Some(q) && s' == AfterChargeStep(s, i, t, q)
  {
    t := s.requests[i].stage.tx;
    q := Q.Step(s.quota, t).value;
  }

  lemma ChargingKeepsCharges(s: State, s': State, i: nat, t: nat, q: Q.State)
    requires Q.Reachable(s.quota) && Charges(s.quota.txs, s.requests)
    requires i < |s.requests| && s.requests[i].stage == Charging(t) && t < |s.quota.txs|
    requires Q.Step(s.quota, t) == Some(q) && s' == AfterChargeStep(s, i, t, q)
    ensures Charges(s'.quota.txs, s'.requests)
  {
    assert Q.Next(s.quota, Q.Advance(t)) == Some(q);
    OpenSteps(s.quota, q, t);
    StepStays(s, s', i, t, q);
    forall j | 0 <= j < |s'.requests| && s'.requests[j].stage.Charging?
      ensures s'.requests[j].stage == s.requests[j].stage && Open(q.txs, s.requests[j].stage.tx)
    {
      if j != i {
        StaysOpen(s.quota, q, Q.Advance(t), s.requests[j].stage.tx);
      }
    }
    NoneOpens(s.quota, q, Q.Advance(t));
    ChargesKept(s.quota.txs, s.requests, q.txs, s'.requests);
  }

  lemma StepStays(s: State, s': State, i: nat, t: nat, q: Q.State)
    requires i < |s.requests| && s.requests[i].stage == Charging(t) && s' == AfterChargeStep(s, i, t, q)
    requires t < |q.txs|
    ensures |s'.requests| == |s.requests| && s'.requests == s.requests[i := s'.requests[i]] && s'.quota == q
    ensures s'.requests[i].stage.Charging? <==> !q.txs[t].pc.Finished?
    ensures s'.requests[i].stage.Charging? ==> s'.requests[i].stage == Charging(t)
  {}

  lemma ChargeDiesMoves(c: Config, s: State, s': State, i: nat)
    requires Inv(c, s) && Charges(s.quota.txs, s.requests) && Next(c, s, ChargeDies(i)) == Some(s')
    ensures Charges(s'.quota.txs, s'.requests)
  {
    DiesAt(c, s, s', i);
    DyingKeepsCharges(s, s', i, s.requests[i].stage.tx);
  }

  lemma DiesAt(c: Config, s: State, s': State, i: nat)
    requires Next(c, s, ChargeDies(i)) == Some(s')
    ensures i < |s.requests| && s.requests[i].stage.Charging?
    ensures Q.Next(s.quota, Q.Crash(s.requests[i].stage.tx)) == Some(s'.quota)
    ensures s'.requests == s.requests[i := s.requests[i].(stage := Leaving(Aborted))]
  {}

  lemma DyingKeepsCharges(s: State, s': State, i: nat, t: nat)
    requires Q.Reachable(s.quota) && Charges(s.quota.txs, s.requests) && Q.Next(s.quota, Q.Crash(t)) == Some(s'.quota)
    requires i < |s.requests| && s.requests[i].stage == Charging(t)
    requires s'.requests == s.requests[i := s.requests[i].(stage := Leaving(Aborted))]
    ensures Charges(s'.quota.txs, s'.requests)
  {
    forall j | 0 <= j < |s'.requests| && s'.requests[j].stage.Charging?
      ensures s'.requests[j].stage == s.requests[j].stage && Open(s'.quota.txs, s.requests[j].stage.tx)
    {
      StaysOpen(s.quota, s'.quota, Q.Crash(t), s.requests[j].stage.tx);
    }
    NoneOpens(s.quota, s'.quota, Q.Crash(t));
    ChargesKept(s.quota.txs, s.requests, s'.quota.txs, s'.requests);
  }

  lemma SyncMoves(c: Config, s: State, s': State, e: Q.Event)
    requires Inv(c, s) && Charges(s.quota.txs, s.requests) && DoSync(s, e) == Some(s')
    ensures Charges(s'.quota.txs, s'.requests)
  {
    forall j | 0 <= j < |s.requests| && s.requests[j].stage.Charging?
      ensures Open(s'.quota.txs, s.requests[j].stage.tx)
    {
      StaysOpen(s.quota, s'.quota, e, s.requests[j].stage.tx);
    }
    NoneOpens(s.quota, s'.quota, e);
    ChargesKept(s.quota.txs, s.requests, s'.quota.txs, s'.requests);
  }

  lemma BeginMoves(c: Config, s: State, s': State, i: nat)
    requires Charges(s.quota.txs, s.requests) && Next(c, s, BeginCharge(i)) == Some(s')
    ensures Charges(s'.quota.txs, s'.requests)
  {
    var txs, txs' := s.quota.txs, s'.quota.txs;
    assert txs'[|txs|].pc.Locking?;
    forall j | 0 <= j < |s.requests| && s'.requests[j].stage.Charging?
      ensures Open(txs', s'.requests[j].stage.tx) && (j != i ==> s'.requests[j].stage.tx < |txs|)
    {
      if j != i { assert Open(txs, s.requests[j].stage.tx); }
    }
    forall t: nat | Open(txs', t) ensures Owned(s'.requests, t) {
      if t == |txs| {
        assert s'.requests[i].stage == Charging(t);
      } else {
        assert Open(txs, t) && Owned(s.requests, t);
        var j :| 0 <= j < |s.requests| && s.requests[j].stage == Charging(t);
        assert s'.requests[j].stage == Charging(t);
      }
    }
  }

  /** No other event starts a charge or touches a transaction. */
  lemma QuietMoves(c: Config, s: State, s': State, e: Event)
    requires Next(c, s, e) == Some(s') && !e.BeginCharge? && !e.Charge? && !e.ChargeDies? && !e.Sync? && !e.Arrive?
    ensures |s'.requests| == |s.requests| && s'.quota == s.quota
    ensures e.Delete? || (e.i < |s.requests| && !s.requests[e.i].stage.Charging? && !s'.requests[e.i].stage.Charging?
                          && s'.requests == s.requests[e.i := s'.requests[e.i]])
  {}

  lemma QuietKeeps(c: Config, s: State, s': State, e: Event)
    requires Charges(s.quota.txs, s.requests) && Next(c, s, e) == Some(s')
    requires !e.BeginCharge? && !e.Charge? && !e.ChargeDies? && !e.Sync?
    ensures Charges(s'.quota.txs, s'.requests)
  {
    if !e.Arrive? {
      QuietMoves(c, s, s', e);
    }
    ChargesKept(s.quota.txs, s.requests, s'.quota.txs, s'.requests);
  }

  lemma SuccessorCharges(c: Config, s: State, s': State)
    requires Inv(c, s) && Charges(s.quota.txs, s.requests) && Successor(c, s, s')
    ensures Charges(s'.quota.txs, s'.requests)
  {
    var e :| Next(c, s, e) == Some(s');
    match e
    case BeginCharge(i) => BeginMoves(c, s, s', i);
    case Charge(i) => ChargeMoves(c, s, s', i);
    case ChargeDies(i) => ChargeDiesMoves(c, s, s', i);
    case Sync(q) => SyncMoves(c, s, s', q);
    case _ => QuietKeeps(c, s, s', e);
  }

  lemma {:induction false} RunCharges(c: Config, run: seq<State>, k: nat)
    requires Run(c, run) && k < |run|
    ensures Charges(run[k].quota.txs, run[k].requests)
  {
    if k > 0 {
      RunCharges(c, run, k - 1);
      RunInv(c, run, k - 1);
      assert StepsAt(c, run, k - 1);
      SuccessorCharges(c, run[k - 1], run[k]);
    }
  }

  lemma ReachableCharges(c: Config, s: State)
    requires Reachable(c, s)
    ensures Charges(s.quota.txs, s.requests)
  {
    var run :| Run(c, run) && run[|run| - 1] == s;
    RunCharges(c, run, |run| - 1);
  }

  lemma OpenCanGiveUp(c: Config, s: State, i: nat)
    requires i < |s.requests| && s.requests[i].stage.Charging? && Open(s.quota.txs, s.requests[i].stage.tx)
    ensures Next(c, s, ChargeDies(i)).Some?
  {}

  /** In every reachable state a charging request has an open transaction that is nobody else's, and can be
      given up. */
  lemma ChargingIsOpen(c: Config, s: State, i: nat)
    requires Reachable(c, s) && i < |s.requests| && s.requests[i].stage.Charging?
    ensures Open(s.quota.txs, s.requests[i].stage.tx)
    ensures forall j :: 0 <= j < |s.requests| && j != i ==> s.requests[j].stage != s.requests[i].stage
    ensures Next(c, s, ChargeDies(i)).Some?
  {
    ReachableCharges(c, s);
    assert Open(s.quota.txs, s.requests[i].stage.tx);
    OpenCanGiveUp(c, s, i);
    forall j | 0 <= j < |s.requests| && j != i ensures s.requests[j].stage != s.requests[i].stage {
      if s.requests[j].stage.Charging? && j < i { assert s.requests[j].stage.tx != s.requests[i].stage.tx; }
    }
  }

  // ----- Progress of the whole -----

  /** The events by which requests and syncs get on: nothing fails, is given up or newly begins. */
  predicate GetsOn(e: Event) {
    match e
    case Arrive(_, _, _) => false
    case Abort(_) => false
    case ChargeDies(_) => false
    case Delete(_, _) => false
    case Sync(q) => q.Advance?
    case Conclude(_, _, outcome) => outcome.Returned?
    case _ => true
  }

  lemma {:induction false} BeyondAll(ids: set<ChatId>) returns (n: ChatId)
    ensures forall x :: x in ids ==> x < n
  {
    if ids == {} {
      n := 0;
    } else {
      var x :| x in ids;
      var m := BeyondAll(ids - {x});
      n := if m > x then m else x + 1;
      assert forall y :: y in ids ==> y == x || y in ids - {x};
    }
  }

  /** There is always an identifier nobody has. */
  lemma SomeIdIsUnused(s: State) returns (id: ChatId)
    ensures Unused(s, id)
  {
    var drawn := set i | 0 <= i < |s.requests| && s.requests[i].chat.Some? :: s.requests[i].chat.value;
    id := BeyondAll(s.chats.Keys + drawn);
    assert id !in s.chats;
    forall i | 0 <= i < |s.requests| ensures s.requests[i].chat != Some(id) {
      if s.requests[i].chat.Some? { assert s.requests[i].chat.value in drawn; }
    }
  }

  /** Charging or waiting: what a request may have to wait for. */
  predicate MayWait(stage: Stage) {
    stage.Waiting? || stage.Charging?
  }

  /** A request that is not waiting for others can get on itself. */
  lemma OwnStepIsEnabled(c: Config, s: State, i: nat) returns (e: Event)
    requires i < |s.requests| && !s.requests[i].stage.Done? && !MayWait(s.requests[i].stage)
    ensures GetsOn(e) && Next(c, s, e).Some?
  {
    match s.requests[i].stage
    case Arrived =>
      var drawn := SomeIdIsUnused(s);
      e := Check(i, drawn);
    case Checked => e := BeforeCall(i, s.clock);
    case Passed => e := Enter(i);
    case Admitted => e := BeginCharge(i);
    case Charged => e := Call(i);
    case Calling => e := Conclude(i, s.clock, R.Returned(OtherMode));
    case Retrying => e := Call(i);
    case Answered(_) => e := Judge(i);
    case Leaving(_) => e := ReleasePermit(i);
    case Released(_) => e := ReleaseSlot(i);
    case Persisting => e := Persist(i);
  }

  /** While a charge waits, the owner of some transaction, or a sync, can step. */
  lemma ChargeStepIsEnabled(c: Config, s: State, i: nat) returns (e: Event)
    requires Reachable(c, s) && i < |s.requests| && s.requests[i].stage.Charging?
    ensures GetsOn(e) && Next(c, s, e).Some?
  {
    ChargingIsOpen(c, s, i);
    ReachableQuota(c, s);
    QT.SomeoneCanStep(s.quota, s.requests[i].stage.tx);
    var t :| 0 <= t < |s.quota.txs| && Q.Step(s.quota, t).Some?;
    if Q.IsCharge(s.quota.txs[t].pc) {
      StepNeedsOpen(s.quota, t);
      ReachableCharges(c, s);
      assert Owned(s.requests, t);
      var j :| 0 <= j < |s.requests| && s.requests[j].stage == Charging(t);
      e := Charge(j);
    } else {
      e := Sync(Q.Advance(t));
    }
  }

  /** While a request waits for a permit, either one is free or somebody runs inside the pool. */
  lemma SomebodyRuns(c: Config, s: State) returns (j: nat)
    requires Reachable(c, s) && s.gate.permits == 0
    ensures j < |s.requests| && Runs(s.requests[j].stage)
  {
    ReachableInv(c, s);
    if forall j :: 0 <= j < |s.requests| ==> !Runs(s.requests[j].stage) {
      SumZero(s.requests, PermitsOf);
      assert false;
    }
    j :| 0 <= j < |s.requests| && Runs(s.requests[j].stage);
  }

  /** Progress of the composed machine, for any number of requests: while one of them has not ended, some
      request or sync can get on, without any failure, cancellation or newcomer. */
  lemma SomethingGetsOn(c: Config, s: State, i: nat) returns (e: Event)
    requires Reachable(c, s) && i < |s.requests| && !s.requests[i].stage.Done?
    ensures GetsOn(e) && Next(c, s, e).Some?
  {
    var j := i;
    if s.requests[i].stage.Waiting? {
      if s.gate.permits > 0 {
        return Acquire(i);
      }
      j := SomebodyRuns(c, s);
    }
    if s.requests[j].stage.Charging? {
      e := ChargeStepIsEnabled(c, s, j);
    } else {
      e := OwnStepIsEnabled(c, s, j);
    }
  }
}
