/** Runs that exist: a request served alone ends as the sequential reading of the code says, stored answer
    included; and two requests whose checks overlap go over a limit, so the limits hold exactly while requests
    of a kind are never in flight together. */
module ChatRuns {
  import opened Wrappers
  import opened ChatMachine
  import opened ChatInvariant
  import opened ChatTheorems
  import opened ChatStorage
  import opened ChatOwners
  import opened ChatProgress
  import B = Breaker
  import G = Gate
  import R = Retry
  import M = QuotaModel
  import Q = QuotaMachine
  import QR = QuotaRuns

  // ----- Getting from one state to another -----

  ghost predicate Path(c: Config, path: seq<State>) {
    |path| > 0 && forall k :: 0 <= k < |path| - 1 ==> StepsAt(c, path, k)
  }

  ghost predicate Goes(c: Config, s: State, s': State) {
    exists path :: Path(c, path) && path[0] == s && path[|path| - 1] == s'
  }

  lemma GoesNowhere(c: Config, s: State)
    ensures Goes(c, s, s)
  {
    assert Path(c, [s]) && [s][0] == s;
  }

  lemma GoesStep(c: Config, s: State, s': State, s'': State, e: Event)
    requires Goes(c, s, s') && Next(c, s', e) == Some(s'')
    ensures Goes(c, s, s'')
  {
    var path :| Path(c, path) && path[0] == s && path[|path| - 1] == s';
    var longer := path + [s''];
    assert Successor(c, s', s'');
    forall k | 0 <= k < |longer| - 1 ensures StepsAt(c, longer, k) {
      if k < |path| - 1 { assert StepsAt(c, path, k); }
    }
    assert Path(c, longer) && longer[0] == s && longer[|longer| - 1] == s'';
  }

  lemma GoesOn(c: Config, s: State, s': State, s'': State)
    requires Goes(c, s, s') && Goes(c, s', s'')
    ensures Goes(c, s, s'')
  {
    var first :| Path(c, first) && first[0] == s && first[|first| - 1] == s';
    var second :| Path(c, second) && second[0] == s' && second[|second| - 1] == s'';
    var path := first + second[1..];
    forall k | 0 <= k < |path| - 1 ensures StepsAt(c, path, k) {
      if k < |first| - 1 {
        assert StepsAt(c, first, k);
      } else {
        assert StepsAt(c, second, k - |first| + 1);
        assert path[k] == second[k - |first| + 1];
      }
    }
    assert Path(c, path) && path[0] == s && path[|path| - 1] == s'';
  }

  lemma ReachableGoes(c: Config, s: State, s': State)
    requires Reachable(c, s) && Goes(c, s, s')
    ensures Reachable(c, s')
  {
    var run :| Run(c, run) && run[|run| - 1] == s;
    var path :| Path(c, path) && path[0] == s && path[|path| - 1] == s';
    var longer := run + path[1..];
    forall k | 0 <= k < |longer| - 1 ensures StepsAt(c, longer, k) {
      if k < |run| - 1 {
        assert StepsAt(c, run, k);
      } else {
        assert StepsAt(c, path, k - |run| + 1);
        assert longer[k] == path[k - |run| + 1];
      }
    }
    assert Run(c, longer) && longer[|longer| - 1] == s';
  }

  // ----- One request alone -----

  /** Only request `i` is different, and asks for the same; what it holds of the gate aside, the rest is as
      it was. */
  ghost predicate Beside(s: State, s': State, i: nat) {
    && i < |s.requests| && |s'.requests| == |s.requests| && s'.requests == s.requests[i := s'.requests[i]]
    && s'.requests[i].user == s.requests[i].user && s'.requests[i].at == s.requests[i].at
    && s'.requests[i].kind == s.requests[i].kind && s'.requests[i].chat == s.requests[i].chat
    && s'.clock == s.clock
  }

  lemma BesideThen(s: State, s': State, s'': State, i: nat)
    requires Beside(s, s', i) && Beside(s', s'', i)
    ensures Beside(s, s'', i)
  {}

  /** Nobody holds a row lock. */
  predicate Idle(s: State) {
    s.quota.grantLock == map[] && s.quota.usageLock == map[]
  }

  /** The gate lets the request in at once. */
  predicate Roomy(c: Config, s: State) {
    !B.Refuses(s.breaker, c.limits, s.clock) && s.gate.slots > 0 && s.gate.permits > 0
  }

  lemma SoloAdmit(c: Config, s: State, i: nat) returns (s': State)
    requires At(s, i, Checked) && Roomy(c, s)
    ensures Goes(c, s, s') && Beside(s, s', i) && s'.requests[i] == s.requests[i].(stage := Admitted)
    ensures s'.gate == G.Room(s.gate.slots - 1, s.gate.permits - 1) && s'.quota == s.quota && s'.chats == s.chats
  {
    GoesNowhere(c, s);
    var s1 := DoBeforeCall(c, s, i, s.clock);
    GoesStep(c, s, s, s1, BeforeCall(i, s.clock));
    var s2 := DoEnter(s1, i);
    GoesStep(c, s, s1, s2, Enter(i));
    s' := DoAcquire(s2, i).value;
    GoesStep(c, s, s2, s', Acquire(i));
  }

  /** The request `i` once its charge has come to the outcome that the quota machine finished with. */
  ghost predicate Settled(s: State, s': State, i: nat, outcome: Result<(), M.QuotaError>) {
    && Beside(s, s', i) && s'.gate == s.gate && s'.chats == s.chats && s'.breaker == s.breaker
    && match outcome
       case Success(_) =>
         s'.requests[i] == s.requests[i].(stage := Charged, charge := s'.requests[i].charge) && s'.requests[i].charge.Some?
       case Failure(e) => s'.requests[i] == s.requests[i].(stage := Leaving(QuotaRefused(e)))
  }

  lemma ChargeOnce(c: Config, s: State, i: nat, t: nat, q: Q.State) returns (s': State)
    requires At(s, i, Charging(t)) && t < |s.quota.txs| && Q.Step(s.quota, t) == Some(q) && t < |q.txs|
    ensures Next(c, s, Charge(i)) == Some(s') && s'.quota == q
    ensures if q.txs[t].pc.Finished? then Settled(s, s', i, q.txs[t].pc.outcome) else s' == s.(quota := q)
  {
    s' := AfterChargeStep(s, i, t, q);
  }

  /** The steps of a charge alone are the request's. */
  lemma {:induction false} ReplayCharge(c: Config, s: State, i: nat, path: seq<Q.State>, q': Q.State, t: nat)
    returns (s': State)
    requires At(s, i, Charging(t)) && QR.Leads(path, s.quota, q', t) && |path| > 1
    requires t < |q'.txs| && q'.txs[t].pc.Finished?
    ensures Goes(c, s, s') && s'.quota == q' && Settled(s, s', i, q'.txs[t].pc.outcome)
    decreases |path|
  {
    GoesNowhere(c, s);
    var k := 0;
    assert t < |path[k].txs| && Q.Step(path[k], t) == Some(path[k + 1]);
    if |path| == 2 {
      s' := ChargeOnce(c, s, i, t, q');
      GoesStep(c, s, s, s', Charge(i));
    } else {
      k := 1;
      assert t < |path[k].txs| && Q.Step(path[k], t) == Some(path[k + 1]);
      var s1 := ChargeOnce(c, s, i, t, path[1]);
      GoesStep(c, s, s, s1, Charge(i));
      RestLeads(path, s.quota, q', t);
      s' := ReplayCharge(c, s1, i, path[1..], q', t);
      GoesOn(c, s, s1, s');
    }
  }

  lemma RestLeads(path: seq<Q.State>, q: Q.State, q': Q.State, t: nat)
    requires QR.Leads(path, q, q', t) && |path| > 1
    ensures QR.Leads(path[1..], path[1], q', t)
  {
    var rest := path[1..];
    forall k | 0 <= k < |rest| - 1 ensures t < |rest[k].txs| && Q.Step(rest[k], t) == Some(rest[k + 1]) {
      var m := k + 1;
      assert t < |path[m].txs| && Q.Step(path[m], t) == Some(path[m + 1]);
    }
  }

  /** The charge of a request alone: the atomic charge on the rows it finds, or its refusal. */
  ghost predicate Paid(s: State, s': State, i: nat) {
    && Beside(s, s', i) && s'.gate == s.gate && s'.chats == s.chats && s'.breaker == s.breaker && Idle(s')
    && match M.ChargeOutcome(s.quota.store, s.requests[i].user, s.requests[i].at)
       case Success(store) =>
         && s'.requests[i] == s.requests[i].(stage := Charged, charge := s'.requests[i].charge)
         && s'.requests[i].charge.Some? && s'.quota.store == store && |s'.quota.log| == |s.quota.log| + 1
       case Failure(e) =>
         && s'.requests[i] == s.requests[i].(stage := Leaving(QuotaRefused(e)))
         && s'.quota.store == s.quota.store && s'.quota.log == s.quota.log
  }

  lemma SoloPay(c: Config, s: State, i: nat) returns (s': State)
    requires Reachable(c, s) && At(s, i, Admitted) && Idle(s)
    ensures Goes(c, s, s') && Paid(s, s', i)
  {
    GoesNowhere(c, s);
    var t, r := |s.quota.txs|, s.requests[i];
    var s1 := DoBeginCharge(s, i);
    GoesStep(c, s, s, s1, BeginCharge(i));
    ReachableGoes(c, s, s1);
    ReachableQuota(c, s1);
    assert s1.quota.txs[t] == NewCharge(r.user, r.at);
    var q, path := QR.SoloCharge(s1.quota, t);
    LongPath(path, s1.quota, q, t);
    s' := ReplayCharge(c, s1, i, path, q, t);
    GoesOn(c, s, s1, s');
  }

  lemma LongPath(path: seq<Q.State>, q: Q.State, q': Q.State, t: nat)
    requires QR.Leads(path, q, q', t) && t < |q.txs| && t < |q'.txs| && !q.txs[t].pc.Finished? && q'.txs[t].pc.Finished?
    ensures |path| > 1
  {}

  /** The attempts of a request alone: those at which the loop stops, and the end they come to. */
  ghost predicate Tried(s: State, s': State, i: nat, os: seq<R.Outcome<Reply>>, n: nat)
    requires 0 < n <= |os|
  {
    && Beside(s, s', i) && s'.gate == s.gate && s'.chats == s.chats && s'.quota == s.quota
    && s'.requests[i] == s.requests[i].(stage := Leaving(EndOf(R.Triage(os[n - 1]))), calls := n, outcomes := os[..n])
    && (os[n - 1].Returned? ==> s'.breaker == B.CLOSED)
  }

  lemma CallAlone(c: Config, s: State, i: nat)
    requires At(s, i, Charged) || At(s, i, Retrying)
    ensures Next(c, s, Call(i)) == Some(DoCall(s, i)) && Goes(c, s, DoCall(s, i))
  {
    GoesNowhere(c, s);
    GoesStep(c, s, s, DoCall(s, i), Call(i));
  }

  lemma ConcludeAlone(c: Config, s: State, i: nat, outcome: R.Outcome<Reply>)
    requires At(s, i, Calling)
    ensures Goes(c, s, DoConclude(c, s, i, s.clock, outcome))
  {
    GoesNowhere(c, s);
    GoesStep(c, s, s, DoConclude(c, s, i, s.clock, outcome), Conclude(i, s.clock, outcome));
  }

  /** One attempt alone. */
  lemma SoloAttempt(c: Config, s: State, i: nat, outcome: R.Outcome<Reply>) returns (s': State)
    requires At(s, i, Charged) || At(s, i, Retrying)
    ensures Goes(c, s, s') && Beside(s, s', i) && s'.gate == s.gate && s'.chats == s.chats && s'.quota == s.quota
    ensures var r := s.requests[i];
            s'.requests[i] == r.(stage := StageAfter(outcome, r.calls + 1, c.maxAttempts), calls := r.calls + 1,
                                 outcomes := r.outcomes + [outcome])
    ensures outcome.Returned? ==> s'.breaker == B.CLOSED
  {
    CallAlone(c, s, i);
    var s1 := DoCall(s, i);
    ConcludeAlone(c, s1, i, outcome);
    s' := DoConclude(c, s1, i, s1.clock, outcome);
    GoesOn(c, s, s1, s');
  }

  lemma {:induction false} SoloAttempts(c: Config, s: State, i: nat, os: seq<R.Outcome<Reply>>, n: nat, k: nat)
    returns (s': State)
    requires R.Stops(os, c.maxAttempts, n) && k < n && i < |s.requests|
    requires (At(s, i, Charged) && k == 0) || At(s, i, Retrying)
    requires s.requests[i].calls == k && s.requests[i].outcomes == os[..k]
    ensures Goes(c, s, s') && Tried(s, s', i, os, n)
    decreases n - k
  {
    var s1 := SoloAttempt(c, s, i, os[k]);
    assert os[..k] + [os[k]] == os[..k + 1];
    if k < n - 1 {
      assert R.ShouldRetry(R.Triage(os[k]));
      s' := SoloAttempts(c, s1, i, os, n, k + 1);
      GoesOn(c, s, s1, s');
      BesideThen(s, s1, s', i);
    } else {
      s' := SoloJudge(c, s1, i, os, n);
      GoesOn(c, s, s1, s');
      BesideThen(s, s1, s', i);
    }
  }

  lemma SoloJudge(c: Config, s: State, i: nat, os: seq<R.Outcome<Reply>>, n: nat) returns (s': State)
    requires R.Stops(os, c.maxAttempts, n) && At(s, i, StageAfter(os[n - 1], n, c.maxAttempts))
    requires s.requests[i].calls == n && s.requests[i].outcomes == os[..n]
    requires os[n - 1].Returned? ==> s.breaker == B.CLOSED
    ensures Goes(c, s, s') && Tried(s, s', i, os, n)
  {
    GoesNowhere(c, s);
    if s.requests[i].stage.Answered? {
      s' := Goto(s, i, Leaving(Verdict(s.requests[i].stage.reply)));
      GoesStep(c, s, s, s', Judge(i));
    } else {
      s' := s;
      assert s.requests == s.requests[i := s.requests[i]];
    }
  }

  /** Out of the gate: what was taken is free again. */
  lemma SoloLeave(c: Config, s: State, i: nat, end: Ending) returns (s': State)
    requires At(s, i, Leaving(end)) && s.gate.slots < c.poolSize + c.queueSize
    ensures Goes(c, s, s') && Beside(s, s', i)
    ensures s'.requests[i] == s.requests[i].(stage := if end == Ok then Persisting else Done(end))
    ensures s'.gate == G.Room(s.gate.slots + 1, s.gate.permits + 1)
    ensures s'.quota == s.quota && s'.chats == s.chats && s'.breaker == s.breaker
  {
    GoesNowhere(c, s);
    var s1 := Goto(s, i, Released(end)).(gate := G.GivePermit(s.gate));
    GoesStep(c, s, s, s1, ReleasePermit(i));
    s' := DoReleaseSlot(c, s1, i);
    GoesStep(c, s, s1, s', ReleaseSlot(i));
  }

  // ----- The sequential reading -----

  /** What a request that was let in leaves behind: the gate as it was, the rows charged once unless the quota
      refused it, its attempts, and its two messages if it ended well. */
  ghost predicate Served(s: State, s': State, i: nat, os: seq<R.Outcome<Reply>>, n: nat, end: Ending)
    requires 0 < n <= |os|
  {
    && Beside(s, s', i) && Idle(s') && s'.gate == s.gate
    && s'.requests[i].stage == (if end == Ok then Persisting else Done(end)) && s'.chats == s.chats
    && (if end.QuotaRefused? then
          s'.quota.store == s.quota.store && s'.quota.log == s.quota.log && s'.requests[i].calls == s.requests[i].calls
        else
          && M.ChargeOutcome(s.quota.store, s.requests[i].user, s.requests[i].at) == Success(s'.quota.store)
          && |s'.quota.log| == |s.quota.log| + 1
          && s'.requests[i].calls == n && s'.requests[i].outcomes == os[..n])
    && (end == Ok ==> s'.breaker == B.CLOSED)
  }

  lemma EndOfIsNoRefusal(a: R.Answer<Reply>)
    ensures !EndOf(a).QuotaRefused? && (EndOf(a) == Ok ==> a.Value?)
  {}

  /** The attempts, if the charge let the request on. */
  lemma SoloTry(c: Config, s: State, i: nat, os: seq<R.Outcome<Reply>>, n: nat) returns (s': State, end: Ending)
    requires R.Stops(os, c.maxAttempts, n) && i < |s.requests| && Untried(s.requests[i])
    requires s.requests[i].stage.Charged? || (s.requests[i].stage.Leaving? && s.requests[i].stage.end.QuotaRefused?)
    ensures Goes(c, s, s') && Beside(s, s', i) && At(s', i, Leaving(end))
    ensures s'.gate == s.gate && s'.quota == s.quota && s'.chats == s.chats
    ensures if s.requests[i].stage.Leaving? then end == s.requests[i].stage.end && s'.requests[i] == s.requests[i]
            else end == EndOf(R.Triage(os[n - 1])) && s'.requests[i].calls == n && s'.requests[i].outcomes == os[..n]
    ensures s.requests[i].stage.Charged? && end == Ok ==> s'.breaker == B.CLOSED
  {
    GoesNowhere(c, s);
    if s.requests[i].stage.Charged? {
      assert os[..0] == [];
      s' := SoloAttempts(c, s, i, os, n, 0);
      end := EndOf(R.Triage(os[n - 1]));
    } else {
      s', end := s, s.requests[i].stage.end;
      assert s.requests == s.requests[i := s.requests[i]];
    }
  }

  /** In, and charged or refused. */
  ghost predicate ChargedInside(s: State, s': State, i: nat) {
    && Beside(s, s', i) && Idle(s') && s'.chats == s.chats
    && s.gate.slots > 0 && s.gate.permits > 0 && s'.gate == G.Room(s.gate.slots - 1, s.gate.permits - 1)
    && match M.ChargeOutcome(s.quota.store, s.requests[i].user, s.requests[i].at)
       case Success(store) =>
         && s'.requests[i] == s.requests[i].(stage := Charged, charge := s'.requests[i].charge)
         && s'.quota.store == store && |s'.quota.log| == |s.quota.log| + 1
       case Failure(e) =>
         && s'.requests[i] == s.requests[i].(stage := Leaving(QuotaRefused(e)))
         && s'.quota.store == s.quota.store && s'.quota.log == s.quota.log
  }

  lemma SoloIn(c: Config, s: State, i: nat) returns (s': State)
    requires Reachable(c, s) && At(s, i, Checked) && Roomy(c, s) && Idle(s)
    ensures Goes(c, s, s') && ChargedInside(s, s', i)
  {
    var s1 := SoloAdmit(c, s, i);
    ReachableGoes(c, s, s1);
    s' := SoloPay(c, s1, i);
    GoesOn(c, s, s1, s');
    BesideThen(s, s1, s', i);
  }

  lemma SoloOut(c: Config, s: State, i: nat, os: seq<R.Outcome<Reply>>, n: nat) returns (s': State, end: Ending)
    requires R.Stops(os, c.maxAttempts, n) && i < |s.requests| && Untried(s.requests[i])
    requires s.requests[i].stage.Charged? || (s.requests[i].stage.Leaving? && s.requests[i].stage.end.QuotaRefused?)
    requires s.gate.slots < c.poolSize + c.queueSize
    ensures Goes(c, s, s') && Beside(s, s', i) && s'.quota == s.quota && s'.chats == s.chats
    ensures s'.gate == G.Room(s.gate.slots + 1, s.gate.permits + 1)
    ensures s'.requests[i].stage == if end == Ok then Persisting else Done(end)
    ensures if s.requests[i].stage.Leaving? then end == s.requests[i].stage.end && s'.requests[i].calls == s.requests[i].calls
            else end == EndOf(R.Triage(os[n - 1])) && s'.requests[i].calls == n && s'.requests[i].outcomes == os[..n]
    ensures s.requests[i].stage.Charged? && end == Ok ==> s'.breaker == B.CLOSED
  {
    var s1;
    s1, end := SoloTry(c, s, i, os, n);
    s' := SoloLeave(c, s1, i, end);
    GoesOn(c, s, s1, s');
    BesideThen(s, s1, s', i);
  }

  lemma ServedByParts(s: State, s1: State, s': State, i: nat, os: seq<R.Outcome<Reply>>, n: nat, end: Ending)
    requires 0 < n <= |os| && ChargedInside(s, s1, i) && Beside(s1, s', i) && s'.quota == s1.quota && s'.chats == s1.chats
    requires s'.gate == G.Room(s1.gate.slots + 1, s1.gate.permits + 1)
    requires s'.requests[i].stage == if end == Ok then Persisting else Done(end)
    requires if s1.requests[i].stage.Leaving? then end == s1.requests[i].stage.end && s'.requests[i].calls == s1.requests[i].calls
             else end == EndOf(R.Triage(os[n - 1])) && s'.requests[i].calls == n && s'.requests[i].outcomes == os[..n]
    requires s1.requests[i].stage.Charged? && end == Ok ==> s'.breaker == B.CLOSED
    ensures Served(s, s', i, os, n, end)
    ensures match M.ChargeOutcome(s.quota.store, s.requests[i].user, s.requests[i].at)
            case Failure(e) => end == QuotaRefused(e)
            case Success(_) => end == EndOf(R.Triage(os[n - 1]))
  {
    BesideThen(s, s1, s', i);
    EndOfIsNoRefusal(R.Triage(os[n - 1]));
  }

  /** From the gate to the way out, alone. */
  lemma SoloInside(c: Config, s: State, i: nat, os: seq<R.Outcome<Reply>>, n: nat) returns (s': State, end: Ending)
    requires Reachable(c, s) && At(s, i, Checked) && Roomy(c, s) && Idle(s) && R.Stops(os, c.maxAttempts, n)
    ensures Goes(c, s, s') && Served(s, s', i, os, n, end)
    ensures match M.ChargeOutcome(s.quota.store, s.requests[i].user, s.requests[i].at)
            case Failure(e) => end == QuotaRefused(e)
            case Success(_) => end == EndOf(R.Triage(os[n - 1]))
  {
    ReachableRequest(c, s, i);
    GateIsConserved(c, s);
    var s1 := SoloIn(c, s, i);
    s', end := SoloOut(c, s1, i, os, n);
    GoesOn(c, s, s1, s');
    ServedByParts(s, s1, s', i, os, n, end);
  }

  /** The two messages, where the chat is as the request needs it. */
  lemma SoloStore(c: Config, s: State, i: nat) returns (s': State)
    requires At(s, i, Persisting) && s.requests[i].chat.Some?
    requires s.requests[i].kind.Send? <==> s.requests[i].chat.value in s.chats
    ensures Goes(c, s, s') && Beside(s, s', i) && s'.requests[i] == s.requests[i].(stage := Done(Ok))
    ensures Appended(s.chats, s'.chats, s.requests[i])
    ensures s'.gate == s.gate && s'.quota == s.quota && s'.breaker == s.breaker
  {
    GoesNowhere(c, s);
    s' := DoPersist(s, i);
    GoesStep(c, s, s, s', Persist(i));
    PersistAppends(s, s', i);
  }

  /** Run alone from its check on, a request whose charge goes through and whose answer validates ends well:
      one charge, the attempts the loop makes, and its question and answer stored. */
  lemma SoloAnswered(c: Config, s: State, i: nat, os: seq<R.Outcome<Reply>>, n: nat) returns (s': State)
    requires Reachable(c, s) && At(s, i, Checked) && Roomy(c, s) && Idle(s) && R.Stops(os, c.maxAttempts, n)
    requires M.ChargeOutcome(s.quota.store, s.requests[i].user, s.requests[i].at).Success?
    requires EndsAs(os[n - 1], Ok)
    requires s.requests[i].chat.Some? && (s.requests[i].kind.Send? <==> s.requests[i].chat.value in s.chats)
    ensures Goes(c, s, s') && Beside(s, s', i) && At(s', i, Done(Ok))
    ensures M.ChargeOutcome(s.quota.store, s.requests[i].user, s.requests[i].at) == Success(s'.quota.store)
    ensures |s'.quota.log| == |s.quota.log| + 1 && s'.requests[i].calls == n
    ensures Appended(s.chats, s'.chats, s.requests[i])
    ensures s'.gate == s.gate && Idle(s') && s'.breaker == B.CLOSED
  {
    EndIsSpelledOut(os[n - 1]);
    var s1, end := SoloInside(c, s, i, os, n);
    s' := SoloStore(c, s1, i);
    GoesOn(c, s, s1, s');
    BesideThen(s, s1, s', i);
  }

  lemma SoloCheck(c: Config, s: State, i: nat, drawn: ChatId) returns (s': State)
    requires At(s, i, Arrived) && Unused(s, drawn)
    ensures Goes(c, s, s') && Next(c, s, Check(i, drawn)) == Some(s') && s' == DoCheck(c, s, i, drawn)
  {
    GoesNowhere(c, s);
    s' := DoCheck(c, s, i, drawn);
    GoesStep(c, s, s, s', Check(i, drawn));
  }

  /** The ending of a request that runs alone: the sequential reading of `create_chat` and `send_message`, in
      the order of its refusals. */
  ghost predicate Ends(c: Config, s: State, r: Request, last: R.Outcome<Reply>, end: Ending) {
    if NotTheirs(s.chats, r.user, r.kind) then end == ServiceRefused(InvalidChat)
    else if Unspoken(c, r.kind) then end == ServiceRefused(UnsupportedLanguage)
    else if Full(c, s.chats, r.user, r.kind) then end == ServiceRefused(ChatHistoryLimit)
    else PassedEnds(c, s, r, last, end)
  }

  /** The ending of a request that has passed its checks. */
  ghost predicate PassedEnds(c: Config, s: State, r: Request, last: R.Outcome<Reply>, end: Ending) {
    if B.Refuses(s.breaker, c.limits, s.clock) then end == CircuitOpen(B.RetryAfter(s.breaker, c.limits, s.clock))
    else if s.gate.slots == 0 then end == QueueFull
    else
      match M.ChargeOutcome(s.quota.store, r.user, r.at)
      case Failure(e) => end == QuotaRefused(e)
      case Success(_) => EndsAs(last, end)
  }

  /** Run alone, a request ends, by steps of its own, as the sequential reading says, and a message that is
      answered went to a chat of its sender's. */
  lemma SoloServe(c: Config, s: State, i: nat, os: seq<R.Outcome<Reply>>, n: nat) returns (s': State, end: Ending)
    requires Reachable(c, s) && At(s, i, Arrived) && Idle(s) && R.Stops(os, c.maxAttempts, n)
    requires s.gate.permits > 0 || s.gate.slots == 0
    ensures Goes(c, s, s') && At(s', i, Done(end)) && Ends(c, s, s.requests[i], os[n - 1], end)
    ensures end == Ok ==> |s'.quota.log| == |s.quota.log| + 1 && s'.requests[i].calls == n
                          && s'.requests[i].chat.Some? && Appended(s.chats, s'.chats, s'.requests[i])
  {
    var drawn := SomeIdIsUnused(s);
    var s1 := SoloCheck(c, s, i, drawn);
    CheckAnswers(c, s, s1, i, drawn);
    if s1.requests[i].stage.Done? {
      s', end := s1, s1.requests[i].stage.end;
    } else {
      ReachableGoes(c, s, s1);
      s', end := SoloChecked(c, s1, i, os, n);
      GoesOn(c, s, s1, s');
    }
  }

  lemma SoloChecked(c: Config, s: State, i: nat, os: seq<R.Outcome<Reply>>, n: nat) returns (s': State, end: Ending)
    requires Reachable(c, s) && At(s, i, Checked) && Idle(s) && R.Stops(os, c.maxAttempts, n)
    requires s.gate.permits > 0 || s.gate.slots == 0
    requires s.requests[i].chat.Some? && (s.requests[i].kind.Send? <==> s.requests[i].chat.value in s.chats)
    ensures Goes(c, s, s') && At(s', i, Done(end))
    ensures PassedEnds(c, s, s.requests[i], os[n - 1], end)
    ensures end == Ok ==> |s'.quota.log| == |s.quota.log| + 1 && s'.requests[i].calls == n
                          && s'.requests[i].chat == s.requests[i].chat && s'.requests[i].kind == s.requests[i].kind
                          && s'.requests[i].user == s.requests[i].user && Appended(s.chats, s'.chats, s.requests[i])
  {
    if !Roomy(c, s) {
      s', end := SoloTurnedAway(c, s, i);
    } else {
      s', end := SoloInside(c, s, i, os, n);
      EndIsSpelledOut(os[n - 1]);
      if end == Ok {
        EndOfIsNoRefusal(R.Triage(os[n - 1]));
        var s1 := s';
        s' := SoloStore(c, s1, i);
        GoesOn(c, s, s1, s');
      }
    }
  }

  lemma SoloTurnedAway(c: Config, s: State, i: nat) returns (s': State, end: Ending)
    requires At(s, i, Checked) && (B.Refuses(s.breaker, c.limits, s.clock) || s.gate.slots == 0)
    ensures Goes(c, s, s') && At(s', i, Done(end))
    ensures end == if B.Refuses(s.breaker, c.limits, s.clock) then CircuitOpen(B.RetryAfter(s.breaker, c.limits, s.clock))
                   else QueueFull
  {
    GoesNowhere(c, s);
    s' := DoBeforeCall(c, s, i, s.clock);
    GoesStep(c, s, s, s', BeforeCall(i, s.clock));
    end := QueueFull;
    if B.Refuses(s.breaker, c.limits, s.clock) {
      end := s'.requests[i].stage.end;
    } else {
      var s1 := s';
      s' := DoEnter(s1, i);
      GoesStep(c, s, s1, s', Enter(i));
    }
  }
}
