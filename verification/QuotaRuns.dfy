/** Runs that exist: an undisturbed charge reaches the outcome its specification names, every history of
    charges that finds room is the history of some run, and so a month that is entered twice is overspent
    by some run, although its instants were captured in clock order. */
module QuotaRuns {
  import opened Wrappers
  import opened QuotaModel
  import opened QuotaHistory
  import opened QuotaMachine
  import opened QuotaInvariant
  import opened QuotaTheorems

  // ----- One charge alone -----

  /** Nobody but `t` holds a lock. */
  ghost predicate Alone(s: State, t: nat) {
    && (forall g :: g in s.grantLock ==> s.grantLock[g] == t)
    && (forall g :: g in s.usageLock ==> s.usageLock[g] == t)
  }

  /** `s'` differs from `s` in transaction `t`'s program counter and locks only. */
  ghost predicate Apart(s: State, s': State, t: nat)
    requires t < |s.txs|
  {
    && |s'.txs| == |s.txs| && s'.txs == s.txs[t := s.txs[t].(pc := s'.txs[t].pc)]
    && s'.initial == s.initial
  }

  /** Consecutive steps of transaction `t`. */
  ghost predicate Leads(path: seq<State>, s: State, s': State, t: nat) {
    && |path| > 0 && path[0] == s && path[|path| - 1] == s'
    && forall k :: 0 <= k < |path| - 1 ==> t < |path[k].txs| && Step(path[k], t) == Some(path[k + 1])
  }

  lemma StepThen(s: State, s1: State, s': State, t: nat, path: seq<State>)
    requires t < |s.txs| && Step(s, t) == Some(s1) && Leads(path, s1, s', t)
    ensures Leads([s] + path, s, s', t)
  {}

  lemma LeadsThen(first: seq<State>, second: seq<State>, s: State, s1: State, s': State, t: nat)
    requires Leads(first, s, s1, t) && Leads(second, s1, s', t)
    ensures Leads(first + second[1..], s, s', t)
  {}

  lemma TakeStep(s: State, s': State, t: nat)
    requires Reachable(s) && t < |s.txs| && Step(s, t) == Some(s')
    ensures Reachable(s')
  {
    assert Next(s, Advance(t)) == Some(s');
    ReachableNext(s, s', Advance(t));
  }

  lemma EndAlone(s: State, t: nat, pc: Pc)
    requires t < |s.txs| && Alone(s, t)
    ensures End(s, t, pc).grantLock == map[] && End(s, t, pc).usageLock == map[]
    ensures Apart(s, End(s, t, pc), t)
  {}

  lemma {:induction false} SoloLocks(s: State, t: nat) returns (s': State, path: seq<State>)
    requires Reachable(s) && t < |s.txs| && Alone(s, t)
    requires s.txs[t].pc.Locking? && s.txs[t].pc.todo.Some?
    ensures Reachable(s') && Leads(path, s, s', t)
    ensures Alone(s', t) && Apart(s, s', t) && s'.store == s.store && s'.log == s.log
    ensures s'.txs[t].pc == Locking(Some([]), s.txs[t].pc.got + s.txs[t].pc.todo.value)
    decreases |s.txs[t].pc.todo.value|
  {
    var todo := s.txs[t].pc.todo.value;
    if todo == [] {
      s', path := s, [s];
      assert s.txs[t].pc.got + [] == s.txs[t].pc.got;
      assert s'.txs == s.txs[t := s.txs[t]];
    } else {
      var next := LockGrants(s, t).value;
      TakeStep(s, next, t);
      assert s.txs[t].pc.got + todo == (s.txs[t].pc.got + [todo[0]]) + todo[1..];
      s', path := SoloLocks(next, t);
      StepThen(s, next, s', t, path);
      path := [s] + path;
    }
  }

  ghost predicate Outcome(s: State, s': State, t: nat)
    requires t < |s.txs|
  {
    && Apart(s, s', t) && s'.grantLock == map[] && s'.usageLock == map[]
    && match ChargeOutcome(s.store, s.txs[t].user, s.txs[t].at)
       case Failure(e) => s'.txs[t].pc == Finished(Failure(e)) && s'.store == s.store && s'.log == s.log
       case Success(after) =>
         && s'.txs[t].pc == Finished(Success(())) && s'.store == after
         && |EffectiveGrants(s.store, s.txs[t].user, s.txs[t].at)| == 1
         && s'.log == s.log + [Entry(s.txs[t].user, s.txs[t].at, EffectiveGrants(s.store, s.txs[t].user, s.txs[t].at)[0])]
  }

  /** Steps that only moved the transaction on leave the outcome to be that of where they started. */
  lemma OutcomeFrom(s: State, s1: State, s': State, t: nat)
    requires t < |s.txs| && Apart(s, s1, t) && s1.store == s.store && s1.log == s.log && Outcome(s1, s', t)
    ensures Outcome(s, s', t)
  {
    assert s'.txs == s.txs[t := s.txs[t].(pc := s'.txs[t].pc)];
  }

  lemma SoloCommit(s: State, t: nat) returns (s': State, path: seq<State>)
    requires Reachable(s) && t < |s.txs| && Alone(s, t) && s.txs[t].pc.Charged?
    ensures Reachable(s') && Outcome(s, s', t) && Leads(path, s, s', t)
  {
    ReachableTx(s, t);
    s' := CommitCharge(s, t);
    path := [s, s'];
    TakeStep(s, s', t);
    EndAlone(s, t, Finished(Success(())));
  }

  lemma SoloDecide(s: State, t: nat) returns (s': State, path: seq<State>)
    requires Reachable(s) && t < |s.txs| && Alone(s, t) && s.txs[t].pc.Holding?
    ensures Reachable(s') && Outcome(s, s', t) && Leads(path, s, s', t)
  {
    ReachableTx(s, t);
    var s1 := Decide(s, t).value;
    TakeStep(s, s1, t);
    EndAlone(s, t, s1.txs[t].pc);
    if s1.txs[t].pc.Finished? {
      s', path := s1, [s, s1];
    } else {
      s', path := SoloCommit(s1, t);
      OutcomeFrom(s, s1, s', t);
      StepThen(s, s1, s', t, path);
      path := [s] + path;
    }
  }

  lemma SoloTail(s: State, t: nat) returns (s': State, path: seq<State>)
    requires Reachable(s) && t < |s.txs| && Alone(s, t) && s.txs[t].pc.WantUsage?
    requires EffectiveGrants(s.store, s.txs[t].user, s.txs[t].at) == [s.txs[t].pc.grant]
    ensures Reachable(s') && Outcome(s, s', t) && Leads(path, s, s', t)
  {
    var s1 := LockUsage(s, t).value;
    TakeStep(s, s1, t);
    EndAlone(s, t, s1.txs[t].pc);
    if s1.txs[t].pc.Finished? {
      s', path := s1, [s, s1];
    } else {
      s', path := SoloDecide(s1, t);
      OutcomeFrom(s, s1, s', t);
      StepThen(s, s1, s', t, path);
      path := [s] + path;
    }
  }

  /** The grant locks of an undisturbed charge, and the verdict on their number. */
  lemma SoloGrants(s: State, t: nat) returns (s': State, path: seq<State>)
    requires Reachable(s) && t < |s.txs| && s.txs[t].pc == Locking(None, [])
    requires s.grantLock == map[] && s.usageLock == map[]
    ensures Reachable(s') && Leads(path, s, s', t)
    ensures Alone(s', t) && Apart(s, s', t) && s'.store == s.store && s'.log == s.log
    ensures s'.txs[t].pc == Locking(Some([]), EffectiveGrants(s.store, s.txs[t].user, s.txs[t].at))
  {
    var grants := EffectiveGrants(s.store, s.txs[t].user, s.txs[t].at);
    var s1 := LockGrants(s, t).value;
    TakeStep(s, s1, t);
    s', path := SoloLocks(s1, t);
    assert [] + grants == grants;
    assert s'.txs == s.txs[t := s.txs[t].(pc := s'.txs[t].pc)];
    StepThen(s, s1, s', t, path);
    path := [s] + path;
  }

  lemma SoloJudge(s: State, t: nat) returns (s': State, path: seq<State>)
    requires Reachable(s) && t < |s.txs| && Alone(s, t)
    requires s.txs[t].pc == Locking(Some([]), EffectiveGrants(s.store, s.txs[t].user, s.txs[t].at))
    ensures Reachable(s') && Outcome(s, s', t) && Leads(path, s, s', t)
  {
    var grants := s.txs[t].pc.got;
    var s1 := LockGrants(s, t).value;
    TakeStep(s, s1, t);
    EndAlone(s, t, s1.txs[t].pc);
    if |grants| == 1 {
      assert grants == [grants[0]];
      s', path := SoloTail(s1, t);
      OutcomeFrom(s, s1, s', t);
      StepThen(s, s1, s', t, path);
      path := [s] + path;
    } else {
      s', path := s1, [s, s1];
    }
  }

  /** An undisturbed charge terminates, by steps of its own, with exactly the outcome of the atomic charge
      and all locks released. */
  lemma SoloCharge(s: State, t: nat) returns (s': State, path: seq<State>)
    requires Reachable(s) && t < |s.txs| && s.txs[t].pc == Locking(None, [])
    requires s.grantLock == map[] && s.usageLock == map[]
    ensures Reachable(s') && Outcome(s, s', t) && Leads(path, s, s', t)
  {
    var s1, first := SoloGrants(s, t);
    var second;
    s', second := SoloJudge(s1, t);
    LeadsThen(first, second, s, s1, s', t);
    path := first + second[1..];
    OutcomeFrom(s, s1, s', t);
  }

  // ----- Every admitted history is a run's -----

  const BEGINNING: Instant := Moment(1000, 1, 0)

  /** One user with one grant that is always effective. */
  function OneGrant(row: Usage, allowance: nat): Store {
    Store(map[0 := Grant(0, "tier", Manual, ActiveGrant, BEGINNING, None)], map[0 := row], map["tier" := allowance])
  }

  /** The instants that commit, out of all that were captured, in the order they commit in. */
  function Pick(captures: seq<Instant>, order: seq<nat>): seq<Instant>
    requires forall k :: 0 <= k < |order| ==> order[k] < |captures|
  {
    if order == [] then [] else Pick(captures, order[..|order| - 1]) + [captures[order[|order| - 1]]]
  }

  /** The log of a history of charges on the one grant. */
  function LogOf(history: seq<Instant>): seq<Entry> {
    if history == [] then [] else LogOf(Front(history)) + [Entry(0, Last(history), 0)]
  }

  lemma {:induction false} HistoryOfLog(history: seq<Instant>)
    ensures HistoryOf(LogOf(history), 0) == history
  {
    if history != [] {
      HistoryOfLog(Front(history));
      HistoryGrows(LogOf(Front(history)), Entry(0, Last(history), 0), 0);
      assert Front(history) + [Last(history)] == history;
    }
  }

  lemma TwoDiffer(ids: seq<GrantId>)
    requires Ascends(ids) && |ids| > 1
    ensures ids[0] in ids && ids[1] in ids && ids[0] != ids[1]
  {}

  lemma OneIsEffective(s: Store, row: Usage, allowance: nat, at: Instant)
    requires s.grants == OneGrant(row, allowance).grants
    ensures EffectiveGrants(s, 0, at) == [0]
  {
    var grants := EffectiveGrants(s, 0, at);
    assert 0 in grants;
    if |grants| > 1 {
      TwoDiffer(grants);
      assert false;
    }
  }

  /** With room, the charge goes through. */
  lemma RoomAdmits(s: Store, row: Usage, now: Usage, allowance: nat, at: Instant)
    requires s == OneGrant(row, allowance).(usage := map[0 := now]) && Roll(now, at).used < allowance
    ensures ChargeOutcome(s, 0, at) == Success(s.(usage := map[0 := Spend(now, at)]))
  {
    OneIsEffective(s, row, allowance, at);
    assert s.usage[0 := Spend(now, at)] == map[0 := Spend(now, at)];
  }

  /** The captured charges, of which some have committed and the others have not begun. */
  ghost predicate Realised(s: State, row: Usage, allowance: nat, captures: seq<Instant>, order: seq<nat>, history: seq<Instant>) {
    && Reachable(s) && s.grantLock == map[] && s.usageLock == map[]
    && s.initial == OneGrant(row, allowance)
    && s.store == s.initial.(usage := map[0 := Replay(row, history)])
    && s.log == LogOf(history)
    && |s.txs| == |captures|
    && (forall t :: 0 <= t < |s.txs| ==> s.txs[t].user == 0 && s.txs[t].at == captures[t])
    && (forall t :: 0 <= t < |s.txs| && t !in order ==> s.txs[t].pc == Locking(None, []))
  }

  /** The charges begin, each with its instant, in the order the instants are captured in. */
  lemma {:induction false} CaptureAll(row: Usage, allowance: nat, captures: seq<Instant>) returns (s: State)
    ensures Realised(s, row, allowance, captures, [], [])
  {
    if captures == [] {
      s := State(OneGrant(row, allowance), OneGrant(row, allowance), [], map[], map[], []);
      ReachableInit(s);
    } else {
      var before := CaptureAll(row, allowance, Front(captures));
      var e := BeginCharge(0, Last(captures));
      s := Next(before, e).value;
      ReachableNext(before, s, e);
      assert forall t :: 0 <= t < |before.txs| ==> captures[t] == Front(captures)[t];
    }
  }

  /** One more of the captured charges, alone. */
  lemma CommitNext(s: State, row: Usage, allowance: nat, captures: seq<Instant>, order: seq<nat>, history: seq<Instant>, t: nat)
    returns (s': State)
    requires Realised(s, row, allowance, captures, order, history) && t < |captures| && t !in order
    requires Roll(Replay(row, history), captures[t]).used < allowance
    ensures Realised(s', row, allowance, captures, order + [t], history + [captures[t]])
  {
    RoomAdmits(s.store, row, Replay(row, history), allowance, captures[t]);
    OneIsEffective(s.store, row, allowance, captures[t]);
    var path;
    s', path := SoloCharge(s, t);
    assert Front(history + [captures[t]]) == history;
  }

  /** Every history that finds room is reachable, whatever the order its instants were captured in. */
  lemma {:induction false} Realise(row: Usage, allowance: nat, captures: seq<Instant>, order: seq<nat>) returns (s: State)
    requires forall k :: 0 <= k < |order| ==> order[k] < |captures|
    requires forall i, j :: 0 <= i < j < |order| ==> order[i] != order[j]
    requires Admitted(row, Pick(captures, order), allowance)
    ensures Realised(s, row, allowance, captures, order, Pick(captures, order))
    decreases |order|
  {
    if order == [] {
      s := CaptureAll(row, allowance, captures);
    } else {
      var front, t := order[..|order| - 1], order[|order| - 1];
      var before := Pick(captures, front);
      assert Front(before + [captures[t]]) == before;
      var s1 := Realise(row, allowance, captures, front);
      s := CommitNext(s1, row, allowance, captures, front, before, t);
      assert front + [t] == order;
    }
  }

  function UpTo(n: nat): seq<nat> {
    if n == 0 then [] else UpTo(n - 1) + [n - 1]
  }

  lemma {:induction false} UpToIs(n: nat)
    ensures |UpTo(n)| == n && forall k :: 0 <= k < n ==> UpTo(n)[k] == k
  {
    if n > 0 { UpToIs(n - 1); }
  }

  lemma {:induction false} PickAll(history: seq<Instant>, n: nat)
    requires n <= |history|
    ensures |UpTo(n)| == n && forall k :: 0 <= k < n ==> UpTo(n)[k] < |history|
    ensures Pick(history, UpTo(n)) == history[..n]
  {
    UpToIs(n);
    if n > 0 {
      PickAll(history, n - 1);
      assert UpTo(n)[..n - 1] == UpTo(n - 1);
      assert history[..n] == history[..n - 1] + [history[n - 1]];
    }
  }

  lemma RealiseInOrder(row: Usage, allowance: nat, history: seq<Instant>) returns (s: State)
    requires Admitted(row, history, allowance)
    ensures Reachable(s) && s.initial == OneGrant(row, allowance) && HistoryOf(s.log, 0) == history
  {
    PickAll(history, |history|);
    UpToIs(|history|);
    assert history[..|history|] == history;
    s := Realise(row, allowance, history, UpTo(|history|));
    HistoryOfLog(history);
  }

  /** The runs on one grant whose commits move through these months. */
  ghost predicate RunThrough(s: State, row: Usage, entries: seq<Instant>, allowance: nat) {
    Reachable(s) && s.initial == OneGrant(row, allowance) && Enters(HistoryOf(s.log, 0), entries)
  }

  lemma RunIsAdmitted(s: State, row: Usage, allowance: nat)
    requires Reachable(s) && s.initial == OneGrant(row, allowance)
    ensures Admitted(row, HistoryOf(s.log, 0), allowance)
  {
    ReachableInv(s);
    assert 0 in s.store.usage;
    RowIsAdmitted(s, 0);
  }

  /** The real monthly bound, over runs: every run whose commits move through these months keeps each month
      within the allowance if and only if no month is listed twice, or there is no room to begin. */
  lemma RunsKeepMonthsExactly(row: Usage, entries: seq<Instant>, allowance: nat)
    requires Alternates(entries)
    ensures (forall s, p :: RunThrough(s, row, entries, allowance) ==> Count(HistoryOf(s.log, 0), p) <= allowance)
            <==> NoMonthTwice(entries) || !CanBegin(row, entries, allowance)
  {
    if NoMonthTwice(entries) {
      forall s, p | RunThrough(s, row, entries, allowance) ensures Count(HistoryOf(s.log, 0), p) <= allowance {
        RunIsAdmitted(s, row, allowance);
        OnceKeeps(row, entries, allowance, HistoryOf(s.log, 0), p);
      }
    } else if CanBegin(row, entries, allowance) {
      var h, p := Overspend(row, entries, allowance);
      var s := RealiseInOrder(row, allowance, h);
      assert RunThrough(s, row, entries, allowance) && Count(HistoryOf(s.log, 0), p) > allowance;
    } else {
      forall s | RunThrough(s, row, entries, allowance) ensures false {
        RunIsAdmitted(s, row, allowance);
        EnteringBegins(row, HistoryOf(s.log, 0), entries, allowance);
      }
    }
  }

  // ----- Capture order does not help -----

  const AUGUST: Instant := Moment(2026, 8, 0)
  const LATE_AUGUST: Instant := Moment(2026, 8, 1)
  const SEPTEMBER: Instant := Moment(2026, 9, 0)

  const FRESH_ROW := Usage("2026-08", 0, AUGUST)

  lemma AdmitsOneMore(row: Usage, history: seq<Instant>, at: Instant, allowance: nat, p: string)
    requires Admitted(row, history, allowance) && Roll(Replay(row, history), at).used < allowance
    ensures Admitted(row, history + [at], allowance) && Replay(row, history + [at]).period == PeriodOf(at)
    ensures Count(history + [at], p) == Count(history, p) + if PeriodOf(at) == p then 1 else 0
  {
    assert Front(history + [at]) == history && Last(history + [at]) == at;
  }

  /** One credit admits a charge in each of three months that follow one another. */
  lemma ThreeMonths(row: Usage, a: Instant, b: Instant, c: Instant)
    requires row.used == 0 && PeriodOf(a) != PeriodOf(b) && PeriodOf(c) != PeriodOf(b)
    ensures Admitted(row, [a, b, c], 1)
    ensures Count([a, b, c], PeriodOf(a)) == if PeriodOf(c) == PeriodOf(a) then 2 else 1
  {
    AdmitsOneMore(row, [], a, 1, PeriodOf(a));
    AdmitsOneMore(row, [a], b, 1, PeriodOf(a));
    AdmitsOneMore(row, [a, b], c, 1, PeriodOf(a));
    assert [] + [a] == [a] && [a] + [b] == [a, b] && [a, b] + [c] == [a, b, c];
  }

  /** Three charges capture their instants in clock order, late August before September, but the second
      waits in the queue until the third has committed: a grant of one credit a month pays for two charges
      captured in August. */
  lemma LateCommitOverspendsAMonth() returns (s: State)
    ensures Reachable(s)
    ensures |s.txs| == 3 && s.txs[0].at == AUGUST && s.txs[1].at == LATE_AUGUST && s.txs[2].at == SEPTEMBER
    ensures AtOrBefore(AUGUST, LATE_AUGUST) && AtOrBefore(LATE_AUGUST, SEPTEMBER)
    ensures s.log == [Entry(0, AUGUST, 0), Entry(0, SEPTEMBER, 0), Entry(0, LATE_AUGUST, 0)]
    ensures Allowance(s.store, 0) == 1
    ensures Count(HistoryOf(s.log, 0), PeriodOf(AUGUST)) == 2
  {
    var captures, order: seq<nat> := [AUGUST, LATE_AUGUST, SEPTEMBER], [0, 2, 1];
    PeriodIsTheMonth(AUGUST, LATE_AUGUST);
    PeriodIsTheMonth(AUGUST, SEPTEMBER);
    PeriodIsTheMonth(LATE_AUGUST, SEPTEMBER);
    ThreeMonths(FRESH_ROW, AUGUST, SEPTEMBER, LATE_AUGUST);
    LatePick();
    s := Realise(FRESH_ROW, 1, captures, order);
    HistoryOfLog([AUGUST, SEPTEMBER, LATE_AUGUST]);
  }

  lemma LatePick()
    ensures Pick([AUGUST, LATE_AUGUST, SEPTEMBER], [0, 2, 1]) == [AUGUST, SEPTEMBER, LATE_AUGUST]
    ensures LogOf([AUGUST, SEPTEMBER, LATE_AUGUST]) == [Entry(0, AUGUST, 0), Entry(0, SEPTEMBER, 0), Entry(0, LATE_AUGUST, 0)]
  {
    var captures := [AUGUST, LATE_AUGUST, SEPTEMBER];
    var o1: seq<nat>, o2: seq<nat>, o3: seq<nat> := [0], [0, 2], [0, 2, 1];
    assert o3[..2] == o2 && o2[..1] == o1 && o1[..0] == [];
    assert Pick(captures, o1) == [AUGUST];
    assert Pick(captures, o2) == [AUGUST, SEPTEMBER];
    var h1, h2, h3 := [AUGUST], [AUGUST, SEPTEMBER], [AUGUST, SEPTEMBER, LATE_AUGUST];
    assert Front(h1) == [] && Front(h2) == h1 && Front(h3) == h2;
    assert LogOf(h1) == [Entry(0, AUGUST, 0)];
    assert LogOf(h2) == [Entry(0, AUGUST, 0), Entry(0, SEPTEMBER, 0)];
  }
}
