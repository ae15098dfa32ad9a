/** What interleaved charges and syncs guarantee in every reachable state. */
module QuotaTheorems {
  import opened Wrappers
  import opened QuotaModel
  import opened QuotaHistory
  import opened QuotaMachine
  import opened QuotaInvariant

  lemma {:induction false} RunInv(run: seq<State>, k: nat)
    requires Run(run) && k < |run|
    ensures Inv(run[k])
  {
    if k > 0 {
      RunInv(run, k - 1);
      assert StepsAt(run, k - 1);
      SuccessorKeeps(run[k - 1], run[k]);
    }
  }

  lemma SuccessorKeeps(s: State, s': State)
    requires Inv(s) && Successor(s, s')
    ensures Inv(s')
  {
    var e :| Next(s, e) == Some(s');
    EventKeeps(s, s', e);
  }

  lemma ReachableInv(s: State)
    requires Reachable(s)
    ensures Inv(s)
  {
    var run :| Run(run) && run[|run| - 1] == s;
    RunInv(run, |run| - 1);
  }

  lemma ReachableInit(s: State)
    requires Init(s)
    ensures Reachable(s)
  {
    assert Run([s]);
  }

  lemma ReachableNext(s: State, s': State, e: Event)
    requires Reachable(s) && Next(s, e) == Some(s')
    ensures Reachable(s')
  {
    var run :| Run(run) && run[|run| - 1] == s;
    var longer := run + [s'];
    assert Successor(s, s');
    forall k | 0 <= k < |longer| - 1 ensures StepsAt(longer, k) {
      if k < |run| - 1 { assert StepsAt(run, k); }
    }
    assert Run(longer) && longer[|longer| - 1] == s';
  }

  lemma ReachableTx(s: State, t: nat)
    requires Reachable(s) && t < |s.txs|
    ensures TxOk(s, t) && LocksOk(s)
  {
    ReachableInv(s);
  }

  /** Charges are serializable in commit order, with no lost update: the committed rows are the log
      replayed as one atomic charge after another from the initial rows. */
  lemma ChargesAreSerializable(s: State)
    requires Reachable(s)
    ensures Serial(s.initial, s.log) == Some(s.store)
  {
    ReachableInv(s);
  }

  lemma RefusalIsTrue(s: State, s': State, t: nat, e: QuotaError)
    requires t < |s.txs| && TxOk(s, t) && Step(s, t) == Some(s')
    requires t < |s'.txs| && s'.txs[t].pc == Finished(Failure(e))
    ensures ChargeOutcome(s.store, s.txs[t].user, s.txs[t].at) == Failure(e)
  {
    if s.txs[t].pc.Locking? {
      assert s.txs[t].pc.got + [] == s.txs[t].pc.got;
    }
  }

  lemma OnlyCommitsWrite(s: State, s': State, t: nat)
    requires Reachable(s) && t < |s.txs| && Step(s, t) == Some(s') && !s.txs[t].pc.Charged?
    ensures |s'.txs| == |s.txs| && s'.store == s.store && s'.log == s.log
  {
    ReachableInv(s);
    StepLocal(s, s', t);
  }

  lemma OnlyCommitsSucceed(s: State, s': State, t: nat)
    requires t < |s.txs| && Step(s, t) == Some(s') && !s.txs[t].pc.Charged? && |s'.txs| == |s.txs|
    ensures s'.txs[t].pc != Finished(Success(()))
  {}

  /** A commit is exactly the atomic charge on the rows committed at that moment. */
  lemma CommitsAreAtomicCharges(s: State, s': State, t: nat)
    requires Reachable(s) && t < |s.txs| && s.txs[t].pc.Charged? && Step(s, t) == Some(s')
    ensures t < |s'.txs| && s'.txs[t].pc == Finished(Success(()))
    ensures ChargeOutcome(s.store, s.txs[t].user, s.txs[t].at) == Success(s'.store)
    ensures s'.log == s.log + [Entry(s.txs[t].user, s.txs[t].at, s.txs[t].pc.grant)]
  {
    ReachableTx(s, t);
    CommitIsCharge(s, s', t);
  }

  /** No other step writes anything, and a refusal is exactly the refusal the atomic charge would give
      at that moment, even after an in-memory rollover. */
  lemma RefusalsWriteNothing(s: State, s': State, t: nat)
    requires Reachable(s) && t < |s.txs| && !s.txs[t].pc.Charged? && Step(s, t) == Some(s')
    ensures |s'.txs| == |s.txs| && s'.store == s.store && s'.log == s.log
    ensures s'.txs[t].pc != Finished(Success(()))
    ensures forall e :: s'.txs[t].pc == Finished(Failure(e)) ==>
                          ChargeOutcome(s.store, s.txs[t].user, s.txs[t].at) == Failure(e)
  {
    OnlyCommitsWrite(s, s', t);
    OnlyCommitsSucceed(s, s', t);
    if s'.txs[t].pc.Finished? && s'.txs[t].pc.outcome.Failure? {
      ReachableTx(s, t);
      RefusalIsTrue(s, s', t, s'.txs[t].pc.outcome.error);
    }
  }

  /** Every committed charge is on the one grant that its user could be charged at its instant. */
  ghost predicate EntriesOk(s: State) {
    forall k :: 0 <= k < |s.log| ==> EntryOk(s.store, s.log[k])
  }

  ghost predicate EntryOk(rows: Store, e: Entry) {
    EffectiveGrants(rows, e.user, e.at) == [e.grant]
  }

  lemma EntryStays(rows: Store, rows': Store, e: Entry)
    requires EntryOk(rows, e) && rows'.grants == rows.grants
    ensures EntryOk(rows', e)
  {
    SameGrants(rows, rows', e.user, e.at);
  }

  lemma ReachableSuccessor(s: State, s': State)
    requires Reachable(s) && Successor(s, s')
    ensures Reachable(s')
  {
    var e :| Next(s, e) == Some(s');
    ReachableNext(s, s', e);
  }

  lemma ReachableGrants(s: State)
    requires Reachable(s)
    ensures s.store.grants == s.initial.grants && s.store.tiers == s.initial.tiers
  {
    ReachableInv(s);
  }

  lemma InitialStays(s: State, s': State)
    requires Reachable(s) && Successor(s, s')
    ensures s'.initial == s.initial
  {
    var e :| Next(s, e) == Some(s');
    if e.Advance? && !s.txs[e.t].pc.Charged? {
      ReachableInv(s);
      StepLocal(s, s', e.t);
    }
  }

  /** A step adds at most one charge, and it is on its transaction's one effective grant. */
  lemma StepAddsEntry(s: State, s': State)
    requires Reachable(s) && Successor(s, s')
    ensures s'.log == s.log || (exists e :: s'.log == s.log + [e] && EntryOk(s.store, e))
  {
    var e :| Next(s, e) == Some(s');
    if e.Advance? {
      ReachableTx(s, e.t);
      if s.txs[e.t].pc.Charged? {
        CommitsAreAtomicCharges(s, s', e.t);
        assert EntryOk(s.store, Entry(s.txs[e.t].user, s.txs[e.t].at, s.txs[e.t].pc.grant));
      } else {
        OnlyCommitsWrite(s, s', e.t);
      }
    }
  }

  lemma SuccessorEntries(s: State, s': State)
    requires Reachable(s) && Successor(s, s') && EntriesOk(s)
    ensures EntriesOk(s')
  {
    ReachableGrants(s);
    ReachableSuccessor(s, s');
    ReachableGrants(s');
    InitialStays(s, s');
    StepAddsEntry(s, s');
    forall k | 0 <= k < |s'.log| ensures EntryOk(s'.store, s'.log[k]) {
      if k < |s.log| { assert EntryOk(s.store, s.log[k]); }
      EntryStays(s.store, s'.store, s'.log[k]);
    }
  }

  lemma {:induction false} RunEntries(run: seq<State>, k: nat)
    requires Run(run) && k < |run|
    ensures Reachable(run[k]) && EntriesOk(run[k])
  {
    if k == 0 {
      ReachableInit(run[0]);
    } else {
      RunEntries(run, k - 1);
      assert StepsAt(run, k - 1);
      ReachableSuccessor(run[k - 1], run[k]);
      SuccessorEntries(run[k - 1], run[k]);
    }
  }

  /** Every charge that was ever committed is on a grant of its own user, which is active, had started by the
      charge's instant and had not ended by it, and which was the only one such. */
  lemma ChargesAreOnTheOneGrant(s: State, k: nat)
    requires Reachable(s) && k < |s.log|
    ensures var e := s.log[k];
            && e.grant in s.store.grants && s.store.grants[e.grant].user == e.user
            && s.store.grants[e.grant].status == ActiveGrant
            && Stamp(s.store.grants[e.grant].startsAt) <= Stamp(e.at)
            && (s.store.grants[e.grant].endsAt.Some? ==> Stamp(e.at) < Stamp(s.store.grants[e.grant].endsAt.value))
            && Only(s.store, e.grant, e.user, e.at)
  {
    var run :| Run(run) && run[|run| - 1] == s;
    RunEntries(run, |run| - 1);
    assert EntryOk(s.store, s.log[k]);
    GrantsAreChargeable(s.store, s.log[k].user, s.log[k].at);
  }

  /** Conservation in every reachable state: the stored row is the replay of the charges committed on its
      grant, so its count is its epoch's starting count plus the commits since the last rollover. */
  lemma UsageIsItsHistory(s: State, g: GrantId)
    requires Reachable(s) && g in s.store.usage
    ensures g in s.initial.usage
    ensures var row := s.initial.usage[g];
            var history := HistoryOf(s.log, g);
            && s.store.usage[g] == Replay(row, history)
            && s.store.usage[g].used
               == (if Rollovers(row, history) == 0 then row.used else 0) + (|history| - EpochStart(row, history))
            && (history == [] ==> s.store.usage[g] == row)
            && (history != [] ==> s.store.usage[g].period == PeriodOf(Last(history))
                                  && s.store.usage[g].updatedAt == Last(history))
  {
    ReachableInv(s);
    assert RowOk(s, g);
    UsedIsCommitsSinceRollover(s.initial.usage[g], HistoryOf(s.log, g));
  }

  /** The allowance a grant's charges are held to. */
  function Allowance(s: Store, g: GrantId): nat {
    if g in s.grants && s.grants[g].tier in s.tiers then s.tiers[s.grants[g].tier] else 0
  }

  /** A grant's allowance times its epochs. */
  function GrantBudget(s: State, g: GrantId): nat
    requires g in s.initial.usage
  {
    EpochAllowance(s.initial.usage[g], HistoryOf(s.log, g), Allowance(s.store, g))
  }

  lemma WithinEpochs(row: Usage, history: seq<Instant>, allowance: nat)
    requires Admitted(row, history, allowance)
    ensures |history| <= EpochAllowance(row, history, allowance)
  {
    CommitsWithinEpochs(row, history, allowance);
  }

  /** The real bound on spending, in every reachable state: commits on a grant never exceed its allowance
      times its epochs. */
  lemma SpendingIsBounded(s: State, g: GrantId)
    requires Reachable(s) && g in s.store.usage
    ensures g in s.initial.usage && |HistoryOf(s.log, g)| <= GrantBudget(s, g)
  {
    RowIsAdmitted(s, g);
    WithinEpochs(s.initial.usage[g], HistoryOf(s.log, g), Allowance(s.store, g));
  }

  /** The commits of one month never exceed the allowance times the number of times the row entered that
      month, and never exceed the allowance at all while captured months do not go back. */
  lemma MonthlySpendingIsBounded(s: State, g: GrantId, p: string)
    requires Reachable(s) && g in s.store.usage
    ensures var history := HistoryOf(s.log, g);
            var allowance := Allowance(s.store, g);
            && Count(history, p) <= allowance * Visits(history, p)
            && (MonthsAscend(history) ==> Count(history, p) <= allowance)
  {
    RowIsAdmitted(s, g);
    var history := HistoryOf(s.log, g);
    var allowance := Allowance(s.store, g);
    CountWithinVisits(s.initial.usage[g], history, allowance, p);
    if MonthsAscend(history) {
      MonthlyBound(s.initial.usage[g], history, allowance, p);
    }
  }

  lemma RowIsAdmitted(s: State, g: GrantId)
    requires Reachable(s) && g in s.store.usage
    ensures g in s.initial.usage && Admitted(s.initial.usage[g], HistoryOf(s.log, g), Allowance(s.store, g))
  {
    ReachableInv(s);
    assert RowOk(s, g);
  }

  // ----- Lock order -----

  /** A row lock, ranked: grant rows first, ascending by id, then usage rows. */
  datatype Lock = Lock(usage: bool, grant: GrantId)

  predicate Below(a: Lock, b: Lock) {
    (!a.usage && b.usage) || (a.usage == b.usage && a.grant < b.grant)
  }

  predicate HasLock(s: State, t: nat, l: Lock) {
    if l.usage then Holds(s.usageLock, l.grant, t) else Holds(s.grantLock, l.grant, t)
  }

  predicate Waiting(s: State, t: nat)
    requires t < |s.txs|
  {
    !Ended(s.txs[t].pc) && Step(s, t).None?
  }

  function Wanted(s: State, t: nat): Lock
    requires t < |s.txs|
  {
    var pc := s.txs[t].pc;
    if pc.WantUsage? then Lock(true, pc.grant)
    else if pc.Locking? && pc.todo.Some? && pc.todo.value != [] then Lock(false, pc.todo.value[0])
    else Lock(false, 0)
  }

  function Holder(s: State, l: Lock): Option<nat> {
    if l.usage then (if l.grant in s.usageLock then Some(s.usageLock[l.grant]) else None)
    else if l.grant in s.grantLock then Some(s.grantLock[l.grant]) else None
  }

  lemma WaitsForAHolder(s: State, t: nat)
    requires t < |s.txs| && TxOk(s, t) && LocksOk(s) && Waiting(s, t)
    ensures s.txs[t].pc.WantUsage? || (s.txs[t].pc.Locking? && s.txs[t].pc.todo.Some? && s.txs[t].pc.todo.value != [])
    ensures Holder(s, Wanted(s, t)).Some?
    ensures var u := Holder(s, Wanted(s, t)).value;
            u != t && u < |s.txs| && HasLock(s, u, Wanted(s, t)) && !Ended(s.txs[u].pc)
  {}

  /** Every lock a waiting transaction holds ranks strictly below the one it waits for. */
  lemma WaitsUpward(s: State, t: nat, l: Lock)
    requires t < |s.txs| && TxOk(s, t) && LocksOk(s) && Waiting(s, t) && HasLock(s, t, l)
    ensures Below(l, Wanted(s, t))
  {
    WaitsForAHolder(s, t);
    if s.txs[t].pc.Locking? {
      var got := s.txs[t].pc.got;
      var all := got + s.txs[t].pc.todo.value;
      var i :| 0 <= i < |got| && got[i] == l.grant;
      assert all[i] == l.grant && all[|got|] == Wanted(s, t).grant;
    }
  }

  predicate Blocks(s: State, t: nat, u: nat) {
    t < |s.txs| && u < |s.txs| && Waiting(s, t) && HasLock(s, u, Wanted(s, t))
  }

  /** A chain of transactions each waiting for the next. */
  predicate WaitChain(s: State, chain: seq<nat>) {
    forall k :: 0 <= k < |chain| - 1 ==> Blocks(s, chain[k], chain[k + 1])
  }

  lemma {:induction false} ChainAscends(s: State, chain: seq<nat>)
    requires Reachable(s) && WaitChain(s, chain) && |chain| >= 2
    requires chain[|chain| - 1] < |s.txs| && Waiting(s, chain[|chain| - 1])
    ensures chain[0] < |s.txs| && Waiting(s, chain[0])
    ensures Below(Wanted(s, chain[0]), Wanted(s, chain[|chain| - 1]))
  {
    var last := |chain| - 1;
    assert Blocks(s, chain[last - 1], chain[last]);
    ReachableTx(s, chain[last]);
    WaitsUpward(s, chain[last], Wanted(s, chain[last - 1]));
    if last > 1 {
      assert WaitChain(s, chain[..last]) by {
        forall k | 0 <= k < last - 1
          ensures Blocks(s, chain[..last][k], chain[..last][k + 1])
        {
          assert Blocks(s, chain[k], chain[k + 1]);
        }
      }
      ChainAscends(s, chain[..last]);
    }
  }

  /** No deadlock: in no reachable state does a chain of waits come back to where it began. */
  lemma NoWaitCycle(s: State, chain: seq<nat>)
    requires Reachable(s) && WaitChain(s, chain) && |chain| >= 2
    ensures chain[0] != chain[|chain| - 1]
  {
    if chain[0] == chain[|chain| - 1] {
      assert Blocks(s, chain[0], chain[1]);
      ChainAscends(s, chain);
    }
  }

  ghost function WaitingAbove(s: State, l: Lock): set<nat> {
    set u: nat | u < |s.txs| && Waiting(s, u) && Below(l, Wanted(s, u))
  }

  lemma {:induction false} FollowWaits(s: State, t: nat) returns (u: nat)
    requires Reachable(s) && t < |s.txs| && Waiting(s, t)
    ensures u < |s.txs| && Step(s, u).Some?
    decreases WaitingAbove(s, Wanted(s, t))
  {
    ReachableTx(s, t);
    WaitsForAHolder(s, t);
    var h := Holder(s, Wanted(s, t)).value;
    if Step(s, h).Some? {
      u := h;
    } else {
      ReachableTx(s, h);
      WaitsUpward(s, h, Wanted(s, t));
      assert h in WaitingAbove(s, Wanted(s, t)) && h !in WaitingAbove(s, Wanted(s, h));
      u := FollowWaits(s, h);
    }
  }

  /** Progress: while any of unboundedly many transactions has not ended, some transaction can step. */
  lemma SomeoneCanStep(s: State, t: nat)
    requires Reachable(s) && t < |s.txs| && !Ended(s.txs[t].pc)
    ensures exists u :: 0 <= u < |s.txs| && Step(s, u).Some?
  {
    if Step(s, t).None? {
      var u := FollowWaits(s, t);
    }
  }

  // ----- The lock-free reader -----

  predicate IsSync(pc: Pc) {
    pc.ReadGrants? || pc.ReadUsage? || pc.ReadTier?
  }

  /** A sync waits on nothing, locks nothing and writes nothing, whatever the charges are doing. */
  lemma SyncNeverWaits(s: State, t: nat)
    requires Reachable(s) && t < |s.txs| && IsSync(s.txs[t].pc)
    ensures Step(s, t).Some?
    ensures var s' := Step(s, t).value;
            s' == s.(txs := s'.txs)
  {
    ReachableTx(s, t);
  }

  predicate Saw(pc: Pc, seen: Store) {
    (pc.ReadTier? || pc.Answered?) && pc.seen == seen
  }

  lemma ChargeNeverSees(s: State, s': State, t: nat)
    requires t < |s.txs| && IsCharge(s.txs[t].pc) && Step(s, t) == Some(s') && |s'.txs| == |s.txs|
    ensures IsCharge(s'.txs[t].pc)
  {}

  /** The reads whose store an answer is taken from: the usage read, or the grants read that ends early. */
  predicate Reading(pc: Pc) {
    pc.ReadGrants? || pc.ReadUsage?
  }

  lemma SyncSees(s: State, s': State, t: nat, seen: Store)
    requires t < |s.txs| && IsSync(s.txs[t].pc) && Step(s, t) == Some(s') && |s'.txs| == |s.txs|
    requires Saw(s'.txs[t].pc, seen)
    ensures (Reading(s.txs[t].pc) && seen == s.store) || Saw(s.txs[t].pc, seen)
  {}

  lemma StepSame(s: State, s': State, t: nat)
    requires Inv(s) && t < |s.txs| && Step(s, t) == Some(s')
    ensures |s'.txs| == |s.txs|
  {
    StepKeeps(s, s', t);
  }

  lemma OwnStepSaw(s: State, s': State, t: nat, seen: Store)
    requires t < |s.txs| && Step(s, t) == Some(s') && |s'.txs| == |s.txs| && Saw(s'.txs[t].pc, seen)
    ensures (Reading(s.txs[t].pc) && seen == s.store) || Saw(s.txs[t].pc, seen)
  {
    if IsCharge(s.txs[t].pc) {
      ChargeNeverSees(s, s', t);
    } else {
      SyncSees(s, s', t, seen);
    }
  }

  lemma SawStep(s: State, s': State, e: Event, t: nat, seen: Store)
    requires Inv(s) && Next(s, e) == Some(s') && t < |s'.txs| && Saw(s'.txs[t].pc, seen)
    ensures t < |s.txs|
    ensures (Reading(s.txs[t].pc) && seen == s.store) || Saw(s.txs[t].pc, seen)
  {
    match e
    case Advance(u) =>
      StepSame(s, s', u);
      if u == t {
        OwnStepSaw(s, s', t, seen);
      } else {
        OthersSame(s, s', e, t);
      }
    case Crash(u) =>
      if u != t {
        OthersSame(s, s', e, t);
      }
    case BeginCharge(_, _) =>
    case BeginSync(_, _) =>
  }

  lemma OthersSame(s: State, s': State, e: Event, t: nat)
    requires Inv(s) && Next(s, e) == Some(s') && t < |s.txs| && !Moves(e, t)
    ensures t < |s'.txs| && s'.txs[t] == s.txs[t]
  {
    EventKeeps(s, s', e);
    assert Rely(s, s', t);
  }

  lemma SawSuccessor(s: State, s': State, t: nat, seen: Store)
    requires Inv(s) && Successor(s, s') && t < |s'.txs| && Saw(s'.txs[t].pc, seen)
    ensures t < |s.txs|
    ensures (Reading(s.txs[t].pc) && seen == s.store) || Saw(s.txs[t].pc, seen)
  {
    var e :| Next(s, e) == Some(s');
    SawStep(s, s', e, t, seen);
  }

  lemma {:induction false} SeenIsCommitted(run: seq<State>, k: nat, t: nat, seen: Store) returns (j: nat)
    requires Run(run) && k < |run| && t < |run[k].txs| && Saw(run[k].txs[t].pc, seen)
    ensures j < k && ReadAt(run, j, t, seen)
  {
    if k == 0 {
      assert false;
    } else {
      RunInv(run, k - 1);
      assert StepsAt(run, k - 1);
      SawSuccessor(run[k - 1], run[k], t, seen);
      if Saw(run[k - 1].txs[t].pc, seen) {
        j := SeenIsCommitted(run, k - 1, t, seen);
      } else {
        j := k - 1;
      }
    }
  }

  /** At moment `j` the sync was in the middle of its reads, and its next step read the store `seen`. */
  ghost predicate ReadAt(run: seq<State>, j: nat, t: nat, seen: Store) {
    && j + 1 < |run| && t < |run[j].txs| && t < |run[j + 1].txs|
    && run[j].store == seen && Reading(run[j].txs[t].pc) && Saw(run[j + 1].txs[t].pc, seen)
  }

  /** A sync's three reads, spread over any number of charges, answer exactly what one atomic read of the
      store answers that was committed when its usage row was read, in the middle of the sync. */
  lemma SyncIsAtomic(run: seq<State>, k: nat, t: nat)
    requires Run(run) && k < |run| && t < |run[k].txs| && run[k].txs[t].pc.Answered?
    ensures exists j :: 0 <= j < k && ReadAt(run, j, t, run[k].txs[t].pc.seen)
                        && run[k].txs[t].pc.report == ReadEntitlement(run[j].store, run[k].txs[t].user, run[k].txs[t].at)
  {
    RunInv(run, k);
    assert TxOk(run[k], t);
    var j := SeenIsCommitted(run, k, t, run[k].txs[t].pc.seen);
  }

  /** What a sync reports is what the rows said at the moment it read the usage row: of the one grant its user
      could be charged, the source, the tier and its credits, and of the month of its instant the uses. */
  lemma SyncReportsTheGrant(run: seq<State>, k: nat, t: nat)
    requires Run(run) && k < |run| && t < |run[k].txs| && run[k].txs[t].pc.Answered?
    requires var report := run[k].txs[t].pc.report; report.Success? && report.value.ActiveEntitlement?
    ensures exists j, g: GrantId :: 0 <= j < k && ReadAt(run, j, t, run[k].txs[t].pc.seen)
                         && Reports(run[j].store, g, run[k].txs[t].user, run[k].txs[t].at, run[k].txs[t].pc.report.value)
  {
    SyncIsAtomic(run, k, t);
    var tx := run[k].txs[t];
    var j :| 0 <= j < k && ReadAt(run, j, t, tx.pc.seen) && tx.pc.report == ReadEntitlement(run[j].store, tx.user, tx.at);
    GrantsAreChargeable(run[j].store, tx.user, tx.at);
    ReportIsSpelledOut(run[j].store, tx.user, tx.at);
    var g := EffectiveGrants(run[j].store, tx.user, tx.at)[0];
    assert Reports(run[j].store, g, tx.user, tx.at, tx.pc.report.value);
  }

  /** The report is that of grant `g`, read off its rows. */
  ghost predicate Reports(rows: Store, g: GrantId, user: UserId, at: Instant, report: Entitlement) {
    && Only(rows, g, user, at) && g in rows.usage && rows.grants[g].tier in rows.tiers
    && report == ActiveEntitlement(rows.grants[g].source, rows.grants[g].tier, rows.tiers[rows.grants[g].tier], PeriodOf(at),
                                   if rows.usage[g].period == PeriodOf(at) then rows.usage[g].used else 0)
  }
}
