/** The inductive invariant of interleaved charges and syncs. */
module QuotaInvariant {
  import opened Wrappers
  import opened QuotaModel
  import opened QuotaHistory
  import opened QuotaMachine

  /** The one grant a charge past its grant locks works on. */
  ghost predicate Resolved(s: State, t: nat, g: GrantId)
    requires t < |s.txs|
  {
    EffectiveGrants(s.store, s.txs[t].user, s.txs[t].at) == [g] && Holds(s.grantLock, g, t)
  }

  ghost predicate TxOk(s: State, t: nat)
    requires t < |s.txs|
  {
    var tx := s.txs[t];
    match tx.pc
    case Locking(None, got) => got == []
    case Locking(Some(todo), got) =>
      && EffectiveGrants(s.store, tx.user, tx.at) == got + todo
      && forall g :: g in got ==> Holds(s.grantLock, g, t)
    case WantUsage(g) => Resolved(s, t, g)
    case Holding(g, row) =>
      Resolved(s, t, g) && Holds(s.usageLock, g, t) && g in s.store.usage && row == Roll(s.store.usage[g], tx.at)
    case Charged(g, row) =>
      && Resolved(s, t, g) && Holds(s.usageLock, g, t) && g in s.store.usage
      && row == Spend(s.store.usage[g], tx.at)
      && g in s.store.grants && s.store.grants[g].tier in s.store.tiers
      && Roll(s.store.usage[g], tx.at).used < s.store.tiers[s.store.grants[g].tier]
    case ReadUsage(g) => EffectiveGrants(s.store, tx.user, tx.at) == [g]
    case ReadTier(g, row, seen) =>
      && EffectiveGrants(s.store, tx.user, tx.at) == [g]
      && seen.grants == s.store.grants && seen.tiers == s.store.tiers
      && g in seen.usage && row == seen.usage[g]
    case Answered(report, seen) => report == ReadEntitlement(seen, tx.user, tx.at)
    case _ => true
  }

  /** Grant locks belong to charges that hold them, usage locks to charges past their usage read. */
  ghost predicate LocksOk(s: State) {
    && (forall g :: g in s.grantLock ==> s.grantLock[g] < |s.txs| && HasGrant(s.txs[s.grantLock[g]].pc, g))
    && (forall g :: g in s.usageLock ==> s.usageLock[g] < |s.txs| && HasUsage(s.txs[s.usageLock[g]].pc, g))
  }

  predicate HasGrant(pc: Pc, g: GrantId) {
    match pc
    case Locking(_, got) => g in got
    case WantUsage(g') => g == g'
    case Holding(g', _) => g == g'
    case Charged(g', _) => g == g'
    case _ => false
  }

  predicate HasUsage(pc: Pc, g: GrantId) {
    match pc
    case Holding(g', _) => g == g'
    case Charged(g', _) => g == g'
    case _ => false
  }

  /** A row is what its own history makes of the initial one, every charge of it having found room. */
  ghost predicate RowOk(s: State, g: GrantId)
    requires g in s.store.usage && s.store.usage.Keys == s.initial.usage.Keys
  {
    && s.store.usage[g] == Replay(s.initial.usage[g], HistoryOf(s.log, g))
    && (HistoryOf(s.log, g) != [] ==>
          && g in s.store.grants && s.store.grants[g].tier in s.store.tiers
          && Admitted(s.initial.usage[g], HistoryOf(s.log, g), s.store.tiers[s.store.grants[g].tier]))
  }

  /** The rows are what the log makes of the initial ones, grants and tiers untouched. */
  ghost predicate HistoryOk(s: State) {
    && s.store.grants == s.initial.grants && s.store.tiers == s.initial.tiers
    && s.store.usage.Keys == s.initial.usage.Keys
    && (forall g :: g in s.store.usage ==> RowOk(s, g))
    && Serial(s.initial, s.log) == Some(s.store)
  }

  ghost predicate Inv(s: State) {
    && LocksOk(s) && HistoryOk(s)
    && forall t :: 0 <= t < |s.txs| ==> TxOk(s, t)
  }

  /** What any step of others leaves to transaction `t`. */
  ghost predicate Rely(s: State, s': State, t: nat)
    requires t < |s.txs|
  {
    && t < |s'.txs| && s'.txs[t] == s.txs[t]
    && s'.store.grants == s.store.grants && s'.store.tiers == s.store.tiers
    && s'.store.usage.Keys == s.store.usage.Keys
    && (forall g :: Holds(s.grantLock, g, t) ==> Holds(s'.grantLock, g, t))
    && (forall g :: Holds(s.usageLock, g, t) ==> Holds(s'.usageLock, g, t))
    && (forall g :: Holds(s.usageLock, g, t) && g in s.store.usage ==> s'.store.usage[g] == s.store.usage[g])
  }

  lemma SameGrants(a: Store, b: Store, user: UserId, at: Instant)
    requires a.grants == b.grants
    ensures EffectiveGrants(a, user, at) == EffectiveGrants(b, user, at)
  {}

  lemma RelyKeepsTx(s: State, s': State, t: nat)
    requires t < |s.txs| && TxOk(s, t) && Rely(s, s', t)
    ensures TxOk(s', t)
  {
    SameGrants(s.store, s'.store, s.txs[t].user, s.txs[t].at);
  }

  /** A step of `t` that commits nothing. */
  ghost predicate Local(s: State, s': State, t: nat)
    requires t < |s.txs|
  {
    && s'.store == s.store && s'.initial == s.initial && s'.log == s.log
    && |s'.txs| == |s.txs| && s'.txs == s.txs[t := s'.txs[t]]
    && s'.txs[t].user == s.txs[t].user && s'.txs[t].at == s.txs[t].at
    && (forall g, u: nat :: u != t && Holds(s.grantLock, g, u) ==> Holds(s'.grantLock, g, u))
    && (forall g, u: nat :: u != t && Holds(s.usageLock, g, u) ==> Holds(s'.usageLock, g, u))
    && TxOk(s', t) && LocksOk(s')
  }

  /** Ending releases exactly the transaction's own locks. */
  lemma EndLocal(s: State, s': State, t: nat, pc: Pc)
    requires LocksOk(s) && t < |s.txs| && s' == End(s, t, pc) && TxOk(s', t)
    ensures Local(s, s', t)
  {}

  lemma SnapshotLocal(s: State, s': State, t: nat)
    requires LocksOk(s) && t < |s.txs| && TxOk(s, t)
    requires s.txs[t].pc.Locking? && s.txs[t].pc.todo.None? && LockGrants(s, t) == Some(s')
    ensures Local(s, s', t)
  {
    var grants := EffectiveGrants(s.store, s.txs[t].user, s.txs[t].at);
    assert [] + grants == grants;
  }

  lemma LockOneLocal(s: State, s': State, t: nat)
    requires LocksOk(s) && t < |s.txs| && TxOk(s, t)
    requires s.txs[t].pc.Locking? && s.txs[t].pc.todo.Some? && s.txs[t].pc.todo.value != []
    requires LockGrants(s, t) == Some(s')
    ensures Local(s, s', t)
  {
    var todo := s.txs[t].pc.todo.value;
    assert s.txs[t].pc.got + todo == (s.txs[t].pc.got + [todo[0]]) + todo[1..];
  }

  lemma LockedAllLocal(s: State, s': State, t: nat)
    requires LocksOk(s) && t < |s.txs| && TxOk(s, t)
    requires s.txs[t].pc.Locking? && s.txs[t].pc.todo == Some([])
    requires LockGrants(s, t) == Some(s')
    ensures Local(s, s', t)
  {
    var got := s.txs[t].pc.got;
    assert got + [] == got;
    if |got| == 1 {
      assert got == [got[0]];
    } else {
      EndLocal(s, s', t, s'.txs[t].pc);
    }
  }

  lemma LockUsageLocal(s: State, s': State, t: nat)
    requires LocksOk(s) && t < |s.txs| && TxOk(s, t) && s.txs[t].pc.WantUsage? && LockUsage(s, t) == Some(s')
    ensures Local(s, s', t)
  {
    if s'.txs[t].pc.Finished? {
      EndLocal(s, s', t, s'.txs[t].pc);
    }
  }

  lemma DecideLocal(s: State, s': State, t: nat)
    requires LocksOk(s) && t < |s.txs| && TxOk(s, t) && s.txs[t].pc.Holding? && Decide(s, t) == Some(s')
    ensures Local(s, s', t)
  {
    if s'.txs[t].pc.Finished? {
      EndLocal(s, s', t, s'.txs[t].pc);
    }
  }

  /** A sync moves nothing but its own program counter. */
  lemma GotoLocal(s: State, s': State, t: nat, pc: Pc)
    requires LocksOk(s) && t < |s.txs| && s' == Goto(s, t, pc) && TxOk(s', t)
    requires forall g :: !HasGrant(s.txs[t].pc, g) && !HasUsage(s.txs[t].pc, g)
    ensures Local(s, s', t)
  {}

  lemma SyncAnswers(s: State, s': State, t: nat)
    requires t < |s.txs| && TxOk(s, t)
    requires s.txs[t].pc.ReadGrants? || s.txs[t].pc.ReadUsage? || s.txs[t].pc.ReadTier?
    requires Step(s, t) == Some(s')
    ensures |s'.txs| == |s.txs| && s' == Goto(s, t, s'.txs[t].pc) && TxOk(s', t)
  {
    if s.txs[t].pc.ReadTier? {
      SameGrants(s.store, s.txs[t].pc.seen, s.txs[t].user, s.txs[t].at);
    }
  }

  lemma SyncLocal(s: State, s': State, t: nat)
    requires LocksOk(s) && t < |s.txs| && TxOk(s, t)
    requires s.txs[t].pc.ReadGrants? || s.txs[t].pc.ReadUsage? || s.txs[t].pc.ReadTier?
    requires Step(s, t) == Some(s')
    ensures Local(s, s', t)
  {
    SyncAnswers(s, s', t);
    GotoLocal(s, s', t, s'.txs[t].pc);
  }

  lemma LocalKeeps(s: State, s': State, t: nat)
    requires Inv(s) && t < |s.txs| && Local(s, s', t)
    ensures Inv(s')
    ensures forall u :: 0 <= u < |s.txs| && u != t ==> Rely(s, s', u)
  {
    forall u | 0 <= u < |s.txs| && u != t
      ensures Rely(s, s', u) && TxOk(s', u)
    {
      RelyKeepsTx(s, s', u);
    }
  }

  lemma CommitRely(s: State, s': State, t: nat, u: nat)
    requires t < |s.txs| && s.txs[t].pc.Charged? && TxOk(s, t) && s' == CommitCharge(s, t)
    requires u < |s.txs| && u != t
    ensures Rely(s, s', u)
  {}

  /** A committing transaction is the atomic charge on the rows committed at that moment. */
  lemma CommitIsCharge(s: State, s': State, t: nat)
    requires t < |s.txs| && s.txs[t].pc.Charged? && TxOk(s, t) && s' == CommitCharge(s, t)
    ensures ChargeOutcome(s.store, s.txs[t].user, s.txs[t].at) == Success(s'.store)
  {}

  lemma HistoryGrows(log: seq<Entry>, e: Entry, g: GrantId)
    ensures HistoryOf(log + [e], g) == HistoryOf(log, g) + if e.grant == g then [e.at] else []
  {
    assert (log + [e])[..|log|] == log;
  }

  lemma SerialGrows(initial: Store, log: seq<Entry>, e: Entry, before: Store, after: Store)
    requires Serial(initial, log) == Some(before) && ChargeOutcome(before, e.user, e.at) == Success(after)
    ensures Serial(initial, log + [e]) == Some(after)
  {
    assert (log + [e])[..|log|] == log;
  }

  lemma CommitRow(s: State, s': State, t: nat, g: GrantId)
    requires t < |s.txs| && s.txs[t].pc.Charged? && TxOk(s, t) && s' == CommitCharge(s, t)
    requires s.store.usage.Keys == s.initial.usage.Keys && g in s.store.usage && RowOk(s, g)
    ensures s'.store.usage.Keys == s'.initial.usage.Keys && g in s'.store.usage && RowOk(s', g)
  {
    var tx := s.txs[t];
    HistoryGrows(s.log, Entry(tx.user, tx.at, tx.pc.grant), g);
    var history := HistoryOf(s.log, g);
    if g == tx.pc.grant {
      assert Front(history + [tx.at]) == history && Last(history + [tx.at]) == tx.at;
    } else {
      assert history + [] == history;
    }
  }

  lemma CommitHistory(s: State, s': State, t: nat)
    requires t < |s.txs| && s.txs[t].pc.Charged? && TxOk(s, t) && HistoryOk(s) && s' == CommitCharge(s, t)
    ensures HistoryOk(s')
  {
    var tx := s.txs[t];
    forall g | g in s'.store.usage
      ensures RowOk(s', g)
    {
      CommitRow(s, s', t, g);
    }
    CommitIsCharge(s, s', t);
    SerialGrows(s.initial, s.log, Entry(tx.user, tx.at, tx.pc.grant), s.store, s'.store);
  }

  lemma CommitLocks(s: State, s': State, t: nat)
    requires t < |s.txs| && s.txs[t].pc.Charged? && LocksOk(s) && s' == CommitCharge(s, t)
    ensures LocksOk(s')
  {}

  lemma CommitKeeps(s: State, s': State, t: nat)
    requires Inv(s) && t < |s.txs| && s.txs[t].pc.Charged? && s' == CommitCharge(s, t)
    ensures Inv(s')
    ensures forall u :: 0 <= u < |s.txs| && u != t ==> Rely(s, s', u)
  {
    assert TxOk(s, t);
    CommitOthers(s, s', t);
    CommitHistory(s, s', t);
    CommitLocks(s, s', t);
  }

  lemma CommitOthers(s: State, s': State, t: nat)
    requires t < |s.txs| && s.txs[t].pc.Charged? && s' == CommitCharge(s, t)
    requires forall u :: 0 <= u < |s.txs| ==> TxOk(s, u)
    ensures |s'.txs| == |s.txs|
    ensures forall u :: 0 <= u < |s.txs| ==> TxOk(s', u)
    ensures forall u :: 0 <= u < |s.txs| && u != t ==> Rely(s, s', u)
  {
    forall u | 0 <= u < |s.txs|
      ensures TxOk(s', u) && (u != t ==> Rely(s, s', u))
    {
      assert TxOk(s, t);
      if u != t {
        CommitRely(s, s', t, u);
        RelyKeepsTx(s, s', u);
      }
    }
  }

  lemma LockGrantsKeeps(s: State, s': State, t: nat)
    requires Inv(s) && t < |s.txs| && s.txs[t].pc.Locking? && LockGrants(s, t) == Some(s')
    ensures Local(s, s', t)
  {
    assert TxOk(s, t);
    match s.txs[t].pc.todo
    case None => SnapshotLocal(s, s', t);
    case Some(todo) =>
      if todo == [] {
        LockedAllLocal(s, s', t);
      } else {
        LockOneLocal(s, s', t);
      }
  }

  lemma StepLocal(s: State, s': State, t: nat)
    requires Inv(s) && t < |s.txs| && Step(s, t) == Some(s') && !s.txs[t].pc.Charged?
    ensures Local(s, s', t)
  {
    assert TxOk(s, t);
    match s.txs[t].pc
    case Locking(_, _) => LockGrantsKeeps(s, s', t);
    case WantUsage(_) => LockUsageLocal(s, s', t);
    case Holding(_, _) => DecideLocal(s, s', t);
    case _ => SyncLocal(s, s', t);
  }

  lemma StepKeeps(s: State, s': State, t: nat)
    requires Inv(s) && t < |s.txs| && Step(s, t) == Some(s')
    ensures Inv(s') && |s'.txs| == |s.txs|
    ensures forall u :: 0 <= u < |s.txs| && u != t ==> Rely(s, s', u)
  {
    if s.txs[t].pc.Charged? {
      CommitKeeps(s, s', t);
    } else {
      StepLocal(s, s', t);
      LocalKeeps(s, s', t);
    }
  }

  predicate Moves(e: Event, t: nat) {
    (e.Advance? && e.t == t) || (e.Crash? && e.t == t)
  }

  lemma BeginKeeps(s: State, s': State, tx: Tx)
    requires Inv(s) && s' == s.(txs := s.txs + [tx])
    requires tx.pc == Locking(None, []) || tx.pc == ReadGrants
    ensures Inv(s')
    ensures forall u :: 0 <= u < |s.txs| ==> Rely(s, s', u)
  {
    forall u | 0 <= u < |s.txs|
      ensures Rely(s, s', u) && TxOk(s', u)
    {
      RelyKeepsTx(s, s', u);
    }
    assert s'.txs[|s.txs|] == tx;
  }

  lemma EventKeeps(s: State, s': State, e: Event)
    requires Inv(s) && Next(s, e) == Some(s')
    ensures Inv(s')
    ensures |s'.txs| >= |s.txs|
    ensures forall u :: 0 <= u < |s.txs| && !Moves(e, u) ==> Rely(s, s', u)
  {
    match e
    case Advance(t) => StepKeeps(s, s', t);
    case Crash(t) =>
      EndLocal(s, s', t, Dead);
      LocalKeeps(s, s', t);
    case BeginCharge(user, at) => BeginKeeps(s, s', Tx(user, at, Locking(None, [])));
    case BeginSync(user, at) => BeginKeeps(s, s', Tx(user, at, ReadGrants));
  }
}
