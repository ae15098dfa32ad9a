/** Every event keeps the invariant, and keeps to every attempt but the one that moves its reliance. */
module AuthSteps {
  import opened Wrappers
  import opened Firebase
  import opened AuthTables
  import opened AuthMachine
  import opened AuthInvariant

  predicate SameRequest(t: Attempt, t': Attempt) {
    t'.handle == t.handle && t'.caller == t.caller && t'.now == t.now
  }

  /** What an earlier state fixes about every later one. */
  ghost predicate Later(s: State, s': State) {
    && TablesLater(s.db, s'.db)
    && |s.attempts| <= |s'.attempts|
    && (forall a :: 0 <= a < |s.attempts| ==> SameRequest(s.attempts[a], s'.attempts[a]))
    && (forall h :: h in s.issued ==> h in s'.issued && s'.issued[h] == s.issued[h])
    && (forall h :: h in s.owner ==> h in s'.owner && s'.owner[h] == s.owner[h])
  }

  /** What one event of attempt `b` owes to the rest of the system. */
  ghost predicate Kept(s: State, s': State, b: nat) {
    && Inv(s')
    && Later(s, s')
    && |s'.attempts| == |s.attempts|
    && forall a :: 0 <= a < |s.attempts| && a != b ==> Rely(s, s', a)
  }

  ghost predicate OnlyMoves(s: State, s': State, b: nat)
    requires b < |s.attempts|
  {
    && |s'.attempts| == |s.attempts|
    && s'.attempts == s.attempts[b := s'.attempts[b]]
    && s'.attempts[b].handle == s.attempts[b].handle && s'.attempts[b].caller == s.attempts[b].caller
    && s'.attempts[b].now == s.attempts[b].now
    && s'.issued == s.issued
    && (forall h :: h in s'.rowLock ==> s'.rowLock[h] < |s.attempts|)
    && (forall k :: k in s'.keyLock ==> s'.keyLock[k] < |s.attempts|)
    && (forall h, a: nat :: a != b && Holds(s.rowLock, h, a) ==> Holds(s'.rowLock, h, a))
    && (forall k, a: nat :: a != b && Holds(s.keyLock, k, a) ==> Holds(s'.keyLock, k, a))
  }

  lemma OthersKeepOk(s: State, s': State, b: nat)
    requires Inv(s) && b < |s.attempts| && OnlyMoves(s, s', b)
    requires forall a :: 0 <= a < |s.attempts| && a != b ==> Rely(s, s', a)
    requires AttemptOk(s', b)
    ensures forall a :: 0 <= a < |s'.attempts| ==> AttemptOk(s', a)
  {
    forall a | 0 <= a < |s'.attempts|
      ensures AttemptOk(s', a)
    {
      if a != b {
        RelyKeepsAttempt(s, s', a);
      }
    }
  }

  lemma LocalRely(s: State, s': State, b: nat, a: nat)
    requires b < |s.attempts| && OnlyMoves(s, s', b) && s'.db == s.db && s'.owner == s.owner
    requires a < |s.attempts| && a != b
    ensures Rely(s, s', a)
  {}

  lemma LocalHistory(s: State, s': State, b: nat)
    requires b < |s.attempts| && OnlyMoves(s, s', b) && s'.db == s.db && s'.owner == s.owner
    requires HistoryOk(s) && MintedOk(s) && LocksOk(s) && (forall h :: h in s.db.challenges ==> ChallengeOk(s, h))
    ensures HistoryOk(s') && MintedOk(s') && LocksOk(s') && (forall h :: h in s'.db.challenges ==> ChallengeOk(s', h))
  {
    forall h | h in s'.db.challenges
      ensures ChallengeOk(s', h)
    {
      assert ChallengeOk(s, h);
    }
  }

  /** A step that commits nothing: only its own attempt and its own locks change. */
  lemma LocalStep(s: State, s': State, b: nat)
    requires Inv(s) && b < |s.attempts| && OnlyMoves(s, s', b)
    requires s'.db == s.db && s'.owner == s.owner
    requires AttemptOk(s', b)
    ensures Kept(s, s', b)
  {
    forall a | 0 <= a < |s.attempts| && a != b
      ensures Rely(s, s', a)
    {
      LocalRely(s, s', b, a);
    }
    OthersKeepOk(s, s', b);
    LocalHistory(s, s', b);
  }

  /** What a local step is proved from. */
  ghost predicate Ready(s: State, b: nat) {
    && b < |s.attempts| && AttemptOk(s, b) && LocksOk(s)
    && (s.attempts[b].handle in s.db.challenges ==> ChallengeOk(s, s.attempts[b].handle))
  }

  ghost predicate LocalMove(s: State, s': State, b: nat) {
    b < |s.attempts| && OnlyMoves(s, s', b) && s'.db == s.db && s'.owner == s.owner && AttemptOk(s', b)
  }

  lemma LocateMoves(s: State, s': State, b: nat)
    requires Ready(s, b) && Apply(s, b, Locate) == Some(s')
    ensures LocalMove(s, s', b)
  {}

  lemma ClaimMoves(s: State, s': State, b: nat)
    requires Ready(s, b) && s.attempts[b].pc.Bound? && DoClaim(s, b) == Some(s')
    ensures LocalMove(s, s', b)
  {}

  lemma RefreshMoves(s: State, s': State, b: nat)
    requires Ready(s, b) && s.attempts[b].pc.ClaimLost? && DoRefresh(s, b) == Some(s')
    ensures LocalMove(s, s', b)
  {}

  lemma ReadProviderMoves(s: State, s': State, b: nat, reply: AdminReply)
    requires Ready(s, b) && s.attempts[b].pc.Reading? && DoReadProvider(s, b, reply) == Some(s')
    ensures LocalMove(s, s', b)
  {
    EstablishedFacts(reply);
  }

  lemma PairConflicts(db: Tables, i: Id, a: nat, t: Attempt)
    requires i in db.identities && HasPair(db.identities[i], t.caller.issuer, t.caller.subject) && t.facts.Some?
    ensures Conflicted(db, a, t) && Taken(db, SubjectKey(t.caller.issuer, t.caller.subject))
  {
    var k := SubjectKey(t.caller.issuer, t.caller.subject);
    assert k in Keys(db.identities[i]);
    assert k in Keys(NewIdentity(a, t.caller, t.facts.value));
  }

  lemma ResolveExistingMoves(s: State, s': State, b: nat, found: Option<Id>)
    requires Ready(s, b) && s.attempts[b].pc.HaveFacts? && DoResolveExisting(s, b, found) == Some(s')
    ensures LocalMove(s, s', b)
  {
    var t := s.attempts[b];
    if found.Some? {
      PairConflicts(s.db, found.value, b, t);
    } else if t.caller.linked.Some? {
      PairConflicts(s.db, t.caller.linked.value, b, t);
      assert false;
    }
  }

  lemma ReadUserMoves(s: State, s': State, b: nat)
    requires Ready(s, b) && s.attempts[b].pc.Existing? && DoReadUser(s, b) == Some(s')
    ensures LocalMove(s, s', b)
  {}

  lemma InsertUserMoves(s: State, s': State, b: nat)
    requires Ready(s, b) && s.attempts[b].pc.Unlinked? && DoInsertUser(s, b) == Some(s')
    ensures LocalMove(s, s', b)
  {}

  lemma AcquireKeeps(locks: map<UniqueKey, nat>, keys: set<UniqueKey>, b: nat)
    requires forall k :: k in keys ==> !HeldByOther(locks, k, b)
    ensures forall k :: k in keys ==> Holds(Acquire(locks, keys, b), k, b)
    ensures forall k, a: nat :: a != b && Holds(locks, k, a) ==> Holds(Acquire(locks, keys, b), k, a)
    ensures forall k :: k in Acquire(locks, keys, b) ==> k in locks || Acquire(locks, keys, b)[k] == b
    ensures forall k :: k in locks && k in Acquire(locks, keys, b) && Acquire(locks, keys, b)[k] != b
                        ==> Acquire(locks, keys, b)[k] == locks[k]
  {}

  lemma InsertIdentityFails(s: State, s': State, b: nat)
    requires Ready(s, b) && s.attempts[b].pc.UserInserted? && DoInsertIdentity(s, b) == Some(s') && s'.attempts[b].pc.Failing?
    ensures LocalMove(s, s', b)
  {
    assert Conflicted(s.db, b, s.attempts[b]);
  }

  /** The identity row is pending and its index entries are the attempt's. */
  ghost predicate Entered(s: State, s': State, b: nat)
    requires b < |s.attempts| && s.attempts[b].facts.Some?
  {
    var row := NewIdentity(b, s.attempts[b].caller, s.attempts[b].facts.value);
    && s' == Put(s, b, s.attempts[b].(pc := IdentityInserted, pending := s.attempts[b].pending.(identity := Some(row))))
             .(keyLock := Acquire(s.keyLock, Keys(row), b))
    && ProviderRule(row.provider, row.providerUid)
    && forall k :: k in Keys(row) ==> !HeldByOther(s.keyLock, k, b) && !Taken(s.db, k)
  }

  lemma InsertIdentityShape(s: State, s': State, b: nat)
    requires b < |s.attempts| && s.attempts[b].pc.UserInserted? && DoInsertIdentity(s, b) == Some(s')
    requires |s'.attempts| == |s.attempts| ==> !s'.attempts[b].pc.Failing?
    ensures s.attempts[b].facts.Some? && Entered(s, s', b)
  {}

  lemma EnteredMoves(s: State, s': State, b: nat)
    requires Ready(s, b) && s.attempts[b].facts.Some? && Entered(s, s', b)
    ensures OnlyMoves(s, s', b)
  {
    AcquireKeeps(s.keyLock, Keys(NewIdentity(b, s.attempts[b].caller, s.attempts[b].facts.value)), b);
  }

  lemma EnteredOk(s: State, s': State, b: nat)
    requires Ready(s, b) && s.attempts[b].pc.UserInserted? && s.attempts[b].facts.Some? && Entered(s, s', b)
    ensures AttemptOk(s', b)
  {
    var row := NewIdentity(b, s.attempts[b].caller, s.attempts[b].facts.value);
    AcquireKeeps(s.keyLock, Keys(row), b);
    assert KeysReserved(s', b, row);
  }

  lemma InsertIdentityEnters(s: State, s': State, b: nat)
    requires Ready(s, b) && s.attempts[b].pc.UserInserted? && DoInsertIdentity(s, b) == Some(s') && !s'.attempts[b].pc.Failing?
    ensures LocalMove(s, s', b)
  {
    InsertIdentityShape(s, s', b);
    EnteredMoves(s, s', b);
    EnteredOk(s, s', b);
  }

  lemma InsertIdentityMoves(s: State, s': State, b: nat)
    requires Ready(s, b) && s.attempts[b].pc.UserInserted? && DoInsertIdentity(s, b) == Some(s')
    ensures LocalMove(s, s', b)
  {
    if s'.attempts[b].pc.Failing? {
      InsertIdentityFails(s, s', b);
    } else {
      InsertIdentityEnters(s, s', b);
    }
  }

  lemma InsertTokenMoves(s: State, s': State, b: nat, store: PurchaseProvider)
    requires Ready(s, b) && s.attempts[b].pc.IdentityInserted? && DoInsertToken(s, b, store) == Some(s')
    ensures LocalMove(s, s', b)
  {}

  lemma AbandonMoves(s: State, s': State, b: nat, pc: Pc)
    requires Ready(s, b) && !s.attempts[b].pc.Done? && s' == Abandon(s, b, pc)
    requires PcOk(s', b) && (pc.Done? ==> pc.outcome.Failure?)
    ensures LocalMove(s, s', b)
  {}

  lemma RollbackMoves(s: State, s': State, b: nat)
    requires Ready(s, b) && Apply(s, b, Rollback) == Some(s')
    ensures LocalMove(s, s', b)
  {
    AbandonMoves(s, s', b, RolledBack(s.attempts[b].pc.error));
  }

  lemma SpendFailsMoves(s: State, s': State, b: nat, outcome: Result<Provider, AppError>)
    requires Ready(s, b) && outcome.Failure?
    requires s.attempts[b].pc == RolledBack(outcome.error) || (exists m :: s.attempts[b].pc == Spent(outcome, m))
    requires s' == Abandon(s, b, Done(outcome))
    ensures LocalMove(s, s', b)
  {
    assert RejectionOk(s.db, b, s.attempts[b], outcome.error);
    AbandonMoves(s, s', b, Done(outcome));
  }

  lemma CrashMoves(s: State, s': State, b: nat)
    requires Ready(s, b) && Apply(s, b, Crash) == Some(s')
    ensures LocalMove(s, s', b)
  {
    AbandonMoves(s, s', b, Dead);
  }

  lemma ConsumeMoves(s: State, s': State, b: nat)
    requires Ready(s, b) && (s.attempts[b].pc.RolledBack? || s.attempts[b].pc.IdentityInserted?) && DoConsume(s, b) == Some(s')
    ensures LocalMove(s, s', b)
  {}

  lemma LocalActionMoves(s: State, s': State, b: nat, action: Action)
    requires Ready(s, b) && action !in {CommitClaim, CommitSpend} && Apply(s, b, action) == Some(s')
    ensures LocalMove(s, s', b)
  {
    match action
    case Locate => LocateMoves(s, s', b);
    case Claim => ClaimMoves(s, s', b);
    case Refresh => RefreshMoves(s, s', b);
    case ReadProvider(reply) => ReadProviderMoves(s, s', b, reply);
    case ResolveExisting(found) => ResolveExistingMoves(s, s', b, found);
    case ReadUser => ReadUserMoves(s, s', b);
    case InsertUser => InsertUserMoves(s, s', b);
    case InsertIdentity => InsertIdentityMoves(s, s', b);
    case InsertToken(store) => InsertTokenMoves(s, s', b, store);
    case Consume => ConsumeMoves(s, s', b);
    case Rollback => RollbackMoves(s, s', b);
    case SpendFails =>
      var pc := s.attempts[b].pc;
      SpendFailsMoves(s, s', b, if pc.RolledBack? then Failure(pc.error) else pc.outcome);
    case Crash => CrashMoves(s, s', b);
    case _ =>
  }

  lemma LocalActionKept(s: State, s': State, b: nat, action: Action)
    requires Inv(s) && b < |s.attempts|
    requires action !in {CommitClaim, CommitSpend} && Apply(s, b, action) == Some(s')
    ensures Kept(s, s', b)
  {
    LocalActionMoves(s, s', b, action);
    LocalStep(s, s', b);
  }

  lemma NoTokenRows(a: nat)
    ensures TokenRows(a, {}) == map[]
  {}

  lemma AllTokenRows(a: nat)
    ensures TokenRows(a, {AppleStore, GooglePlay})
            == map[(UserId(a), AppleStore) := TokenValue(a, AppleStore),
                   (UserId(a), GooglePlay) := TokenValue(a, GooglePlay)]
  {
    var rows := TokenRows(a, {AppleStore, GooglePlay});
    assert AppleStore in {AppleStore, GooglePlay} && GooglePlay in {AppleStore, GooglePlay};
    assert (UserId(a), AppleStore) in rows && (UserId(a), GooglePlay) in rows;
  }

  /** The claim commit: the row gains its claim instant and its owner, and nothing else changes. */
  lemma CommitClaimTables(s: State, s': State, b: nat)
    requires Ready(s, b) && s.attempts[b].pc.ClaimPending? && DoCommitClaim(s, b) == Some(s')
    ensures OnlyMoves(s, s', b)
    ensures s'.db == s.db.(challenges := s'.db.challenges)
    ensures var h := s.attempts[b].handle;
            && h in s.db.challenges && h !in s.owner && Holds(s.rowLock, h, b)
            && Claimable(s.db.challenges[h], s.attempts[b].now)
            && s'.db.challenges == s.db.challenges[h := ClaimedRow(s.db.challenges[h], s.attempts[b].now)]
            && s'.owner == s.owner[h := b]
    ensures s'.attempts[b] == s.attempts[b].(pc := Reading(0), pending := NOTHING, claimed := true)
  {
    NoTokenRows(b);
  }

  lemma CommitClaimMoves(s: State, s': State, b: nat)
    requires Ready(s, b) && s.attempts[b].pc.ClaimPending? && DoCommitClaim(s, b) == Some(s')
    ensures OnlyMoves(s, s', b) && AttemptOk(s', b)
  {
    CommitClaimTables(s, s', b);
  }

  lemma CommitClaimLater(s: State, s': State, b: nat)
    requires Ready(s, b) && s.attempts[b].pc.ClaimPending? && DoCommitClaim(s, b) == Some(s')
    ensures Later(s, s')
  {
    CommitClaimTables(s, s', b);
  }

  /** One challenge row moves on and gains owner `b`; nothing else is committed. */
  lemma RowRely(s: State, s': State, b: nat, a: nat, row: ChallengeRow)
    requires b < |s.attempts| && OnlyMoves(s, s', b)
    requires a < |s.attempts| && a != b
    requires var h := s.attempts[b].handle;
             && h in s.db.challenges && RowLater(s.db.challenges[h], row)
             && s'.db == s.db.(challenges := s.db.challenges[h := row])
             && h !in s.owner && s'.owner == s.owner[h := b]
             && Holds(s.rowLock, h, b)
    requires s.attempts[a].claimed ==> Owns(s, a)
    ensures Rely(s, s', a)
  {
    assert forall k :: Taken(s'.db, k) ==> Taken(s.db, k);
  }

  lemma CommitClaimRely(s: State, s': State, b: nat, a: nat)
    requires Ready(s, b) && s.attempts[b].pc.ClaimPending? && DoCommitClaim(s, b) == Some(s')
    requires a < |s.attempts| && a != b && AttemptOk(s, a)
    ensures Rely(s, s', a)
  {
    CommitClaimTables(s, s', b);
    RowRely(s, s', b, a, s'.db.challenges[s.attempts[b].handle]);
  }

  lemma CommitClaimChallenge(s: State, s': State, b: nat, h: Handle)
    requires Ready(s, b) && s.attempts[b].pc.ClaimPending? && DoCommitClaim(s, b) == Some(s')
    requires h in s'.db.challenges && (h in s.db.challenges ==> ChallengeOk(s, h))
    ensures ChallengeOk(s', h)
  {
    CommitClaimTables(s, s', b);
  }

  lemma CommitClaimHistory(s: State, s': State, b: nat)
    requires Ready(s, b) && s.attempts[b].pc.ClaimPending? && DoCommitClaim(s, b) == Some(s')
    requires HistoryOk(s)
    ensures HistoryOk(s') && LocksOk(s')
  {
    CommitClaimTables(s, s', b);
  }

  lemma CommitClaimConstraints(s: State, s': State, b: nat)
    requires Ready(s, b) && s.attempts[b].pc.ClaimPending? && DoCommitClaim(s, b) == Some(s')
    requires Constraints(s.db) && MintedOk(s)
    ensures Constraints(s'.db) && MintedOk(s')
  {
    CommitClaimTables(s, s', b);
  }

  /** Puts the pieces of a committing step together. */
  lemma CommitStep(s: State, s': State, b: nat)
    requires Inv(s) && b < |s.attempts| && OnlyMoves(s, s', b) && Later(s, s')
    requires Constraints(s'.db) && HistoryOk(s') && MintedOk(s') && LocksOk(s')
    requires forall h :: h in s'.db.challenges ==> ChallengeOk(s', h)
    requires forall a :: 0 <= a < |s.attempts| && a != b ==> Rely(s, s', a)
    requires AttemptOk(s', b)
    ensures Kept(s, s', b)
  {
    OthersKeepOk(s, s', b);
  }

  lemma InvReady(s: State, b: nat)
    requires Inv(s) && b < |s.attempts|
    ensures Ready(s, b)
  {
    assert AttemptOk(s, b);
  }

  lemma CommitClaimOthers(s: State, s': State, b: nat)
    requires Ready(s, b) && s.attempts[b].pc.ClaimPending? && DoCommitClaim(s, b) == Some(s')
    requires forall a :: 0 <= a < |s.attempts| ==> AttemptOk(s, a)
    requires forall h :: h in s.db.challenges ==> ChallengeOk(s, h)
    ensures forall a :: 0 <= a < |s.attempts| && a != b ==> Rely(s, s', a)
    ensures forall h :: h in s'.db.challenges ==> ChallengeOk(s', h)
  {
    forall a | 0 <= a < |s.attempts| && a != b
      ensures Rely(s, s', a)
    {
      CommitClaimRely(s, s', b, a);
    }
    forall h | h in s'.db.challenges
      ensures ChallengeOk(s', h)
    {
      CommitClaimChallenge(s, s', b, h);
    }
  }

  lemma CommitClaimKept(s: State, s': State, b: nat)
    requires Inv(s) && b < |s.attempts| && s.attempts[b].pc.ClaimPending? && DoCommitClaim(s, b) == Some(s')
    ensures Kept(s, s', b)
  {
    InvReady(s, b);
    CommitClaimOthers(s, s', b);
    CommitClaimMoves(s, s', b);
    CommitClaimLater(s, s', b);
    CommitClaimHistory(s, s', b);
    CommitClaimConstraints(s, s', b);
    CommitStep(s, s', b);
  }

  ghost predicate Spending(s: State, s': State, b: nat) {
    Ready(s, b) && s.attempts[b].pc.Spent? && s' == Commit(s, b, Done(s.attempts[b].pc.outcome))
  }

  /** The spend commit consumes the challenge... */
  lemma SpendShape(s: State, s': State, b: nat)
    requires Spending(s, s', b)
    ensures OnlyMoves(s, s', b) && s'.owner == s.owner
    ensures s'.attempts[b] == s.attempts[b].(pc := Done(s.attempts[b].pc.outcome), pending := NOTHING)
    ensures var t := s.attempts[b];
            && t.handle in s.db.challenges && Holds(s.owner, t.handle, b) && Holds(s.rowLock, t.handle, b)
            && Consumable(s.db.challenges[t.handle])
            && s'.db.challenges == s.db.challenges[t.handle := ConsumedRow(s.db.challenges[t.handle], t.now)]
            && s'.db == Merge(s.db, b, t.handle, t.pending)
  {}

  /** ...and nothing more after a rejection... */
  lemma SpendRejection(s: State, s': State, b: nat)
    requires Spending(s, s', b) && s.attempts[b].pc.outcome.Failure?
    ensures s'.db == s.db.(challenges := s'.db.challenges)
  {
    SpendShape(s, s', b);
    NoTokenRows(b);
  }

  ghost predicate AccountRows(db: Tables, db': Tables, b: nat, t: Attempt) {
    && t.facts.Some?
    && db'.users == db.users[UserId(b) := NewUser(t.facts.value, t.now)]
    && db'.identities == db.identities[IdentityId(b) := NewIdentity(b, t.caller, t.facts.value)]
    && db'.tokens == db.tokens[(UserId(b), AppleStore) := TokenValue(b, AppleStore)]
                              [(UserId(b), GooglePlay) := TokenValue(b, GooglePlay)]
  }

  /** ...while after a complete insert the four account rows appear with it. */
  lemma SpendAccount(s: State, s': State, b: nat)
    requires Spending(s, s', b) && s.attempts[b].pc.outcome.Success?
    ensures AccountPending(s, b, s.attempts[b]) && Absent(s.db, b)
    ensures AccountRows(s.db, s'.db, b, s.attempts[b])
  {
    var t := s.attempts[b];
    SpendPending(s, b);
    SpendShape(s, s', b);
    AllTokenRows(b);
    MergeAccount(s.db, b, t);
  }

  lemma SpendPending(s: State, b: nat)
    requires Ready(s, b) && s.attempts[b].pc.Spent? && s.attempts[b].pc.outcome.Success?
    ensures AccountPending(s, b, s.attempts[b]) && Absent(s.db, b)
    ensures s.attempts[b].pending.tokens == {AppleStore, GooglePlay}
  {}

  lemma MergeAccount(db: Tables, b: nat, t: Attempt)
    requires t.facts.Some? && t.pending.tokens == {AppleStore, GooglePlay}
    requires t.pending.user == Some(NewUser(t.facts.value, t.now))
    requires t.pending.identity == Some(NewIdentity(b, t.caller, t.facts.value))
    ensures AccountRows(db, Merge(db, b, t.handle, t.pending), b, t)
  {
    AllTokenRows(b);
  }

  lemma AccountKeys(db: Tables, db': Tables, b: nat, t: Attempt)
    requires Constraints(db) && AccountRows(db, db', b, t) && Absent(db, b)
    requires forall k :: k in Keys(NewIdentity(b, t.caller, t.facts.value)) ==> !Taken(db, k)
    ensures forall i, j, k ::
              i in db'.identities && j in db'.identities && k in Keys(db'.identities[i]) && k in Keys(db'.identities[j])
              ==> i == j
  {
    forall i, k | i in db.identities && k in Keys(db.identities[i])
      ensures k !in Keys(NewIdentity(b, t.caller, t.facts.value))
    {
      assert Taken(db, k);
    }
  }

  lemma AccountOwners(db: Tables, db': Tables, b: nat, t: Attempt)
    requires Constraints(db) && AccountRows(db, db', b, t) && Absent(db, b)
    ensures forall i, j ::
              i in db'.identities && j in db'.identities && db'.identities[i].userId == db'.identities[j].userId
              ==> i == j
  {
    assert forall i :: i in db.identities ==> db.identities[i].userId in db.users;
  }

  lemma AccountConstraints(db: Tables, db': Tables, b: nat, t: Attempt)
    requires Constraints(db) && AccountRows(db, db', b, t) && Absent(db, b)
    requires ProviderRule(t.facts.value.provider, t.facts.value.providerUid)
    requires forall k :: k in Keys(NewIdentity(b, t.caller, t.facts.value)) ==> !Taken(db, k)
    requires forall x :: x in db.tokens && db.tokens[x].Minted? ==> x.0 == UserId(db.tokens[x].attempt)
    ensures Constraints(db')
  {
    AccountKeys(db, db', b, t);
    AccountOwners(db, db', b, t);
    AccountTokens(db, db', b, t);
  }

  lemma AccountTokens(db: Tables, db': Tables, b: nat, t: Attempt)
    requires Constraints(db) && AccountRows(db, db', b, t) && Absent(db, b)
    requires forall x :: x in db.tokens && db.tokens[x].Minted? ==> x.0 == UserId(db.tokens[x].attempt)
    ensures forall x, y :: x in db'.tokens && y in db'.tokens && x.1 == y.1 && db'.tokens[x] == db'.tokens[y] ==> x == y
    ensures forall x :: x in db'.tokens ==> x.0 in db'.users
    ensures forall x :: x in db'.tokens && db'.tokens[x].Minted? ==> x.0 == UserId(db'.tokens[x].attempt)
  {
    forall x, y | x in db'.tokens && y in db'.tokens && x.1 == y.1 && db'.tokens[x] == db'.tokens[y]
      ensures x == y
    {
      if x !in db.tokens || y !in db.tokens {
        assert db'.tokens[x].Minted? && db'.tokens[x].attempt == b;
        assert x.0 == UserId(b) && y.0 == UserId(b);
      }
    }
  }

  lemma SpendLater(s: State, s': State, b: nat)
    requires Spending(s, s', b)
    ensures OnlyMoves(s, s', b) && Later(s, s')
  {
    SpendShape(s, s', b);
    if s.attempts[b].pc.outcome.Failure? {
      SpendRejection(s, s', b);
    } else {
      SpendAccount(s, s', b);
    }
  }

  lemma SpendConstraints(s: State, s': State, b: nat)
    requires Spending(s, s', b) && Constraints(s.db) && MintedOk(s)
    ensures Constraints(s'.db)
  {
    if s.attempts[b].pc.outcome.Failure? {
      SpendRejection(s, s', b);
    } else {
      SpendAccount(s, s', b);
      AccountConstraints(s.db, s'.db, b, s.attempts[b]);
    }
  }

  lemma SpendHistory(s: State, s': State, b: nat)
    requires Spending(s, s', b) && MintedOk(s) && HistoryOk(s) && Constraints(s.db)
    ensures MintedOk(s') && HistoryOk(s') && LocksOk(s')
  {
    SpendShape(s, s', b);
    if s.attempts[b].pc.outcome.Failure? {
      SpendRejection(s, s', b);
    } else {
      SpendAccount(s, s', b);
      AccountTokens(s.db, s'.db, b, s.attempts[b]);
    }
  }

  lemma AccountWhole(db: Tables, db': Tables, b: nat, t: Attempt)
    requires AccountRows(db, db', b, t)
    ensures Whole(db', b, t)
  {
    forall store: PurchaseProvider
      ensures (UserId(b), store) in db'.tokens && db'.tokens[(UserId(b), store)] == TokenValue(b, store)
    {
      match store
      case AppleStore =>
      case GooglePlay =>
    }
  }

  lemma SpendPc(s: State, s': State, b: nat)
    requires Spending(s, s', b) && TablesLater(s.db, s'.db)
    ensures PcOk(s', b)
  {
    SpendShape(s, s', b);
    if s.attempts[b].pc.outcome.Failure? {
      ConflictStays(s.db, s'.db, b, s.attempts[b]);
    }
  }

  lemma SpendMoves(s: State, s': State, b: nat)
    requires Spending(s, s', b) && TablesLater(s.db, s'.db)
    ensures AttemptOk(s', b)
  {
    SpendPc(s, s', b);
    SpendShape(s, s', b);
    if s.attempts[b].pc.outcome.Failure? {
      SpendRejection(s, s', b);
    } else {
      SpendAccount(s, s', b);
      AccountWhole(s.db, s'.db, b, s.attempts[b]);
    }
  }

  /** A key some other attempt holds in flight cannot be among the rows this commit publishes. */
  lemma SpendTakes(s: State, s': State, b: nat, k: UniqueKey)
    requires Spending(s, s', b) && Taken(s'.db, k) && !Taken(s.db, k)
    ensures Holds(s.keyLock, k, b)
  {
    var i :| i in s'.db.identities && k in Keys(s'.db.identities[i]);
    if s.attempts[b].pc.outcome.Failure? {
      SpendRejection(s, s', b);
      assert Taken(s.db, k);
    } else {
      SpendAccount(s, s', b);
      if i in s.db.identities {
        assert false;
      }
    }
  }

  lemma SpendRely(s: State, s': State, b: nat, a: nat)
    requires Spending(s, s', b) && TablesLater(s.db, s'.db)
    requires a < |s.attempts| && a != b && AttemptOk(s, a)
    ensures Rely(s, s', a)
  {
    SpendShape(s, s', b);
    forall k | Holds(s.keyLock, k, a) && Taken(s'.db, k)
      ensures Taken(s.db, k)
    {
      if !Taken(s.db, k) {
        SpendTakes(s, s', b, k);
      }
    }
    if s.attempts[b].pc.outcome.Failure? {
      SpendRejection(s, s', b);
    } else {
      SpendAccount(s, s', b);
    }
  }

  lemma SpendChallenge(s: State, s': State, b: nat, h: Handle)
    requires Spending(s, s', b)
    requires h in s'.db.challenges && (h in s.db.challenges ==> ChallengeOk(s, h))
    ensures ChallengeOk(s', h)
  {
    SpendShape(s, s', b);
  }

  lemma SpendOthers(s: State, s': State, b: nat)
    requires Spending(s, s', b) && TablesLater(s.db, s'.db)
    requires forall a :: 0 <= a < |s.attempts| ==> AttemptOk(s, a)
    requires forall h :: h in s.db.challenges ==> ChallengeOk(s, h)
    ensures forall a :: 0 <= a < |s.attempts| && a != b ==> Rely(s, s', a)
    ensures forall h :: h in s'.db.challenges ==> ChallengeOk(s', h)
  {
    forall a | 0 <= a < |s.attempts| && a != b
      ensures Rely(s, s', a)
    {
      SpendRely(s, s', b, a);
    }
    forall h | h in s'.db.challenges
      ensures ChallengeOk(s', h)
    {
      SpendChallenge(s, s', b, h);
    }
  }

  lemma SpendKept(s: State, s': State, b: nat)
    requires Inv(s) && Spending(s, s', b)
    ensures Kept(s, s', b)
  {
    SpendLater(s, s', b);
    SpendConstraints(s, s', b);
    SpendHistory(s, s', b);
    SpendOthers(s, s', b);
    SpendMoves(s, s', b);
    CommitStep(s, s', b);
  }

  /** Any action of any attempt keeps the invariant, and keeps to every other attempt its reliance. */
  lemma ActionKept(s: State, s': State, b: nat, action: Action)
    requires Inv(s) && b < |s.attempts| && Apply(s, b, action) == Some(s')
    ensures Kept(s, s', b)
  {
    match action
    case CommitClaim => CommitClaimKept(s, s', b);
    case CommitSpend =>
      InvReady(s, b);
      SpendKept(s, s', b);
    case _ => LocalActionKept(s, s', b, action);
  }
}
