/** What the account-creation protocol guarantees in every reachable state and along every run. */
module AuthTheorems {
  import opened Wrappers
  import opened Firebase
  import opened AuthTables
  import opened AuthMachine
  import opened AuthInvariant
  import opened AuthSteps

  /** The attempt an event moves, if any. */
  predicate Moves(e: Event, a: nat) {
    e.Step? && e.a == a
  }

  /** An event outside the attempts: rows issued or administered, attempts begun. */
  ghost predicate EnvMove(s: State, s': State) {
    && |s.attempts| <= |s'.attempts| && s'.attempts[..|s.attempts|] == s.attempts
    && s'.rowLock == s.rowLock && s'.keyLock == s.keyLock && s'.owner == s.owner
    && TablesLater(s.db, s'.db) && s'.db.tokens == s.db.tokens
    && s'.db.users.Keys == s.db.users.Keys && s'.db.identities.Keys == s.db.identities.Keys
    && (forall h :: h in s.issued ==> h in s'.issued && s'.issued[h] == s.issued[h])
    && (forall h :: h in s.db.challenges ==> s'.db.challenges[h] == s.db.challenges[h])
  }

  lemma SameTaken(t: Tables, t': Tables, k: UniqueKey)
    requires TablesLater(t, t') && t'.identities.Keys == t.identities.Keys && Taken(t', k)
    ensures Taken(t, k)
  {
    var i :| i in t'.identities && k in Keys(t'.identities[i]);
    assert i in t.identities && SameIdentity(t.identities[i], t'.identities[i]);
    assert Keys(t'.identities[i]) == Keys(t.identities[i]);
  }

  lemma EnvRely(s: State, s': State, a: nat)
    requires EnvMove(s, s') && a < |s.attempts|
    ensures Rely(s, s', a)
  {
    forall k | Taken(s'.db, k)
      ensures Taken(s.db, k)
    {
      SameTaken(s.db, s'.db, k);
    }
    assert s'.attempts[..|s.attempts|][a] == s'.attempts[a];
  }

  lemma SameKeys(s: State, s': State, i: Id)
    requires EnvMove(s, s') && i in s'.db.identities
    ensures Keys(s'.db.identities[i]) == Keys(s.db.identities[i])
    ensures s'.db.identities[i] == s.db.identities[i].(state := s'.db.identities[i].state)
  {
    assert SameIdentity(s.db.identities[i], s'.db.identities[i]);
  }

  lemma EnvConstraints(s: State, s': State)
    requires EnvMove(s, s') && Constraints(s.db) && MintedOk(s)
    ensures Constraints(s'.db) && MintedOk(s')
  {
    forall i | i in s'.db.identities
      ensures Keys(s'.db.identities[i]) == Keys(s.db.identities[i])
      ensures s'.db.identities[i] == s.db.identities[i].(state := s'.db.identities[i].state)
    {
      SameKeys(s, s', i);
    }
  }

  lemma EnvAttempts(s: State, s': State)
    requires Inv(s) && EnvMove(s, s')
    ensures forall a :: 0 <= a < |s.attempts| ==> AttemptOk(s', a) && Rely(s, s', a)
  {
    forall a | 0 <= a < |s.attempts|
      ensures AttemptOk(s', a) && Rely(s, s', a)
    {
      EnvRely(s, s', a);
      RelyKeepsAttempt(s, s', a);
    }
  }

  lemma EnvChallenge(s: State, s': State, h: Handle)
    requires EnvMove(s, s') && HistoryOk(s) && h in s.db.challenges && ChallengeOk(s, h)
    ensures ChallengeOk(s', h)
  {}

  lemma IssueMoves(s: State, s': State, e: Event)
    requires HistoryOk(s) && e.Issue? && Next(s, e) == Some(s')
    ensures EnvMove(s, s') && HistoryOk(s') && |s'.attempts| == |s.attempts|
    ensures forall h :: h in s'.db.challenges && h !in s.db.challenges ==> ChallengeOk(s', h)
  {}

  /** An attempt that begins has none of an account's rows, and asks for nothing yet. */
  lemma NewAttemptOk(s: State, s': State, t: Attempt)
    requires HistoryOk(s) && MintedOk(s) && Constraints(s.db) && s' == s.(attempts := s.attempts + [t])
    requires t == Attempt(t.caller, t.handle, t.now, Start, NOTHING, false, 0, None) && Plausible(s.db, t.caller)
    ensures AttemptOk(s', |s.attempts|)
  {
    assert forall x :: x in s.db.tokens ==> x.0 in s.db.users;
    assert Absent(s.db, |s.attempts|);
  }

  lemma BeginMoves(s: State, s': State, e: Event)
    requires HistoryOk(s) && MintedOk(s) && Constraints(s.db) && e.Begin? && Next(s, e) == Some(s')
    ensures EnvMove(s, s') && HistoryOk(s') && AttemptOk(s', |s.attempts|)
    ensures |s'.attempts| == |s.attempts| + 1 && s'.db == s.db
  {
    NewAttemptOk(s, s', s'.attempts[|s.attempts|]);
  }

  lemma UserMoves(s: State, s': State, e: Event)
    requires HistoryOk(s) && e.SetUserActive? && Next(s, e) == Some(s')
    ensures EnvMove(s, s') && HistoryOk(s') && |s'.attempts| == |s.attempts|
    ensures s'.db.challenges == s.db.challenges
  {}

  lemma IdentityMoves(s: State, s': State, e: Event)
    requires HistoryOk(s) && e.SetIdentityState? && Next(s, e) == Some(s')
    ensures EnvMove(s, s') && HistoryOk(s') && |s'.attempts| == |s.attempts|
    ensures s'.db.challenges == s.db.challenges
  {}

  lemma EnvStep(s: State, s': State)
    requires Inv(s) && EnvMove(s, s') && HistoryOk(s')
    requires forall h :: h in s'.db.challenges && h !in s.db.challenges ==> ChallengeOk(s', h)
    requires |s.attempts| == |s'.attempts| || (|s'.attempts| == |s.attempts| + 1 && AttemptOk(s', |s.attempts|))
    ensures Inv(s')
    ensures forall a :: 0 <= a < |s.attempts| ==> Rely(s, s', a)
  {
    EnvConstraints(s, s');
    EnvAttempts(s, s');
    forall h | h in s'.db.challenges
      ensures ChallengeOk(s', h)
    {
      if h in s.db.challenges {
        EnvChallenge(s, s', h);
      }
    }
  }

  /** One event, whoever's it is: the invariant holds again, rows only move forward, and every attempt
      that did not move sees no more than its reliance allows. */
  lemma EventKept(s: State, s': State, e: Event)
    requires Inv(s) && Next(s, e) == Some(s')
    ensures Inv(s') && Later(s, s')
    ensures forall a :: 0 <= a < |s.attempts| && !Moves(e, a) ==> Rely(s, s', a)
  {
    match e
    case Step(b, action) => ActionKept(s, s', b, action);
    case Issue(_, _, _, _) =>
      IssueMoves(s, s', e);
      EnvStep(s, s');
    case Begin(_, _, _) =>
      BeginMoves(s, s', e);
      EnvStep(s, s');
    case SetUserActive(_, _) =>
      UserMoves(s, s', e);
      EnvStep(s, s');
    case SetIdentityState(_, _) =>
      IdentityMoves(s, s', e);
      EnvStep(s, s');
  }

  lemma InitInv(s: State)
    requires Init(s)
    ensures Inv(s)
  {}

  lemma SuccessorKept(s: State, s': State)
    requires Inv(s) && Successor(s, s')
    ensures Inv(s') && Later(s, s')
  {
    var e :| Next(s, e) == Some(s');
    EventKept(s, s', e);
  }

  /** Every state of every run satisfies the invariant. */
  lemma {:induction false} RunInv(run: seq<State>, k: nat)
    requires Run(run) && k < |run|
    ensures Inv(run[k])
  {
    if k == 0 {
      InitInv(run[0]);
    } else {
      RunInv(run, k - 1);
      assert StepsAt(run, k - 1);
      SuccessorKept(run[k - 1], run[k]);
    }
  }

  lemma StepLater(run: seq<State>, k: nat)
    requires Run(run) && 0 < k < |run|
    ensures Later(run[k - 1], run[k])
  {
    RunInv(run, k - 1);
    assert StepsAt(run, k - 1);
    SuccessorKept(run[k - 1], run[k]);
  }

  lemma LaterRefl(s: State)
    ensures Later(s, s)
  {}

  lemma LaterTransitive(s: State, s': State, s'': State)
    requires Later(s, s') && Later(s', s'')
    ensures Later(s, s'')
  {
    TablesLaterTransitive(s.db, s'.db, s''.db);
  }

  /** Along a run no row is deleted, no challenge goes back, no claim changes hands and no identity
      changes its pair, its provider account or its user. */
  lemma {:induction false} RunLater(run: seq<State>, j: nat, k: nat)
    requires Run(run) && j <= k < |run|
    ensures Later(run[j], run[k])
    decreases k
  {
    if j == k {
      LaterRefl(run[j]);
    } else {
      RunLater(run, j, k - 1);
      StepLater(run, k);
      LaterTransitive(run[j], run[k - 1], run[k]);
    }
  }

  /** Single use, over time as well as in one state: two attempts that ever got past the claim of one
      challenge are the same attempt, so at most one reads the provider, and at most three times. */
  lemma ClaimIsSingleUse(run: seq<State>, j: nat, k: nat, a: nat, b: nat)
    requires Run(run) && j <= k < |run| && a < |run[j].attempts| && b < |run[k].attempts|
    requires run[j].attempts[a].handle == run[k].attempts[b].handle
    ensures run[j].attempts[a].claimed && run[k].attempts[b].claimed ==> a == b
    ensures run[j].attempts[a].calls > 0 && run[k].attempts[b].calls > 0 ==> a == b
    ensures run[k].attempts[b].calls <= 3
  {
    RunInv(run, j);
    RunInv(run, k);
    RunLater(run, j, k);
    assert AttemptOk(run[j], a) && AttemptOk(run[k], b);
  }

  /** An account this path committed: who made it, with which challenge, and when. */
  ghost predicate Earned(s: State, a: nat)
    requires a < |s.attempts|
  {
    var t := s.attempts[a];
    && t.pc.Done? && t.pc.outcome.Success?
    && Whole(s.db, a, t)
    && t.handle in s.issued && t.handle in s.db.challenges
    && s.issued[t.handle].operation == CreateUser
    && s.issued[t.handle].caller == Caller(t.caller.issuer, t.caller.subject, None)
    && s.db.challenges[t.handle].claimedAt == Some(t.now)
    && t.now < s.issued[t.handle].at + 300_000_000
    && s.db.challenges[t.handle].consumedAt == Some(t.now)
    && s.db.challenges[t.handle].preauthSubject.None?
  }

  lemma EarnedOrAbsent(s: State, a: nat)
    requires Inv(s) && a < |s.attempts|
    ensures if s.attempts[a].pc.Done? && s.attempts[a].pc.outcome.Success? then Earned(s, a) else Absent(s.db, a)
  {
    assert AttemptOk(s, a);
    if s.attempts[a].pc.Done? && s.attempts[a].pc.outcome.Success? {
      assert ChallengeOk(s, s.attempts[a].handle);
    }
  }

  /** The rows of attempt `a`'s account, column by column: the user with the verified address and, unless it
      is anonymous, registered at the attempt's instant; one identity row, of the caller's pair and the
      provider's account; one token a store, each its own. */
  ghost predicate Account(db: Tables, a: nat, t: Attempt, facts: Facts) {
    var u, i := UserId(a), IdentityId(a);
    && u in db.users && db.users[u].email == facts.email
    && db.users[u].registeredAt == (if facts.provider == Anonymous then None else Some(t.now))
    && i in db.identities && db.identities[i].userId == u
    && db.identities[i].issuer == t.caller.issuer && db.identities[i].subject == t.caller.subject
    && db.identities[i].provider == facts.provider && db.identities[i].providerUid == facts.providerUid
    && (u, AppleStore) in db.tokens && (u, GooglePlay) in db.tokens
    && db.tokens[(u, AppleStore)] != db.tokens[(u, GooglePlay)]
  }

  lemma EarnedAccount(s: State, a: nat)
    requires a < |s.attempts| && Earned(s, a)
    ensures s.attempts[a].facts.Some? && Account(s.db, a, s.attempts[a], s.attempts[a].facts.value)
  {
    var t := s.attempts[a];
    assert SameIdentity(NewIdentity(a, t.caller, t.facts.value), s.db.identities[IdentityId(a)]);
  }

  lemma EarnedProvider(s: State, a: nat)
    requires Inv(s) && a < |s.attempts| && Earned(s, a)
    ensures s.attempts[a].facts.Some? && s.attempts[a].pc == Done(Success(s.attempts[a].facts.value.provider))
  {
    assert AttemptOk(s, a);
  }

  /** No partial account: in every reachable state each attempt has all of its rows or none of them,
      and all of them exactly when it succeeded with a create_user challenge issued to its own
      unlinked pair, claimed in time, and consumed with its subject cleared. The rows are those of the
      facts its provider read established, whose provider is the answer. */
  lemma NoPartialAccount(run: seq<State>, k: nat, a: nat)
    requires Run(run) && k < |run| && a < |run[k].attempts|
    ensures (run[k].attempts[a].pc.Done? && run[k].attempts[a].pc.outcome.Success?) <==> Earned(run[k], a)
    ensures Earned(run[k], a) || Absent(run[k].db, a)
    ensures Earned(run[k], a) ==>
              && run[k].attempts[a].facts.Some?
              && Account(run[k].db, a, run[k].attempts[a], run[k].attempts[a].facts.value)
              && run[k].attempts[a].pc == Done(Success(run[k].attempts[a].facts.value.provider))
  {
    RunInv(run, k);
    EarnedOrAbsent(run[k], a);
    if Earned(run[k], a) {
      EarnedAccount(run[k], a);
      EarnedProvider(run[k], a);
    }
  }

  /** Every user row that is not a legacy one belongs to a whole, earned account, and accounts map
      injectively to challenges. */
  lemma AccountsMapToChallenges(run: seq<State>, k: nat, u: Id, v: Id)
    requires Run(run) && k < |run| && u in run[k].db.users && v in run[k].db.users && u.Minted? && v.Minted?
    ensures u.attempt < |run[k].attempts| && v.attempt < |run[k].attempts|
    ensures Earned(run[k], u.attempt) && u == UserId(u.attempt)
    ensures run[k].attempts[u.attempt].handle == run[k].attempts[v.attempt].handle ==> u == v
  {
    RunInv(run, k);
    EarnedOrAbsent(run[k], u.attempt);
    EarnedOrAbsent(run[k], v.attempt);
    assert AttemptOk(run[k], u.attempt) && AttemptOk(run[k], v.attempt);
  }

  /** Only the two commits write anything at all. */
  lemma OnlyCommitsWrite(s: State, s': State, a: nat, action: Action)
    requires Inv(s) && a < |s.attempts| && Apply(s, a, action) == Some(s')
    ensures action != CommitClaim && action != CommitSpend ==> s'.db == s.db
    ensures action == CommitClaim ==> s'.db == s.db.(challenges := s'.db.challenges)
  {
    InvReady(s, a);
    if action == CommitClaim {
      CommitClaimTables(s, s', a);
    } else if action != CommitSpend {
      LocalActionMoves(s, s', a, action);
    }
  }

  lemma OnlyTheSpendWritesRows(s: State, s': State, e: Event, a: nat)
    requires Inv(s) && Next(s, e) == Some(s') && a < |s.attempts| && Absent(s.db, a)
    ensures e == Step(a, CommitSpend) || Absent(s'.db, a)
  {
    EventKept(s, s', e);
    if Moves(e, a) && e.action != CommitSpend {
      OnlyCommitsWrite(s, s', a, e.action);
    }
  }

  lemma SpendRequiresTheClaim(s: State, s': State, a: nat)
    requires Inv(s) && a < |s.attempts| && Apply(s, a, CommitSpend) == Some(s')
    ensures s.attempts[a].handle in s.db.challenges
    ensures Consumable(s.db.challenges[s.attempts[a].handle])
  {
    assert AttemptOk(s, a);
  }

  /** The four rows and the spend are one commit: the event that makes any row of an account visible
      makes all of them visible and consumes the challenge, which was not consumed before. */
  lemma AccountAppearsAtOnce(s: State, s': State, e: Event, a: nat)
    requires Inv(s) && Next(s, e) == Some(s') && a < |s.attempts|
    requires Absent(s.db, a) && !Absent(s'.db, a)
    ensures e == Step(a, CommitSpend)
    ensures Inv(s') && a < |s'.attempts| && Earned(s', a)
    ensures s.attempts[a].handle in s.db.challenges
    ensures Consumable(s.db.challenges[s.attempts[a].handle])
    ensures s'.attempts[a].facts.Some? && Account(s'.db, a, s'.attempts[a], s'.attempts[a].facts.value)
    ensures s'.db.users[UserId(a)].active && s'.db.identities[IdentityId(a)].state == Active
  {
    OnlyTheSpendWritesRows(s, s', e, a);
    EventKept(s, s', e);
    EarnedOrAbsent(s', a);
    EarnedAccount(s', a);
    SpendRequiresTheClaim(s, s', a);
    SpendPublishes(s, s', a);
  }

  /** The rows as they are pending, column by column. */
  ghost predicate PendingAccount(a: nat, t: Attempt) {
    && t.facts.Some? && t.pending.user.Some? && t.pending.identity.Some?
    && t.pending.user.value.email == t.facts.value.email && t.pending.user.value.active
    && t.pending.user.value.registeredAt == (if t.facts.value.provider == Anonymous then None else Some(t.now))
    && t.pending.identity.value.userId == UserId(a)
    && t.pending.identity.value.issuer == t.caller.issuer && t.pending.identity.value.subject == t.caller.subject
    && t.pending.identity.value.provider == t.facts.value.provider
    && t.pending.identity.value.providerUid == t.facts.value.providerUid
    && t.pending.identity.value.state == Active
  }

  lemma PendingFields(s: State, a: nat)
    requires a < |s.attempts| && AttemptOk(s, a)
    requires s.attempts[a].pc.IdentityInserted? || (s.attempts[a].pc.Spent? && s.attempts[a].pc.outcome.Success?)
    ensures PendingAccount(a, s.attempts[a])
  {}

  lemma SpendPublishes(s: State, s': State, a: nat)
    requires Inv(s) && a < |s.attempts| && Apply(s, a, CommitSpend) == Some(s')
    requires UserId(a) in s'.db.users && IdentityId(a) in s'.db.identities && Absent(s.db, a)
    ensures s'.db.users[UserId(a)].active && s'.db.identities[IdentityId(a)].state == Active
  {
    assert AttemptOk(s, a);
    if s.attempts[a].pc.outcome.Success? {
      PendingFields(s, a);
    }
  }

  /** One issuer's row stands in the way of an attempt: it has the caller's pair, or the provider account. */
  ghost predicate StandsInTheWay(row: IdentityRow, caller: Caller, facts: Facts) {
    && row.issuer == caller.issuer
    && (|| row.subject == caller.subject
        || (facts.providerUid.Some? && row.provider == facts.provider && row.providerUid == facts.providerUid))
  }

  lemma SharedKeyStands(a: nat, caller: Caller, facts: Facts, row: IdentityRow)
    ensures (exists k :: k in Keys(NewIdentity(a, caller, facts)) && k in Keys(row)) <==> StandsInTheWay(row, caller, facts)
  {
    var mine := NewIdentity(a, caller, facts);
    assert SubjectKey(mine.issuer, mine.subject) in Keys(mine) && SubjectKey(row.issuer, row.subject) in Keys(row);
    if mine.providerUid.Some? {
      assert AccountKey(mine.issuer, mine.provider, mine.providerUid.value) in Keys(mine);
    }
    if row.providerUid.Some? {
      assert AccountKey(row.issuer, row.provider, row.providerUid.value) in Keys(row);
    }
  }

  /** One racer wins: two successful attempts share neither the pair nor the provider account. */
  lemma WinnersAreDisjoint(run: seq<State>, k: nat, a: nat, b: nat)
    requires Run(run) && k < |run| && a < |run[k].attempts| && b < |run[k].attempts| && a != b
    requires Earned(run[k], a) && Earned(run[k], b)
    ensures var r, t := run[k].attempts[a], run[k].attempts[b];
            && r.facts.Some? && t.facts.Some?
            && Keys(NewIdentity(a, r.caller, r.facts.value)) !! Keys(NewIdentity(b, t.caller, t.facts.value))
            && (r.caller.issuer == t.caller.issuer ==>
                  && r.caller.subject != t.caller.subject
                  && (r.facts.value.providerUid.None?
                      || r.facts.value.provider != t.facts.value.provider
                      || r.facts.value.providerUid != t.facts.value.providerUid))
  {
    RunInv(run, k);
    var db, r, t := run[k].db, run[k].attempts[a], run[k].attempts[b];
    assert Keys(db.identities[IdentityId(a)]) == Keys(NewIdentity(a, r.caller, r.facts.value));
    assert Keys(db.identities[IdentityId(b)]) == Keys(NewIdentity(b, t.caller, t.facts.value));
    SharedKeyStands(a, r.caller, r.facts.value, NewIdentity(b, t.caller, t.facts.value));
  }

  lemma LoserConflicts(s: State, a: nat, e: AppError)
    requires Inv(s) && a < |s.attempts| && s.attempts[a].pc == Done(Failure(e)) && FromIdentityRow(e)
    ensures Conflicted(s.db, a, s.attempts[a]) && s.attempts[a].claimed
  {
    assert AttemptOk(s, a);
  }

  lemma ConflictStands(db: Tables, a: nat, t: Attempt)
    requires Conflicted(db, a, t)
    ensures exists i :: i in db.identities && StandsInTheWay(db.identities[i], t.caller, t.facts.value)
  {
    var k :| k in Keys(NewIdentity(a, t.caller, t.facts.value)) && Taken(db, k);
    var i :| i in db.identities && k in Keys(db.identities[i]);
    SharedKeyStands(a, t.caller, t.facts.value, db.identities[i]);
  }

  /** The losing answers are true: an identity-row rejection means a row is committed that has the caller's
      pair or the provider account, and none of it came from the CHECK, which every established fact
      satisfies. */
  lemma LosersReallyConflict(run: seq<State>, k: nat, a: nat, e: AppError)
    requires Run(run) && k < |run| && a < |run[k].attempts|
    requires run[k].attempts[a].pc == Done(Failure(e)) && FromIdentityRow(e)
    ensures Conflicted(run[k].db, a, run[k].attempts[a]) && run[k].attempts[a].claimed
    ensures exists i :: i in run[k].db.identities
                        && StandsInTheWay(run[k].db.identities[i], run[k].attempts[a].caller, run[k].attempts[a].facts.value)
  {
    RunInv(run, k);
    LoserConflicts(run[k], a, e);
    ConflictStands(run[k].db, a, run[k].attempts[a]);
  }

  /** Every row that was not minted by an attempt was there before the event. */
  lemma OnlyMintedAppear(s: State, s': State, e: Event, i: Id)
    requires Inv(s) && Next(s, e) == Some(s') && i in s'.db.identities && i.Legacy?
    ensures i in s.db.identities
  {
    if e.Step? {
      if e.action != CommitSpend {
        OnlyCommitsWrite(s, s', e.a, e.action);
      } else {
        MergeMints(s.db, e.a, s.attempts[e.a].handle, s.attempts[e.a].pending, i);
      }
    }
  }

  lemma SuccessorMints(s: State, s': State, i: Id)
    requires Reachable(s) && Successor(s, s') && i in s'.db.identities && i.Legacy?
    ensures i in s.db.identities
  {
    ReachableInv(s);
    var e :| Next(s, e) == Some(s');
    OnlyMintedAppear(s, s', e, i);
  }

  lemma MergeMints(db: Tables, a: nat, h: Handle, p: Pending, i: Id)
    requires i in Merge(db, a, h, p).identities && i.Legacy?
    ensures i in db.identities
  {}

  lemma RunMints(run: seq<State>, k: nat, i: Id)
    requires Run(run) && 0 < k < |run| && i in run[k].db.identities && i.Legacy?
    ensures i in run[k - 1].db.identities
  {
    RunReaches(run, k - 1);
    assert StepsAt(run, k - 1);
    SuccessorMints(run[k - 1], run[k], i);
  }

  /** A row that no attempt minted was there from the start. */
  lemma {:induction false} LegacyFromTheStart(run: seq<State>, k: nat, i: Id)
    requires Run(run) && k < |run| && i in run[k].db.identities && i.Legacy?
    ensures i in run[0].db.identities
  {
    if k > 0 {
      RunMints(run, k, i);
      LegacyFromTheStart(run, k - 1, i);
    }
  }

  lemma LegacyKeys(run: seq<State>, k: nat, i: Id)
    requires Run(run) && k < |run| && i in run[k].db.identities && i.Legacy?
    ensures i in run[0].db.identities && Keys(run[0].db.identities[i]) == Keys(run[k].db.identities[i])
  {
    LegacyFromTheStart(run, k, i);
    RunLater(run, 0, k);
    assert SameIdentity(run[0].db.identities[i], run[k].db.identities[i]);
  }

  /** The keys an attempt's identity row would take. */
  function KeysOf(t: Attempt): set<UniqueKey>
    requires t.facts.Some?
  {
    Keys(NewIdentity(0, t.caller, t.facts.value))
  }

  lemma MintedIsEarned(s: State, i: Id, key: UniqueKey)
    requires Inv(s) && i in s.db.identities && i.Minted? && key in Keys(s.db.identities[i])
    ensures i.attempt < |s.attempts| && Earned(s, i.attempt) && key in KeysOf(s.attempts[i.attempt])
  {
    var b := i.attempt;
    assert i == IdentityId(b);
    EarnedOrAbsent(s, b);
    assert SameIdentity(NewIdentity(b, s.attempts[b].caller, s.attempts[b].facts.value), s.db.identities[i]);
  }

  lemma LoserHasTakenKey(s: State, a: nat, e: AppError) returns (key: UniqueKey)
    requires Inv(s) && a < |s.attempts| && s.attempts[a].pc == Done(Failure(e)) && FromIdentityRow(e)
    ensures s.attempts[a].facts.Some? && key in KeysOf(s.attempts[a]) && Taken(s.db, key) && Absent(s.db, a)
  {
    assert AttemptOk(s, a);
    key :| key in Keys(NewIdentity(a, s.attempts[a].caller, s.attempts[a].facts.value)) && Taken(s.db, key);
  }

  lemma TakenIsEarned(run: seq<State>, k: nat, key: UniqueKey) returns (b: nat)
    requires Run(run) && k < |run| && Taken(run[k].db, key) && !Taken(run[0].db, key)
    ensures b < |run[k].attempts| && Earned(run[k], b) && key in KeysOf(run[k].attempts[b])
  {
    RunInv(run, k);
    var i :| i in run[k].db.identities && key in Keys(run[k].db.identities[i]);
    if i.Legacy? {
      LegacyKeys(run, k, i);
      assert false;
    }
    MintedIsEarned(run[k], i, key);
    b := i.attempt;
  }

  lemma AbsentIsNotEarned(s: State, a: nat)
    requires a < |s.attempts| && Absent(s.db, a)
    ensures !Earned(s, a)
  {}

  /** A race has a winner: where nothing held the pair or the provider account from the start, an attempt
      that is answered as already linked, retired or blocked lost to another attempt, which has earned the
      whole account under a key the loser wanted. `WinnersAreDisjoint` says there is one such winner a key. */
  lemma LosersHaveAWinner(run: seq<State>, k: nat, a: nat, e: AppError)
    requires Run(run) && k < |run| && a < |run[k].attempts|
    requires run[k].attempts[a].pc == Done(Failure(e)) && FromIdentityRow(e)
    ensures run[k].attempts[a].facts.Some?
    ensures (forall key :: key in KeysOf(run[k].attempts[a]) ==> !Taken(run[0].db, key)) ==>
              exists b :: 0 <= b < |run[k].attempts| && b != a && Earned(run[k], b)
                          && !(KeysOf(run[k].attempts[a]) !! KeysOf(run[k].attempts[b]))
  {
    RunInv(run, k);
    var key := LoserHasTakenKey(run[k], a, e);
    if !Taken(run[0].db, key) {
      var b := TakenIsEarned(run, k, key);
      AbsentIsNotEarned(run[k], a);
    }
  }

  /** The claim-loss answers are true: expiry means the attempt's instant was not before the deadline,
      and an already-used answer means another attempt's claim is committed; either way this attempt
      neither claimed nor read the provider. */
  lemma ClaimLossIsTruthful(run: seq<State>, k: nat, a: nat)
    requires Run(run) && k < |run| && a < |run[k].attempts|
    ensures run[k].attempts[a].pc == Done(Failure(ChallengeExpired)) ==>
              && run[k].attempts[a].handle in run[k].issued
              && run[k].attempts[a].now >= run[k].issued[run[k].attempts[a].handle].at + 300_000_000
    ensures run[k].attempts[a].pc == Done(Failure(ChallengeConsumed)) ==>
              && !run[k].attempts[a].claimed && run[k].attempts[a].calls == 0
              && exists b :: 0 <= b < |run[k].attempts| && b != a && run[k].attempts[b].claimed
                             && run[k].attempts[b].handle == run[k].attempts[a].handle
  {
    RunInv(run, k);
    assert AttemptOk(run[k], a);
    if run[k].attempts[a].pc == Done(Failure(ChallengeConsumed)) {
      var b := run[k].owner[run[k].attempts[a].handle];
      assert AttemptOk(run[k], b);
      assert run[k].attempts[b].claimed;
    }
  }

  lemma ConsumeMatches(s: State, a: nat, s': State)
    requires Ready(s, a) && (s.attempts[a].pc.RolledBack? || s.attempts[a].pc.IdentityInserted?)
    requires DoConsume(s, a) == Some(s')
    ensures a < |s'.attempts| && s'.attempts[a].pc.Spent? && s'.attempts[a].pc.matched
    ensures s'.attempts[a].pending.challenge.Some?
  {
    ConsumeMoves(s, s', a);
  }

  /** The consume of an attempt that holds the claim always matches its row: the branch that logs a
      consume that did not match is dead in every reachable state. */
  lemma ConsumeAlwaysMatches(run: seq<State>, k: nat, a: nat, s': State)
    requires Run(run) && k < |run| && a < |run[k].attempts|
    requires Apply(run[k], a, Consume) == Some(s')
    ensures a < |s'.attempts| && s'.attempts[a].pc.Spent? && s'.attempts[a].pc.matched
    ensures s'.attempts[a].pending.challenge.Some?
  {
    RunInv(run, k);
    InvReady(run[k], a);
    ConsumeMatches(run[k], a, s');
  }

  /** Each challenge row, at any moment: exactly one binding arm, consumed only after claimed, claimed
      only before expiry and by a recorded attempt, its subject cleared exactly when consumed. */
  lemma ChallengeLifeCycle(run: seq<State>, k: nat, h: Handle)
    requires Run(run) && k < |run| && h in run[k].db.challenges
    ensures h in run[k].issued
    ensures var row := run[k].db.challenges[h]; var origin := run[k].issued[h];
            && (row.bound.Some? <==> row.preauthIssuer.None?)
            && (row.bound.Some? ==> row.preauthSubject.None?)
            && (row.bound.None? ==> (row.preauthSubject.None? <==> row.consumedAt.Some?))
            && (row.preauthSubject.Some? ==> row.preauthSubject == Some(origin.caller.subject))
            && (row.consumedAt.Some? ==> row.claimedAt.Some?)
            && (row.claimedAt.Some? ==> row.claimedAt.value < origin.at + 300_000_000)
            && (row.claimedAt.Some? <==> exists a :: 0 <= a < |run[k].attempts| && run[k].attempts[a].claimed
                                                     && run[k].attempts[a].handle == h)
  {
    RunInv(run, k);
    var s := run[k];
    assert ChallengeOk(s, h);
    if h in s.owner {
      assert AttemptOk(s, s.owner[h]);
    }
    forall a | 0 <= a < |s.attempts| && s.attempts[a].claimed && s.attempts[a].handle == h
      ensures h in s.owner
    {
      assert AttemptOk(s, a);
    }
  }

  /** A challenge bound to a linked identity never creates an account. */
  lemma LinkedChallengeNeverCreates(run: seq<State>, k: nat, a: nat)
    requires Run(run) && k < |run| && a < |run[k].attempts|
    requires run[k].attempts[a].handle in run[k].issued
    requires run[k].issued[run[k].attempts[a].handle].caller.linked.Some?
    ensures Absent(run[k].db, a)
  {
    RunInv(run, k);
    EarnedOrAbsent(run[k], a);
  }

  /** A caller `resolve` admits stays plausible for ever, so the snapshot a request carries is sound. */
  lemma ResolvedCallerStaysPlausible(t: Tables, t': Tables, issuer: string, subject: string, allowPreauth: bool)
    requires TablesLater(t, t') && Resolve(t, issuer, subject, allowPreauth).Success?
    ensures Plausible(t', Resolve(t, issuer, subject, allowPreauth).value)
  {
    var caller := Resolve(t, issuer, subject, allowPreauth).value;
    if caller.linked.Some? {
      assert SameIdentity(t.identities[caller.linked.value], t'.identities[caller.linked.value]);
    }
  }

  lemma ResolvesTo(t: Tables, i: Id, issuer: string, subject: string, allowPreauth: bool)
    requires Constraints(t) && i in t.identities && HasPair(t.identities[i], issuer, subject)
    ensures t.identities[i].userId in t.users
    ensures Resolve(t, issuer, subject, allowPreauth)
            == (if t.identities[i].state != Active then Failure(HistoricalIdentity)
                else if !t.users[t.identities[i].userId].active then Failure(BlockedUser)
                else Success(Caller(issuer, subject, Some(i))))
  {
    forall j | j in t.identities && HasPair(t.identities[j], issuer, subject)
      ensures j == i
    {
      assert SubjectKey(issuer, subject) in Keys(t.identities[j]) && SubjectKey(issuer, subject) in Keys(t.identities[i]);
    }
  }

  /** The pair in the row, column by column. */
  ghost predicate Names(row: IdentityRow, issuer: string, subject: string) {
    row.issuer == issuer && row.subject == subject
  }

  /** The whole admission matrix for a pair with at most one row: no row is a pre-auth caller where that is
      allowed and is refused where it is not; a row without its user is unresolvable; a retired row and a
      blocked user are refused in that order. */
  lemma ResolveMatrix(t: Tables, issuer: string, subject: string, allowPreauth: bool)
    requires forall i, j ::
               i in t.identities && j in t.identities && Names(t.identities[i], issuer, subject) && Names(t.identities[j], issuer, subject)
               ==> i == j
    ensures (forall i :: i in t.identities ==> !Names(t.identities[i], issuer, subject)) ==>
              Resolve(t, issuer, subject, allowPreauth)
              == if allowPreauth then Success(Caller(issuer, subject, None)) else Failure(PreAuthIdentityNotAllowed)
    ensures forall i :: i in t.identities && Names(t.identities[i], issuer, subject) ==>
              Resolve(t, issuer, subject, allowPreauth)
              == (if t.identities[i].userId !in t.users then Failure(IdentityUnresolvable)
                  else if t.identities[i].state == Historical then Failure(HistoricalIdentity)
                  else if !t.users[t.identities[i].userId].active then Failure(BlockedUser)
                  else Success(Caller(issuer, subject, Some(i))))
  {
    assert forall row: IdentityRow :: HasPair(row, issuer, subject) <==> Names(row, issuer, subject);
  }

  /** After a success the pair never again resolves to an unlinked caller: at every later moment
      `resolve` answers the account's own identity row, or that it was retired or its user blocked. */
  lemma SuccessIsNeverForgotten(run: seq<State>, j: nat, k: nat, a: nat, allowPreauth: bool)
    requires Run(run) && j <= k < |run| && a < |run[j].attempts| && Earned(run[j], a)
    ensures var caller := run[j].attempts[a].caller; var db := run[k].db;
            && UserId(a) in db.users && IdentityId(a) in db.identities
            && Resolve(db, caller.issuer, caller.subject, allowPreauth)
               == (if db.identities[IdentityId(a)].state != Active then Failure(HistoricalIdentity)
                   else if !db.users[UserId(a)].active then Failure(BlockedUser)
                   else Success(Caller(caller.issuer, caller.subject, Some(IdentityId(a)))))
  {
    RunInv(run, k);
    RunLater(run, j, k);
    var caller := run[j].attempts[a].caller;
    assert SameIdentity(run[j].db.identities[IdentityId(a)], run[k].db.identities[IdentityId(a)]);
    ResolvesTo(run[k].db, IdentityId(a), caller.issuer, caller.subject, allowPreauth);
  }

  /** The last state of some run. */
  ghost predicate Reachable(s: State) {
    exists run :: Run(run) && run[|run| - 1] == s
  }

  lemma RunReaches(run: seq<State>, k: nat)
    requires Run(run) && k < |run|
    ensures Reachable(run[k])
  {
    var prefix := run[..k + 1];
    forall j | 0 <= j < |prefix| - 1 ensures StepsAt(prefix, j) {
      assert StepsAt(run, j);
    }
    assert Run(prefix) && prefix[|prefix| - 1] == run[k];
  }

  lemma ReachableInit(s: State)
    requires Init(s)
    ensures Reachable(s)
  {
    assert Run([s]);
  }

  lemma ReachableNext(s: State, s': State, e: Event)
    requires Reachable(s) && Next(s, e) == Some(s')
    ensures Reachable(s')
  {
    var run :| Run(run) && run[|run| - 1] == s;
    var longer := run + [s'];
    assert Successor(s, s');
    forall k | 0 <= k < |longer| - 1 ensures StepsAt(longer, k) {
      if k < |run| - 1 { assert StepsAt(run, k); }
    }
    assert Run(longer) && longer[|longer| - 1] == s';
  }

  lemma ReachableInv(s: State)
    requires Reachable(s)
    ensures Inv(s)
  {
    var run :| Run(run) && run[|run| - 1] == s;
    RunInv(run, |run| - 1);
  }

  lemma ReachableAttempt(s: State, a: nat)
    requires Reachable(s) && a < |s.attempts|
    ensures AttemptOk(s, a)
  {
    ReachableInv(s);
  }

  lemma ReachableOutcome(s: State, a: nat)
    requires Reachable(s) && a < |s.attempts|
    ensures if s.attempts[a].pc.Done? && s.attempts[a].pc.outcome.Success? then Earned(s, a) else Absent(s.db, a)
  {
    ReachableInv(s);
    EarnedOrAbsent(s, a);
  }

  lemma OthersKeepAttempt(s: State, s': State, e: Event, a: nat)
    requires Reachable(s) && Next(s, e) == Some(s') && a < |s.attempts| && !Moves(e, a)
    ensures a < |s'.attempts| && s'.attempts[a] == s.attempts[a]
  {
    ReachableInv(s);
    EventKept(s, s', e);
    assert Rely(s, s', a);
  }
}
