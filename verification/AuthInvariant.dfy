/** The inductive invariant of the account-creation protocol and its preservation, event by event. */
module AuthInvariant {
  import opened Wrappers
  import opened Firebase
  import opened AuthTables
  import opened AuthMachine

  ghost predicate Owns(s: State, a: nat)
    requires a < |s.attempts|
  {
    Holds(s.owner, s.attempts[a].handle, a)
  }

  /** The challenge was issued for account creation and to this very caller. */
  ghost predicate BindingOk(s: State, t: Attempt) {
    && t.handle in s.issued && t.handle in s.db.challenges
    && s.issued[t.handle].operation == CreateUser
    && match s.issued[t.handle].caller.linked
       case Some(i) => t.caller.linked == Some(i)
       case None => s.issued[t.handle].caller.issuer == t.caller.issuer
                    && s.issued[t.handle].caller.subject == t.caller.subject
  }

  /** After the claim commit and before the spend: the row is claimed by this attempt and not consumed. */
  ghost predicate PastClaim(s: State, t: Attempt) {
    && t.claimed && BindingOk(s, t)
    && s.db.challenges[t.handle].claimedAt == Some(t.now)
    && s.db.challenges[t.handle].consumedAt.None?
  }

  /** Some key of the identity row this attempt would insert is already committed. */
  ghost predicate Conflicted(db: Tables, a: nat, t: Attempt) {
    t.facts.Some? && exists k :: k in Keys(NewIdentity(a, t.caller, t.facts.value)) && Taken(db, k)
  }

  predicate FromIdentityRow(e: AppError) {
    e.HistoricalIdentity? || e.BlockedUser? || e.IdentityAlreadyLinked?
  }

  predicate FromProvider(e: AppError) {
    e.UserNotFound? || e.NotLinked? || e.Unavailable?
  }

  predicate FromPrecheck(e: AppError) {
    e.ChallengeNotFound? || e.ChallengeIdentityMismatch? || e.ChallengeOperationMismatch?
  }

  ghost predicate RejectionOk(db: Tables, a: nat, t: Attempt, e: AppError) {
    t.claimed && (FromProvider(e) || (FromIdentityRow(e) && Conflicted(db, a, t)))
  }

  /** The pair is this attempt's to create: nothing committed has it and the attempt is unlinked. */
  ghost predicate Creating(s: State, t: Attempt) {
    PastClaim(s, t) && t.facts.Some? && t.caller.linked.None?
  }

  ghost predicate KeysReserved(s: State, a: nat, row: IdentityRow) {
    forall k :: k in Keys(row) ==> Holds(s.keyLock, k, a) && !Taken(s.db, k)
  }

  /** User and identity rows pending, with the identity's index entries held. */
  ghost predicate AccountPending(s: State, a: nat, t: Attempt)
  {
    && Creating(s, t)
    && t.pending.user == Some(NewUser(t.facts.value, t.now))
    && t.pending.identity == Some(NewIdentity(a, t.caller, t.facts.value))
    && KeysReserved(s, a, NewIdentity(a, t.caller, t.facts.value))
  }

  ghost predicate SpendHeld(s: State, a: nat, t: Attempt) {
    && PastClaim(s, t)
    && Holds(s.rowLock, t.handle, a)
    && t.pending.challenge == Some(ConsumedRow(s.db.challenges[t.handle], t.now))
  }

  /** The challenge of a created account: consumed by this attempt, in time, with its subject cleared. */
  ghost predicate SpentBy(s: State, t: Attempt) {
    && t.claimed && BindingOk(s, t)
    && s.issued[t.handle].caller.linked.None?
    && s.db.challenges[t.handle].claimedAt == Some(t.now)
    && s.db.challenges[t.handle].consumedAt == Some(t.now)
  }

  ghost predicate OutcomeOk(s: State, a: nat, t: Attempt, outcome: Result<Provider, AppError>) {
    match outcome
    case Success(p) => SpentBy(s, t) && t.caller.linked.None? && t.facts.Some? && p == t.facts.value.provider
    case Failure(ChallengeExpired) =>
      !t.claimed && t.handle in s.issued && t.now >= s.issued[t.handle].at + CHALLENGE_TTL
    case Failure(ChallengeConsumed) => t.handle in s.owner && s.owner[t.handle] != a
    case Failure(e) =>
      (FromPrecheck(e) && !t.claimed) || RejectionOk(s.db, a, t, e)
  }

  ghost predicate PcOk(s: State, a: nat)
    requires a < |s.attempts|
  {
    var t := s.attempts[a];
    match t.pc
    case Start => !t.claimed && t.pending == NOTHING
    case Bound => !t.claimed && t.pending == NOTHING && BindingOk(s, t)
    case ClaimPending =>
      && !t.claimed && BindingOk(s, t) && Holds(s.rowLock, t.handle, a)
      && Claimable(s.db.challenges[t.handle], t.now)
      && t.pending == NOTHING.(challenge := Some(ClaimedRow(s.db.challenges[t.handle], t.now)))
    case ClaimLost =>
      && !t.claimed && t.pending == NOTHING && BindingOk(s, t)
      && !Claimable(s.db.challenges[t.handle], t.now)
    case Reading(failures) => PastClaim(s, t) && t.pending == NOTHING && failures == t.calls < LOOKUP_ATTEMPTS
    case HaveFacts => PastClaim(s, t) && t.pending == NOTHING && t.facts.Some?
    case Existing(_) => PastClaim(s, t) && t.pending == NOTHING && Conflicted(s.db, a, t)
    case Unlinked => Creating(s, t) && t.pending == NOTHING
    case UserInserted => Creating(s, t) && t.pending == NOTHING.(user := Some(NewUser(t.facts.value, t.now)))
    case IdentityInserted => AccountPending(s, a, t) && t.pending.challenge.None?
    case Failing(e) => PastClaim(s, t) && RejectionOk(s.db, a, t, e)
    case RolledBack(e) => PastClaim(s, t) && RejectionOk(s.db, a, t, e) && t.pending == NOTHING
    case Spent(outcome, matched) =>
      && matched && SpendHeld(s, a, t)
      && (match outcome
          case Success(p) =>
            AccountPending(s, a, t) && t.pending.tokens == {AppleStore, GooglePlay} && p == t.facts.value.provider
          case Failure(e) => RejectionOk(s.db, a, t, e) && t.pending == NOTHING.(challenge := t.pending.challenge))
    case Done(outcome) => t.pending == NOTHING && OutcomeOk(s, a, t, outcome)
    case Dead => t.pending == NOTHING
  }

  /** The four rows of attempt `a`'s account, every one of them committed. */
  ghost predicate Whole(db: Tables, a: nat, t: Attempt) {
    && t.facts.Some?
    && UserId(a) in db.users
    && db.users[UserId(a)] == NewUser(t.facts.value, t.now).(active := db.users[UserId(a)].active)
    && IdentityId(a) in db.identities
    && SameIdentity(NewIdentity(a, t.caller, t.facts.value), db.identities[IdentityId(a)])
    && forall store: PurchaseProvider :: (UserId(a), store) in db.tokens
                                         && db.tokens[(UserId(a), store)] == TokenValue(a, store)
  }

  /** None of them. */
  ghost predicate Absent(db: Tables, a: nat) {
    && UserId(a) !in db.users
    && IdentityId(a) !in db.identities
    && forall store: PurchaseProvider :: (UserId(a), store) !in db.tokens
  }

  ghost predicate AttemptOk(s: State, a: nat)
    requires a < |s.attempts|
  {
    var t := s.attempts[a];
    && (t.claimed <==> Owns(s, a))
    && Plausible(s.db, t.caller)
    && t.calls <= LOOKUP_ATTEMPTS && (t.calls > 0 ==> t.claimed)
    && (t.facts.Some? ==> ProviderRule(t.facts.value.provider, t.facts.value.providerUid))
    && (if t.pc.Done? && t.pc.outcome.Success? then Whole(s.db, a, t) else Absent(s.db, a))
    && PcOk(s, a)
  }

  ghost predicate ChallengeOk(s: State, h: Handle)
    requires h in s.db.challenges
  {
    var row := s.db.challenges[h];
    && h in s.issued
    && row == NewChallenge(s.issued[h].operation, s.issued[h].caller, s.issued[h].at)
              .(claimedAt := row.claimedAt, consumedAt := row.consumedAt, preauthSubject := row.preauthSubject)
    && row.preauthSubject == (if row.consumedAt.Some? || s.issued[h].caller.linked.Some? then None
                              else Some(s.issued[h].caller.subject))
    && (row.consumedAt.Some? ==> row.claimedAt.Some?)
    && (row.claimedAt.Some? ==> row.claimedAt.value < row.expiresAt)
    && (row.claimedAt.Some? <==> h in s.owner)
  }

  ghost predicate HistoryOk(s: State) {
    && (forall h :: h in s.issued <==> h in s.db.challenges)
    && (forall h :: h in s.owner ==>
                      && h in s.issued && s.owner[h] < |s.attempts|
                      && s.attempts[s.owner[h]].handle == h)
  }

  ghost predicate LocksOk(s: State) {
    && (forall h :: h in s.rowLock ==> s.rowLock[h] < |s.attempts|)
    && (forall k :: k in s.keyLock ==> s.keyLock[k] < |s.attempts|)
  }

  /** An identifier minted by an attempt exists only if the attempt does, in the slot it was minted for. */
  ghost predicate MintedOk(s: State) {
    && (forall u :: u in s.db.users && u.Minted? ==> u.attempt < |s.attempts| && u.slot == 0)
    && (forall i :: i in s.db.identities && i.Minted? ==> i.attempt < |s.attempts| && i.slot == 1)
    && (forall x :: x in s.db.tokens && s.db.tokens[x].Minted? ==> x.0 == UserId(s.db.tokens[x].attempt))
  }

  ghost predicate Inv(s: State) {
    && Constraints(s.db)
    && HistoryOk(s) && LocksOk(s) && MintedOk(s)
    && (forall h :: h in s.db.challenges ==> ChallengeOk(s, h))
    && (forall a :: 0 <= a < |s.attempts| ==> AttemptOk(s, a))
  }

  /** Everything the rest of the system may do to attempt `a` between two of its own steps. */
  ghost predicate Rely(s: State, s': State, a: nat)
    requires a < |s.attempts|
  {
    var t := s.attempts[a];
    && |s.attempts| <= |s'.attempts| && s'.attempts[a] == t
    && TablesLater(s.db, s'.db)
    && (forall h :: h in s.issued ==> h in s'.issued && s'.issued[h] == s.issued[h])
    && (forall h :: h in s.owner ==> h in s'.owner && s'.owner[h] == s.owner[h])
    && (Owns(s', a) ==> Owns(s, a))
    && (Holds(s.rowLock, t.handle, a) ==> Holds(s'.rowLock, t.handle, a))
    && (forall k :: Holds(s.keyLock, k, a) ==> Holds(s'.keyLock, k, a) && (Taken(s'.db, k) ==> Taken(s.db, k)))
    && (t.handle in s.db.challenges && (t.claimed || Holds(s.rowLock, t.handle, a)) ==>
          s'.db.challenges[t.handle] == s.db.challenges[t.handle])
    && (Absent(s.db, a) ==> Absent(s'.db, a))
  }

  lemma TakenStays(t: Tables, t': Tables, k: UniqueKey)
    requires TablesLater(t, t') && Taken(t, k)
    ensures Taken(t', k)
  {
    var i :| i in t.identities && k in Keys(t.identities[i]);
    assert i in t'.identities && SameIdentity(t.identities[i], t'.identities[i]);
    assert Keys(t'.identities[i]) == Keys(t.identities[i]);
  }

  lemma ConflictStays(t: Tables, t': Tables, a: nat, at: Attempt)
    requires TablesLater(t, t')
    ensures Conflicted(t, a, at) ==> Conflicted(t', a, at)
  {
    if Conflicted(t, a, at) {
      var k :| k in Keys(NewIdentity(a, at.caller, at.facts.value)) && Taken(t, k);
      TakenStays(t, t', k);
    }
  }

  lemma RelyKeepsPc(s: State, s': State, a: nat)
    requires a < |s.attempts| && AttemptOk(s, a) && Rely(s, s', a)
    ensures PcOk(s', a)
  {
    var t := s.attempts[a];
    ConflictStays(s.db, s'.db, a, t);
    assert PastClaim(s, t) ==> PastClaim(s', t);
    if t.pc.IdentityInserted? || (t.pc.Spent? && t.pc.outcome.Success?) {
      assert KeysReserved(s', a, NewIdentity(a, t.caller, t.facts.value));
    }
  }

  lemma RelyKeepsRows(s: State, s': State, a: nat)
    requires a < |s.attempts| && AttemptOk(s, a) && Rely(s, s', a)
    ensures Plausible(s'.db, s.attempts[a].caller)
    ensures Whole(s.db, a, s.attempts[a]) ==> Whole(s'.db, a, s.attempts[a])
  {}

  /** The invariant of an attempt survives whatever the rest of the system does. */
  lemma RelyKeepsAttempt(s: State, s': State, a: nat)
    requires a < |s.attempts| && AttemptOk(s, a) && Rely(s, s', a)
    ensures AttemptOk(s', a)
  {
    RelyKeepsPc(s, s', a);
    RelyKeepsRows(s, s', a);
  }
}
