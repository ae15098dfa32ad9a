/** An undisturbed completion: the protocol run alone ends exactly as the sequential reading of its code. */
module AuthRuns {
  import opened Wrappers
  import opened Firebase
  import opened AuthTables
  import opened AuthMachine
  import opened AuthInvariant
  import opened AuthTheorems

  ghost predicate OfPair(rows: map<Id, IdentityRow>, i: Id, issuer: string, subject: string) {
    i in rows && HasPair(rows[i], issuer, subject)
  }

  /** What an identity row already there earns. */
  function ExistingAnswer(db: Tables, i: Id): AppError
    requires i in db.identities
  {
    var row := db.identities[i];
    if row.state != Active then HistoricalIdentity
    else if row.userId !in db.users || !db.users[row.userId].active then BlockedUser
    else IdentityAlreadyLinked
  }

  /** What the insert of one caller's account earns on given tables. */
  ghost predicate Creation(db: Tables, caller: Caller, facts: Facts, r: Result<Provider, AppError>) {
    if exists i :: OfPair(db.identities, i, caller.issuer, caller.subject) then
      exists i :: OfPair(db.identities, i, caller.issuer, caller.subject) && r == Failure(ExistingAnswer(db, i))
    else
      r == if facts.providerUid.Some? && Taken(db, AccountKey(caller.issuer, facts.provider, facts.providerUid.value))
           then Failure(IdentityAlreadyLinked) else Success(facts.provider)
  }

  /** The whole completion read as a sequential program: the precedence of its rejections. */
  ghost predicate Verdict(db: Tables, h: Handle, caller: Caller, now: Instant, replies: seq<AdminReply>,
                          r: Result<Provider, AppError>)
    requires |replies| >= LOOKUP_ATTEMPTS
  {
    if h !in db.challenges then r == Failure(ChallengeNotFound)
    else
      var row := db.challenges[h];
      match VerifyBinding(row, caller)
      case Failure(error) => r == Failure(error)
      case Success(_) =>
        if row.operation != CreateUser then r == Failure(ChallengeOperationMismatch)
        else if row.claimedAt.Some? then r == Failure(ChallengeConsumed)
        else if now >= row.expiresAt then r == Failure(ChallengeExpired)
        else Work(db, caller, replies, r)
  }

  /** The answer once the claim is committed. */
  ghost predicate Work(db: Tables, caller: Caller, replies: seq<AdminReply>, r: Result<Provider, AppError>)
    requires |replies| >= LOOKUP_ATTEMPTS
  {
    match LookupOutcome(replies, 0)
    case Failure(error) => r == Failure(error)
    case Success(facts) => Creation(db, caller, facts, r)
  }

  /** Nobody else holds a lock. */
  ghost predicate Alone(s: State, a: nat) {
    && (forall h :: h in s.rowLock ==> s.rowLock[h] == a)
    && (forall k :: k in s.keyLock ==> s.keyLock[k] == a)
  }

  /** Attempt `a`, and what it wrote, is all that may differ; its request is the same. */
  ghost predicate Beside(s: State, s': State, a: nat)
    requires a < |s.attempts|
  {
    && Alone(s', a)
    && |s'.attempts| == |s.attempts| && s'.attempts == s.attempts[a := s'.attempts[a]]
    && s'.attempts[a].caller == s.attempts[a].caller && s'.attempts[a].handle == s.attempts[a].handle
    && s'.attempts[a].now == s.attempts[a].now && s'.issued == s.issued
  }

  lemma Steps(s: State, s': State, a: nat, action: Action)
    requires Reachable(s) && a < |s.attempts| && Apply(s, a, action) == Some(s')
    ensures Reachable(s')
  {
    assert Next(s, Step(a, action)) == Some(s');
    ReachableNext(s, s', Step(a, action));
  }

  lemma Then(s: State, s': State, s'': State, a: nat)
    requires a < |s.attempts| && Beside(s, s', a) && Beside(s', s'', a)
    ensures Beside(s, s'', a)
  {}

  // ----- Single steps, with nobody else's lock in the way -----

  lemma LocateStep(s: State, a: nat) returns (s': State)
    requires a < |s.attempts| && s.attempts[a].pc.Start? && Alone(s, a)
    ensures Apply(s, a, Locate) == Some(s') && Beside(s, s', a) && s'.db == s.db
    ensures s'.attempts[a].pc == AfterLocate(Lookup(s.db, s.attempts[a].handle), s.attempts[a].caller)
  {
    s' := Goto(s, a, AfterLocate(Lookup(s.db, s.attempts[a].handle), s.attempts[a].caller));
  }

  lemma ClaimStep(s: State, a: nat) returns (s': State)
    requires a < |s.attempts| && s.attempts[a].pc.Bound? && Alone(s, a) && s.attempts[a].handle in s.db.challenges
    ensures Apply(s, a, Claim) == Some(s') && Beside(s, s', a) && s'.db == s.db
    ensures s'.attempts[a].pc
            == if Claimable(s.db.challenges[s.attempts[a].handle], s.attempts[a].now) then ClaimPending else ClaimLost
    ensures s'.attempts[a].pc.ClaimPending? ==>
              s'.attempts[a].pending
              == NOTHING.(challenge := Some(s.db.challenges[s.attempts[a].handle].(claimedAt := Some(s.attempts[a].now))))
  {
    var t := s.attempts[a];
    if Claimable(s.db.challenges[t.handle], t.now) {
      var row := ClaimedRow(s.db.challenges[t.handle], t.now);
      s' := Put(s, a, t.(pc := ClaimPending, pending := NOTHING.(challenge := Some(row)))).(rowLock := s.rowLock[t.handle := a]);
    } else {
      s' := Goto(s, a, ClaimLost);
    }
    assert DoClaim(s, a) == Some(s');
  }

  lemma RefreshStep(s: State, a: nat) returns (s': State)
    requires a < |s.attempts| && s.attempts[a].pc.ClaimLost? && Alone(s, a) && s.attempts[a].handle in s.db.challenges
    ensures Apply(s, a, Refresh) == Some(s') && Beside(s, s', a) && s'.db == s.db
    ensures s'.attempts[a].pc == RefreshAnswer(s.db.challenges[s.attempts[a].handle])
  {
    s' := DoRefresh(s, a).value;
  }

  lemma AbandonStep(s: State, a: nat, pc: Pc)
    requires a < |s.attempts| && Alone(s, a)
    ensures Beside(s, Abandon(s, a, pc), a)
    ensures Abandon(s, a, pc).attempts[a] == s.attempts[a].(pc := pc, pending := NOTHING)
  {}

  lemma CommitClaimStep(s: State, a: nat) returns (s': State)
    requires a < |s.attempts| && s.attempts[a].pc.ClaimPending? && Alone(s, a)
    ensures Apply(s, a, CommitClaim) == Some(s') && Beside(s, s', a) && s'.attempts[a].pc == Reading(0)
    ensures s'.db == Merge(s.db, a, s.attempts[a].handle, s.attempts[a].pending)
  {
    AbandonStep(s, a, Reading(0));
    s' := DoCommitClaim(s, a).value;
  }

  lemma ReadStep(s: State, a: nat, reply: AdminReply) returns (s': State)
    requires a < |s.attempts| && s.attempts[a].pc.Reading? && Alone(s, a)
    ensures Apply(s, a, ReadProvider(reply)) == Some(s') && Beside(s, s', a) && s'.db == s.db
    ensures match Read(reply)
            case Established(facts) => s'.attempts[a].pc == HaveFacts && s'.attempts[a].facts == Some(facts)
            case Rejected(error) => s'.attempts[a].pc == Failing(error)
            case Retryable =>
              s'.attempts[a].pc == if s.attempts[a].pc.failures + 1 < LOOKUP_ATTEMPTS
                                   then Reading(s.attempts[a].pc.failures + 1) else Failing(Unavailable)
  {
    s' := DoReadProvider(s, a, reply).value;
  }

  lemma FreePair(db: Tables, issuer: string, subject: string)
    ensures Taken(db, SubjectKey(issuer, subject)) <==> exists i :: OfPair(db.identities, i, issuer, subject)
  {
    if Taken(db, SubjectKey(issuer, subject)) {
      var i :| i in db.identities && SubjectKey(issuer, subject) in Keys(db.identities[i]);
      assert OfPair(db.identities, i, issuer, subject);
    }
    if i :| OfPair(db.identities, i, issuer, subject) {
      assert SubjectKey(issuer, subject) in Keys(db.identities[i]);
    }
  }

  lemma UnlinkedStep(s: State, a: nat) returns (s': State)
    requires a < |s.attempts| && s.attempts[a].pc.HaveFacts? && Alone(s, a)
    requires !Taken(s.db, SubjectKey(s.attempts[a].caller.issuer, s.attempts[a].caller.subject))
    ensures Apply(s, a, ResolveExisting(None)) == Some(s') && Beside(s, s', a) && s'.db == s.db
    ensures s'.attempts[a] == s.attempts[a].(pc := Unlinked)
  {
    s' := Goto(s, a, Unlinked);
  }

  lemma LinkedStep(s: State, a: nat, i: Id) returns (s': State)
    requires a < |s.attempts| && s.attempts[a].pc.HaveFacts? && Alone(s, a)
    requires OfPair(s.db.identities, i, s.attempts[a].caller.issuer, s.attempts[a].caller.subject)
    ensures Apply(s, a, ResolveExisting(Some(i))) == Some(s') && Beside(s, s', a) && s'.db == s.db
    ensures s'.attempts[a] == s.attempts[a].(pc := if s.db.identities[i].state != Active then Failing(HistoricalIdentity)
                                                   else Existing(s.db.identities[i].userId))
  {
    s' := Goto(s, a, if s.db.identities[i].state != Active then Failing(HistoricalIdentity)
                     else Existing(s.db.identities[i].userId));
    assert DoResolveExisting(s, a, Some(i)) == Some(s');
  }

  lemma ReadUserStep(s: State, a: nat, i: Id) returns (s': State)
    requires a < |s.attempts| && Alone(s, a) && i in s.db.identities && s.db.identities[i].state == Active
    requires s.attempts[a].pc == Existing(s.db.identities[i].userId)
    ensures Apply(s, a, ReadUser) == Some(s') && Beside(s, s', a) && s'.db == s.db
    ensures s'.attempts[a] == s.attempts[a].(pc := Failing(ExistingAnswer(s.db, i)))
  {
    s' := Goto(s, a, Failing(ExistingAnswer(s.db, i)));
    assert DoReadUser(s, a) == Some(s');
  }

  lemma InsertUserStep(s: State, a: nat) returns (s': State)
    requires a < |s.attempts| && s.attempts[a].pc.Unlinked? && s.attempts[a].facts.Some? && Alone(s, a)
    requires s.attempts[a].pending.tokens == {}
    ensures Apply(s, a, InsertUser) == Some(s') && Beside(s, s', a) && s'.db == s.db
    ensures s'.attempts[a].pc == UserInserted && s'.attempts[a].facts == s.attempts[a].facts
    ensures s'.attempts[a].pending.tokens == {}
  {
    s' := DoInsertUser(s, a).value;
  }

  predicate AccountTaken(db: Tables, caller: Caller, f: Facts) {
    f.providerUid.Some? && Taken(db, AccountKey(caller.issuer, f.provider, f.providerUid.value))
  }

  lemma InsertIdentityStep(s: State, a: nat) returns (s': State)
    requires a < |s.attempts| && s.attempts[a].pc.UserInserted? && s.attempts[a].facts.Some? && Alone(s, a)
    requires !Taken(s.db, SubjectKey(s.attempts[a].caller.issuer, s.attempts[a].caller.subject))
    requires ProviderRule(s.attempts[a].facts.value.provider, s.attempts[a].facts.value.providerUid)
    requires s.attempts[a].pending.tokens == {}
    ensures Apply(s, a, InsertIdentity) == Some(s') && Beside(s, s', a) && s'.db == s.db
    ensures s'.attempts[a].facts == s.attempts[a].facts && s'.attempts[a].pending.tokens == {}
    ensures s'.attempts[a].pc == if AccountTaken(s.db, s.attempts[a].caller, s.attempts[a].facts.value)
                                 then Failing(IdentityAlreadyLinked) else IdentityInserted
  {
    var t := s.attempts[a];
    var row := NewIdentity(a, t.caller, t.facts.value);
    if AccountTaken(s.db, t.caller, t.facts.value) {
      assert AccountKey(row.issuer, row.provider, row.providerUid.value) in Keys(row);
      s' := Goto(s, a, Failing(IdentityAlreadyLinked));
    } else {
      assert forall k :: k in Keys(row) ==> !Taken(s.db, k);
      s' := Put(s, a, t.(pc := IdentityInserted, pending := t.pending.(identity := Some(row))))
            .(keyLock := Acquire(s.keyLock, Keys(row), a));
    }
    assert DoInsertIdentity(s, a) == Some(s');
  }

  lemma TokenStep(s: State, a: nat, store: PurchaseProvider) returns (s': State)
    requires a < |s.attempts| && s.attempts[a].pc.IdentityInserted? && Alone(s, a)
    requires store !in s.attempts[a].pending.tokens
    ensures Apply(s, a, InsertToken(store)) == Some(s') && Beside(s, s', a) && s'.db == s.db
    ensures s'.attempts[a].pc == IdentityInserted && s'.attempts[a].facts == s.attempts[a].facts
    ensures s'.attempts[a].pending.tokens == s.attempts[a].pending.tokens + {store}
  {
    s' := DoInsertToken(s, a, store).value;
  }

  function SpendAnswer(t: Attempt): Result<Provider, AppError>
    requires t.pc.RolledBack? || t.facts.Some?
  {
    if t.pc.RolledBack? then Failure(t.pc.error) else Success(t.facts.value.provider)
  }

  lemma ConsumeStep(s: State, a: nat) returns (s': State)
    requires a < |s.attempts| && Alone(s, a) && s.attempts[a].handle in s.db.challenges
    requires s.attempts[a].pc.RolledBack?
             || (s.attempts[a].pc.IdentityInserted? && s.attempts[a].facts.Some?
                 && s.attempts[a].pending.tokens == {AppleStore, GooglePlay})
    ensures Apply(s, a, Consume) == Some(s') && Beside(s, s', a) && s'.db == s.db
    ensures s'.attempts[a].pc.Spent? && s'.attempts[a].pc.outcome == SpendAnswer(s.attempts[a])
    ensures var row := s.db.challenges[s.attempts[a].handle];
            Consumable(row) ==>
              s'.attempts[a].pending
              == s.attempts[a].pending.(challenge := Some(row.(consumedAt := Some(s.attempts[a].now), preauthSubject := None)))
  {
    var t := s.attempts[a];
    var row := s.db.challenges[t.handle];
    if Consumable(row) {
      s' := Put(s, a, t.(pc := Spent(SpendAnswer(t), true), pending := t.pending.(challenge := Some(ConsumedRow(row, t.now)))))
            .(rowLock := s.rowLock[t.handle := a]);
    } else {
      s' := Goto(s, a, Spent(SpendAnswer(t), false));
    }
    assert DoConsume(s, a) == Some(s');
  }

  lemma CommitSpendStep(s: State, a: nat) returns (s': State)
    requires a < |s.attempts| && Alone(s, a) && s.attempts[a].pc.Spent?
    ensures Apply(s, a, CommitSpend) == Some(s') && Beside(s, s', a)
    ensures s'.attempts[a].pc == Done(s.attempts[a].pc.outcome)
    ensures s'.db == Merge(s.db, a, s.attempts[a].handle, s.attempts[a].pending)
  {
    AbandonStep(s, a, Done(s.attempts[a].pc.outcome));
    s' := Commit(s, a, Done(s.attempts[a].pc.outcome));
  }

  // ----- The completion from them -----

  /** A commit of one challenge row writes that row and nothing else. */
  lemma MergeOneRow(db: Tables, a: nat, h: Handle, row: ChallengeRow)
    ensures Merge(db, a, h, NOTHING.(challenge := Some(row))) == db.(challenges := db.challenges[h := row])
  {
    assert TokenRows(a, {}) == map[];
    assert db.tokens + map[] == db.tokens;
  }

  /** The claim won and committed, or lost and answered. */
  lemma SoloClaim(s: State, a: nat) returns (s': State)
    requires Reachable(s) && a < |s.attempts| && s.attempts[a].pc.Bound? && Alone(s, a)
    requires s.attempts[a].handle in s.db.challenges
    ensures Reachable(s') && Beside(s, s', a)
    ensures var h, now := s.attempts[a].handle, s.attempts[a].now;
            var row := s.db.challenges[h];
            if Claimable(row, now) then
              && s'.attempts[a].pc == Reading(0)
              && s'.db == s.db.(challenges := s.db.challenges[h := row.(claimedAt := Some(now))])
            else s'.attempts[a].pc == RefreshAnswer(row) && s'.db == s.db
  {
    var s1 := ClaimStep(s, a);
    Steps(s, s1, a, Claim);
    if s1.attempts[a].pc.ClaimPending? {
      s' := CommitClaimStep(s1, a);
      Steps(s1, s', a, CommitClaim);
      MergeOneRow(s.db, a, s.attempts[a].handle, s1.attempts[a].pending.challenge.value);
    } else {
      s' := RefreshStep(s1, a);
      Steps(s1, s', a, Refresh);
    }
    Then(s, s1, s', a);
  }

  /** The reads: facts, or the rejection they earned. */
  lemma {:induction false} SoloRead(s: State, a: nat, replies: seq<AdminReply>) returns (s': State)
    requires Reachable(s) && a < |s.attempts| && s.attempts[a].pc.Reading? && Alone(s, a)
    requires s.attempts[a].pc.failures < LOOKUP_ATTEMPTS <= |replies|
    ensures Reachable(s') && Beside(s, s', a) && s'.db == s.db
    ensures match LookupOutcome(replies, s.attempts[a].pc.failures)
            case Success(facts) => s'.attempts[a].pc == HaveFacts && s'.attempts[a].facts == Some(facts)
            case Failure(e) => s'.attempts[a].pc == Failing(e)
    decreases LOOKUP_ATTEMPTS - s.attempts[a].pc.failures
  {
    var reply := replies[s.attempts[a].pc.failures];
    var s1 := ReadStep(s, a, reply);
    Steps(s, s1, a, ReadProvider(reply));
    if s1.attempts[a].pc.Reading? {
      s' := SoloRead(s1, a, replies);
      Then(s, s1, s', a);
    } else {
      s' := s1;
    }
  }

  /** `create_user`: the account pending in full, or the rejection it earned. */
  ghost predicate Created(db: Tables, t: Attempt, r: Result<Provider, AppError>) {
    && t.facts.Some?
    && Creation(db, t.caller, t.facts.value, r)
    && match r
       case Success(p) => t.pc == IdentityInserted && t.pending.tokens == {AppleStore, GooglePlay} && p == t.facts.value.provider
       case Failure(e) => t.pc == Failing(e)
  }

  lemma SoloCreate(s: State, a: nat) returns (s': State, r: Result<Provider, AppError>)
    requires Reachable(s) && a < |s.attempts| && s.attempts[a].pc.HaveFacts? && s.attempts[a].facts.Some? && Alone(s, a)
    ensures Reachable(s') && Beside(s, s', a) && s'.db == s.db
    ensures s'.attempts[a].facts == s.attempts[a].facts && Created(s.db, s'.attempts[a], r)
  {
    var caller := s.attempts[a].caller;
    FreePair(s.db, caller.issuer, caller.subject);
    if i :| OfPair(s.db.identities, i, caller.issuer, caller.subject) {
      s' := SoloExisting(s, a, i);
      r := Failure(ExistingAnswer(s.db, i));
    } else {
      var s1 := UnlinkedStep(s, a);
      Steps(s, s1, a, ResolveExisting(None));
      s', r := SoloInsert(s1, a);
      Then(s, s1, s', a);
    }
  }

  lemma SoloExisting(s: State, a: nat, i: Id) returns (s': State)
    requires Reachable(s) && a < |s.attempts| && s.attempts[a].pc.HaveFacts? && Alone(s, a)
    requires OfPair(s.db.identities, i, s.attempts[a].caller.issuer, s.attempts[a].caller.subject)
    ensures Reachable(s') && Beside(s, s', a) && s'.db == s.db && s'.attempts[a].facts == s.attempts[a].facts
    ensures s'.attempts[a].pc == Failing(ExistingAnswer(s.db, i))
  {
    var s1 := LinkedStep(s, a, i);
    Steps(s, s1, a, ResolveExisting(Some(i)));
    if s1.attempts[a].pc.Failing? {
      s' := s1;
    } else {
      s' := ReadUserStep(s1, a, i);
      Steps(s1, s', a, ReadUser);
      Then(s, s1, s', a);
    }
  }

  lemma SoloInsert(s: State, a: nat) returns (s': State, r: Result<Provider, AppError>)
    requires Reachable(s) && a < |s.attempts| && s.attempts[a].pc.Unlinked? && s.attempts[a].facts.Some? && Alone(s, a)
    requires !Taken(s.db, SubjectKey(s.attempts[a].caller.issuer, s.attempts[a].caller.subject))
    ensures Reachable(s') && Beside(s, s', a) && s'.db == s.db
    ensures s'.attempts[a].facts == s.attempts[a].facts && Created(s.db, s'.attempts[a], r)
  {
    ReachableAttempt(s, a);
    FreePair(s.db, s.attempts[a].caller.issuer, s.attempts[a].caller.subject);
    var s1 := InsertUserStep(s, a);
    Steps(s, s1, a, InsertUser);
    var s2 := InsertIdentityStep(s1, a);
    Steps(s1, s2, a, InsertIdentity);
    Then(s, s1, s2, a);
    if s2.attempts[a].pc.IdentityInserted? {
      s' := SoloTokens(s2, a);
      Then(s, s2, s', a);
      r := Success(s.attempts[a].facts.value.provider);
    } else {
      s', r := s2, Failure(IdentityAlreadyLinked);
    }
  }

  lemma SoloTokens(s: State, a: nat) returns (s': State)
    requires Reachable(s) && a < |s.attempts| && s.attempts[a].pc.IdentityInserted? && Alone(s, a)
    requires s.attempts[a].pending.tokens == {}
    ensures Reachable(s') && Beside(s, s', a) && s'.db == s.db
    ensures s'.attempts[a].facts == s.attempts[a].facts
    ensures s'.attempts[a].pc == IdentityInserted && s'.attempts[a].pending.tokens == {AppleStore, GooglePlay}
  {
    var s1 := TokenStep(s, a, AppleStore);
    Steps(s, s1, a, InsertToken(AppleStore));
    s' := TokenStep(s1, a, GooglePlay);
    Steps(s1, s', a, InsertToken(GooglePlay));
    Then(s, s1, s', a);
  }

  lemma HandleIsThere(s: State, a: nat)
    requires Reachable(s) && a < |s.attempts| && (s.attempts[a].pc.RolledBack? || s.attempts[a].pc.IdentityInserted?)
    ensures s.attempts[a].handle in s.db.challenges && Consumable(s.db.challenges[s.attempts[a].handle])
    ensures s.attempts[a].pc.RolledBack? ==> s.attempts[a].pending == NOTHING
  {
    ReachableAttempt(s, a);
  }

  /** The challenge is spent at `now` with its subject cleared, and if `only`, that is all that was written. */
  ghost predicate Spends(db: Tables, db': Tables, h: Handle, now: Instant, only: bool) {
    && h in db.challenges
    && db'.challenges == db.challenges[h := db.challenges[h].(consumedAt := Some(now), preauthSubject := None)]
    && (only ==> db'.users == db.users && db'.identities == db.identities && db'.tokens == db.tokens)
  }

  lemma MergeSpends(db: Tables, a: nat, h: Handle, now: Instant, p: Pending)
    requires h in db.challenges
    requires p.challenge == Some(db.challenges[h].(consumedAt := Some(now), preauthSubject := None))
    ensures Spends(db, Merge(db, a, h, p), h, now, p == NOTHING.(challenge := p.challenge))
  {
    MergeOneRow(db, a, h, p.challenge.value);
  }

  /** The spend, after a complete insert or after the rollback of a rejection, which it leaves as the only
      trace. */
  lemma SoloSpend(s: State, a: nat) returns (s': State)
    requires Reachable(s) && a < |s.attempts| && Alone(s, a)
    requires s.attempts[a].pc.RolledBack?
             || (s.attempts[a].pc.IdentityInserted? && s.attempts[a].facts.Some?
                 && s.attempts[a].pending.tokens == {AppleStore, GooglePlay})
    ensures Reachable(s') && Beside(s, s', a) && s'.attempts[a].pc == Done(SpendAnswer(s.attempts[a]))
    ensures Spends(s.db, s'.db, s.attempts[a].handle, s.attempts[a].now, s.attempts[a].pc.RolledBack?)
  {
    HandleIsThere(s, a);
    var s1 := ConsumeStep(s, a);
    Steps(s, s1, a, Consume);
    s' := CommitSpendStep(s1, a);
    Steps(s1, s', a, CommitSpend);
    Then(s, s1, s', a);
    MergeSpends(s.db, a, s.attempts[a].handle, s.attempts[a].now, s1.attempts[a].pending);
  }

  lemma SoloReject(s: State, a: nat) returns (s': State)
    requires Reachable(s) && a < |s.attempts| && Alone(s, a) && s.attempts[a].pc.Failing?
    ensures Reachable(s') && Beside(s, s', a) && s'.attempts[a].pc == Done(Failure(s.attempts[a].pc.error))
    ensures Spends(s.db, s'.db, s.attempts[a].handle, s.attempts[a].now, true)
  {
    var s1 := Abandon(s, a, RolledBack(s.attempts[a].pc.error));
    AbandonStep(s, a, RolledBack(s.attempts[a].pc.error));
    Steps(s, s1, a, Rollback);
    s' := SoloSpend(s1, a);
    Then(s, s1, s', a);
  }

  /** From the claim on. */
  lemma SoloWork(s: State, a: nat, replies: seq<AdminReply>) returns (s': State, r: Result<Provider, AppError>)
    requires Reachable(s) && a < |s.attempts| && Alone(s, a) && s.attempts[a].pc == Reading(0)
    requires |replies| >= LOOKUP_ATTEMPTS
    ensures Reachable(s') && Beside(s, s', a) && s'.attempts[a].pc == Done(r)
    ensures Work(s.db, s.attempts[a].caller, replies, r)
    ensures Spends(s.db, s'.db, s.attempts[a].handle, s.attempts[a].now, r.Failure?)
  {
    var s1 := SoloRead(s, a, replies);
    var s2 := s1;
    if s1.attempts[a].pc.Failing? {
      r := Failure(s1.attempts[a].pc.error);
    } else {
      s2, r := SoloCreate(s1, a);
      Then(s, s1, s2, a);
    }
    if s2.attempts[a].pc.Failing? {
      s' := SoloReject(s2, a);
    } else {
      s' := SoloSpend(s2, a);
    }
    Then(s, s2, s', a);
  }

  lemma SameWork(db: Tables, db': Tables, caller: Caller, replies: seq<AdminReply>, r: Result<Provider, AppError>)
    requires db' == db.(challenges := db'.challenges) && |replies| >= LOOKUP_ATTEMPTS
    requires Work(db', caller, replies, r)
    ensures Work(db, caller, replies, r)
  {
    forall k ensures Taken(db', k) <==> Taken(db, k) {}
    forall i | i in db.identities ensures ExistingAnswer(db', i) == ExistingAnswer(db, i) {}
  }

  /** What a completion writes, by its answer: nothing at all when it is turned away before its claim; its
      challenge claimed and consumed, with the subject cleared, otherwise; and besides that nothing when it is
      rejected. */
  ghost predicate Leaves(db: Tables, db': Tables, h: Handle, now: Instant, claims: bool, r: Result<Provider, AppError>) {
    if claims then
      && h in db.challenges
      && db'.challenges == db.challenges[h := db.challenges[h].(claimedAt := Some(now), consumedAt := Some(now), preauthSubject := None)]
      && (r.Failure? ==> db'.users == db.users && db'.identities == db.identities && db'.tokens == db.tokens)
    else db' == db
  }

  /** Who gets to claim: the presenter of a live create_user challenge. */
  predicate Claims(db: Tables, h: Handle, caller: Caller, now: Instant) {
    && h in db.challenges && VerifyBinding(db.challenges[h], caller).Success?
    && db.challenges[h].operation == CreateUser
    && db.challenges[h].claimedAt.None? && now < db.challenges[h].expiresAt
  }

  lemma SoloProtocol(s: State, a: nat, replies: seq<AdminReply>) returns (s': State, r: Result<Provider, AppError>)
    requires Reachable(s) && a < |s.attempts| && s.attempts[a].pc.Start? && Alone(s, a)
    requires |replies| >= LOOKUP_ATTEMPTS
    ensures Reachable(s') && Beside(s, s', a) && s'.attempts[a].pc == Done(r)
    ensures Verdict(s.db, s.attempts[a].handle, s.attempts[a].caller, s.attempts[a].now, replies, r)
    ensures var t := s.attempts[a]; Leaves(s.db, s'.db, t.handle, t.now, Claims(s.db, t.handle, t.caller, t.now), r)
  {
    var s1 := LocateStep(s, a);
    Steps(s, s1, a, Locate);
    if s1.attempts[a].pc.Bound? {
      s', r := SoloBound(s1, a, replies);
      Then(s, s1, s', a);
    } else {
      s', r := s1, s1.attempts[a].pc.outcome;
    }
  }

  lemma SpendsAfterClaim(db: Tables, db': Tables, db'': Tables, h: Handle, now: Instant, r: Result<Provider, AppError>)
    requires h in db.challenges && db' == db.(challenges := db.challenges[h := db.challenges[h].(claimedAt := Some(now))])
    requires Spends(db', db'', h, now, r.Failure?)
    ensures Leaves(db, db'', h, now, true, r)
  {}

  lemma SoloBound(s: State, a: nat, replies: seq<AdminReply>) returns (s': State, r: Result<Provider, AppError>)
    requires Reachable(s) && a < |s.attempts| && s.attempts[a].pc.Bound? && Alone(s, a)
    requires s.attempts[a].handle in s.db.challenges && |replies| >= LOOKUP_ATTEMPTS
    ensures Reachable(s') && Beside(s, s', a) && s'.attempts[a].pc == Done(r)
    ensures var row := s.db.challenges[s.attempts[a].handle];
            && Leaves(s.db, s'.db, s.attempts[a].handle, s.attempts[a].now,
                      row.claimedAt.None? && s.attempts[a].now < row.expiresAt, r)
            && (if row.claimedAt.Some? then r == Failure(ChallengeConsumed)
                else if s.attempts[a].now >= row.expiresAt then r == Failure(ChallengeExpired)
                else Work(s.db, s.attempts[a].caller, replies, r))
  {
    var s1 := SoloClaim(s, a);
    if s1.attempts[a].pc.Reading? {
      s', r := SoloWork(s1, a, replies);
      SameWork(s.db, s1.db, s.attempts[a].caller, replies, r);
      SpendsAfterClaim(s.db, s1.db, s'.db, s.attempts[a].handle, s.attempts[a].now, r);
      Then(s, s1, s', a);
    } else {
      s', r := s1, s1.attempts[a].pc.outcome;
    }
  }

  /** Run alone, a completion ends, with the answer of the sequential reading on the tables it found:
      every rejection in its order of precedence with no row of an account, and a success with all. Before the
      claim it leaves no trace, and after it a spent challenge, whatever the answer. */
  lemma SoloComplete(s: State, a: nat, replies: seq<AdminReply>) returns (s': State, r: Result<Provider, AppError>)
    requires Reachable(s) && a < |s.attempts| && s.attempts[a].pc.Start? && Alone(s, a)
    requires |replies| >= LOOKUP_ATTEMPTS
    ensures Reachable(s') && Beside(s, s', a) && s'.attempts[a].pc == Done(r)
    ensures Verdict(s.db, s.attempts[a].handle, s.attempts[a].caller, s.attempts[a].now, replies, r)
    ensures var t := s.attempts[a]; Leaves(s.db, s'.db, t.handle, t.now, Claims(s.db, t.handle, t.caller, t.now), r)
    ensures if r.Success? then Earned(s', a) else Absent(s'.db, a)
  {
    s', r := SoloProtocol(s, a, replies);
    ReachableOutcome(s', a);
  }
}
