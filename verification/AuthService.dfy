/** The completion as structured code over a shared database: every statement lets the rest of the
    system run first, may fail, and is one step of the transition system. */
module AuthService {
  import opened Wrappers
  import opened Firebase
  import opened AuthTables
  import opened AuthMachine
  import opened AuthInvariant
  import opened AuthSteps
  import opened AuthTheorems

  /** What a call ends in: a value, a rejection the client is owed, or any other exception. */
  datatype Outcome<+T> = Ok(value: T) | App(error: AppError) | Raised

  class Database {
    var s: State

    constructor (s: State)
      requires Init(s)
      ensures this.s == s && Reachable(s)
    {
      this.s := s;
      ReachableInit(s);
    }

    /** Any number of events of anybody else; none of them touches attempt `me`. */
    method OthersRun(me: nat)
      requires Reachable(s) && me < |s.attempts|
      modifies this
      ensures Reachable(s) && me < |s.attempts| && s.attempts[me] == old(s.attempts[me])
    {
      var n: nat := *;
      while n > 0
        invariant Reachable(s) && me < |s.attempts| && s.attempts[me] == old(s.attempts[me])
      {
        var e: Event := *;
        var next := Next(s, e);
        if next.Some? && !Moves(e, me) {
          ReachableNext(s, next.value, e);
          OthersKeepAttempt(s, next.value, e, me);
          s := next.value;
        }
        n := n - 1;
      }
    }

    method Do(me: nat, action: Action)
      requires Reachable(s) && me < |s.attempts| && Apply(s, me, action).Some?
      modifies this
      ensures Some(s) == Apply(old(s), me, action)
      ensures Reachable(s)
    {
      var next := Apply(s, me, action).value;
      ReachableNext(s, next, Step(me, action));
      s := next;
    }
  }

  function SpendOutcome(t: Attempt): Result<Provider, AppError> {
    if t.pc.RolledBack? then Failure(t.pc.error)
    else if t.facts.Some? then Success(t.facts.value.provider)
    else Failure(Unavailable)
  }

  /** The claim's WHERE clause holds of the committed row. */
  predicate CanClaim(db: Tables, t: Attempt) {
    t.handle in db.challenges && Claimable(db.challenges[t.handle], t.now)
  }

  /** What an active identity row earns, by its user. */
  function ExistingRejection(db: Tables, user: Id): AppError {
    if user !in db.users || !db.users[user].active then BlockedUser else IdentityAlreadyLinked
  }

  /** What one action means for its own attempt, `db` being the committed tables it leaves. */
  ghost predicate Effect(db: Tables, action: Action, t: Attempt, t': Attempt) {
    && t'.caller == t.caller && t'.handle == t.handle && t'.now == t.now
    && (!action.ReadProvider? ==> t'.facts == t.facts && t'.calls == t.calls)
    && match action
       case Locate => t.pc.Start? && t'.pc == AfterLocate(Lookup(db, t.handle), t.caller)
       case Claim => t.pc.Bound? && t'.pc == if CanClaim(db, t) then ClaimPending else ClaimLost
       case CommitClaim => t.pc.ClaimPending? && t'.pc == Reading(0) && t'.claimed
       case Refresh => t.pc.ClaimLost? && t.handle in db.challenges && t'.pc == RefreshAnswer(db.challenges[t.handle])
       case ReadProvider(reply) =>
         && t.pc.Reading? && t'.calls == t.calls + 1
         && (match Read(reply)
             case Established(f) => t'.pc == HaveFacts && t'.facts == Some(f)
             case Rejected(error) => t'.pc == Failing(error)
             case Retryable => t'.pc == if t.pc.failures + 1 < LOOKUP_ATTEMPTS then Reading(t.pc.failures + 1)
                                        else Failing(Unavailable))
       case ResolveExisting(found) =>
         && t.pc.HaveFacts?
         && (match found
             case None => t'.pc == Unlinked
             case Some(i) =>
               && i in db.identities && HasPair(db.identities[i], t.caller.issuer, t.caller.subject)
               && t'.pc == if db.identities[i].state != Active then Failing(HistoricalIdentity)
                           else Existing(db.identities[i].userId))
       case ReadUser => t.pc.Existing? && t'.pc == Failing(ExistingRejection(db, t.pc.userId))
       case InsertUser => t.pc.Unlinked? && t'.pc == UserInserted
       case InsertIdentity =>
         t.pc.UserInserted? && (t'.pc == Failing(IdentityAlreadyLinked) || (t'.pc == IdentityInserted && t'.pending.tokens == {}))
       case InsertToken(store) =>
         t.pc.IdentityInserted? && t'.pc == IdentityInserted && t'.pending.tokens == t.pending.tokens + {store}
       case Rollback => t.pc.Failing? && t'.pc == RolledBack(t.pc.error)
       case Consume => t'.pc == Spent(SpendOutcome(t), true)
       case CommitSpend => t.pc.Spent? && t'.pc == Done(t.pc.outcome)
       case SpendFails => t'.pc == Done(if t.pc.Spent? then t.pc.outcome else SpendOutcome(t))
       case Crash => t'.pc == Dead
  }

  lemma LocateEffect(s: State, s': State, a: nat)
    requires a < |s.attempts| && Apply(s, a, Locate) == Some(s')
    ensures a < |s'.attempts| && Effect(s'.db, Locate, s.attempts[a], s'.attempts[a])
  {
    assert s.attempts[a].pc.Start?
           && s' == Goto(s, a, AfterLocate(Lookup(s.db, s.attempts[a].handle), s.attempts[a].caller));
  }

  lemma ClaimEffect(s: State, s': State, a: nat)
    requires a < |s.attempts| && Apply(s, a, Claim) == Some(s')
    ensures a < |s'.attempts| && Effect(s'.db, Claim, s.attempts[a], s'.attempts[a])
  {
    assert s.attempts[a].pc.Bound? && DoClaim(s, a) == Some(s');
  }

  lemma CommitClaimEffect(s: State, s': State, a: nat)
    requires a < |s.attempts| && Apply(s, a, CommitClaim) == Some(s')
    ensures a < |s'.attempts| && Effect(s'.db, CommitClaim, s.attempts[a], s'.attempts[a])
  {
    assert s.attempts[a].pc.ClaimPending? && DoCommitClaim(s, a) == Some(s');
  }

  lemma RefreshEffect(s: State, s': State, a: nat)
    requires a < |s.attempts| && Apply(s, a, Refresh) == Some(s')
    ensures a < |s'.attempts| && Effect(s'.db, Refresh, s.attempts[a], s'.attempts[a])
  {
    assert s.attempts[a].pc.ClaimLost? && DoRefresh(s, a) == Some(s');
  }

  lemma ProviderEffect(s: State, s': State, a: nat, reply: AdminReply)
    requires a < |s.attempts| && Apply(s, a, ReadProvider(reply)) == Some(s')
    ensures a < |s'.attempts| && Effect(s'.db, ReadProvider(reply), s.attempts[a], s'.attempts[a])
  {
    assert s.attempts[a].pc.Reading? && DoReadProvider(s, a, reply) == Some(s');
  }

  lemma ResolveEffect(s: State, s': State, a: nat, found: Option<Id>)
    requires a < |s.attempts| && Apply(s, a, ResolveExisting(found)) == Some(s')
    ensures a < |s'.attempts| && Effect(s'.db, ResolveExisting(found), s.attempts[a], s'.attempts[a])
  {
    assert s.attempts[a].pc.HaveFacts? && DoResolveExisting(s, a, found) == Some(s');
  }

  lemma ReadUserEffect(s: State, s': State, a: nat)
    requires a < |s.attempts| && Apply(s, a, ReadUser) == Some(s')
    ensures a < |s'.attempts| && Effect(s'.db, ReadUser, s.attempts[a], s'.attempts[a])
  {
    assert s.attempts[a].pc.Existing? && DoReadUser(s, a) == Some(s');
  }

  lemma InsertEffect(s: State, s': State, a: nat, action: Action)
    requires a < |s.attempts| && Apply(s, a, action) == Some(s')
    requires action.InsertUser? || action.InsertIdentity? || action.InsertToken?
    requires action.InsertIdentity? ==> s.attempts[a].pending.tokens == {}
    ensures a < |s'.attempts| && Effect(s'.db, action, s.attempts[a], s'.attempts[a])
  {}

  lemma AbandonEffect(s: State, s': State, a: nat, action: Action)
    requires a < |s.attempts| && Apply(s, a, action) == Some(s')
    requires action.Rollback? || action.SpendFails? || action.Crash? || action.CommitSpend?
    ensures a < |s'.attempts| && Effect(s'.db, action, s.attempts[a], s'.attempts[a])
  {}

  lemma ConsumeEffect(s: State, s': State, a: nat)
    requires Reachable(s) && a < |s.attempts| && Apply(s, a, Consume) == Some(s')
    ensures a < |s'.attempts| && Effect(s'.db, Consume, s.attempts[a], s'.attempts[a])
  {
    ConsumeStep(s, a, s');
    SpentEffect(s'.db, s.attempts[a], s'.attempts[a]);
  }

  lemma SpentEffect(db: Tables, t: Attempt, t': Attempt)
    requires t'.caller == t.caller && t'.handle == t.handle && t'.now == t.now && t'.facts == t.facts && t'.calls == t.calls
    requires t'.pc == Spent(SpendOutcome(t), true)
    ensures Effect(db, Consume, t, t')
  {}

  /** The steps of the system mean what their statements say. */
  lemma ApplyEffect(s: State, s': State, a: nat, action: Action)
    requires Reachable(s) && a < |s.attempts| && Apply(s, a, action) == Some(s')
    ensures a < |s'.attempts| && Effect(s'.db, action, s.attempts[a], s'.attempts[a])
  {
    match action
    case Locate => LocateEffect(s, s', a);
    case Claim => ClaimEffect(s, s', a);
    case CommitClaim => CommitClaimEffect(s, s', a);
    case Refresh => RefreshEffect(s, s', a);
    case ReadProvider(reply) => ProviderEffect(s, s', a, reply);
    case ResolveExisting(found) => ResolveEffect(s, s', a, found);
    case ReadUser => ReadUserEffect(s, s', a);
    case InsertUser => InsertEffect(s, s', a, action);
    case InsertIdentity =>
      NoTokensYet(s, a);
      InsertEffect(s, s', a, action);
    case InsertToken(_) => InsertEffect(s, s', a, action);
    case Consume => ConsumeEffect(s, s', a);
    case _ => AbandonEffect(s, s', a, action);
  }

  class Session {
    const db: Database
    const me: nat

    constructor (db: Database, me: nat)
      ensures this.db == db && this.me == me
    {
      this.db := db;
      this.me := me;
    }

    ghost predicate Valid()
      reads db
    {
      Reachable(db.s) && me < |db.s.attempts|
    }

    /** The request itself never changes under its attempt. */
    ghost predicate Same(was: Attempt)
      requires Valid()
      reads db
    {
      Self().caller == was.caller && Self().handle == was.handle && Self().now == was.now
    }

    function Self(): Attempt
      requires me < |db.s.attempts|
      reads db
    {
      db.s.attempts[me]
    }

    predicate At(pc: Pc)
      requires me < |db.s.attempts|
      reads db
    {
      Self().pc == pc
    }

    /** One statement: it executes, or `failure` happens instead when it raises or cannot run. */
    method Execute(action: Action, failure: Action) returns (ok: bool)
      requires Valid() && !Finished(Self().pc) && MayFailAs(failure)
      modifies db
      ensures Valid()
      ensures Effect(db.s.db, if ok then action else failure, old(Self()), Self())
    {
      var raises: bool := *;
      ghost var before := db.s;
      ok := !raises && Apply(db.s, me, action).Some?;
      if ok {
        db.Do(me, action);
      } else {
        db.Do(me, failure);
      }
      ApplyEffect(before, db.s, me, if ok then action else failure);
    }

    ghost predicate MayFailAs(failure: Action)
      requires Valid()
      reads db
    {
      failure == Crash
      || (failure == SpendFails && (Self().pc.RolledBack? || (Self().pc.Spent? && Self().pc.outcome.Failure?)))
    }

    /** The others run, and then the statement does; a lock wait that never ends counts as raising. */
    method Take(action: Action, failure: Action) returns (ok: bool)
      requires Valid() && !Finished(Self().pc) && MayFailAs(failure)
      modifies db
      ensures Valid()
      ensures Effect(db.s.db, if ok then action else failure, old(Self()), Self())
    {
      db.OthersRun(me);
      ok := Execute(action, failure);
    }

    method Locate() returns (r: Outcome<Option<ChallengeRow>>)
      requires Valid() && At(Start)
      modifies db
      ensures Valid() && Same(old(Self()))
      ensures !r.App?
      ensures r.Ok? ==> r.value == Lookup(db.s.db, Self().handle) && At(AfterLocate(r.value, Self().caller))
      ensures r.Raised? ==> At(Dead)
    {
      var ok := Take(AuthMachine.Locate, Crash);
      if !ok {
        return Raised;
      }
      r := Ok(Lookup(db.s.db, Self().handle));
    }

    method Claim() returns (r: Outcome<bool>)
      requires Valid() && At(Bound)
      modifies db
      ensures Valid() && Same(old(Self()))
      ensures !r.App?
      ensures r.Ok? ==> r.value == CanClaim(db.s.db, Self()) && At(if r.value then ClaimPending else ClaimLost)
      ensures r.Raised? ==> At(Dead)
    {
      var ok := Take(AuthMachine.Claim, Crash);
      if !ok {
        return Raised;
      }
      r := Ok(Self().pc.ClaimPending?);
    }

    /** `session.refresh(challenge)`: the row's claim instant as it is committed now. */
    method Refresh() returns (r: Outcome<Option<Instant>>)
      requires Valid() && At(ClaimLost)
      modifies db
      ensures Valid() && Same(old(Self()))
      ensures !r.App?
      ensures r.Ok? ==> Self().handle in db.s.db.challenges && r.value == db.s.db.challenges[Self().handle].claimedAt
      ensures r.Ok? ==> At(Done(Failure(if r.value.None? then ChallengeExpired else ChallengeConsumed)))
      ensures r.Raised? ==> At(Dead)
    {
      var ok := Take(AuthMachine.Refresh, Crash);
      if !ok {
        return Raised;
      }
      r := Ok(db.s.db.challenges[Self().handle].claimedAt);
    }

    method CommitClaim() returns (r: Outcome<()>)
      requires Valid() && At(ClaimPending)
      modifies db
      ensures Valid() && Same(old(Self()))
      ensures !r.App?
      ensures r.Ok? ==> At(Reading(0)) && Self().claimed
      ensures r.Raised? ==> At(Dead)
    {
      var ok := Take(AuthMachine.CommitClaim, Crash);
      r := if ok then Ok(()) else Raised;
    }

    /** One adapter call. */
    method ReadOnce() returns (r: Outcome<ReadOutcome>, ghost reply: AdminReply)
      requires Valid() && Self().pc.Reading?
      modifies db
      ensures Valid() && Same(old(Self()))
      ensures !r.Raised? ==> Self().calls == old(Self().calls) + 1
      ensures r.Ok? ==> r.value == Read(reply)
      ensures r.Ok? && r.value.Established? ==> At(HaveFacts) && Self().facts == Some(r.value.facts)
      ensures r.Ok? && r.value.Retryable? ==> At(Reading(old(Self().pc.failures) + 1)) && Self().pc.failures < LOOKUP_ATTEMPTS
      ensures r.Ok? && r.value.Rejected? ==> At(Failing(r.value.error))
      ensures r.App? ==> Read(reply).Retryable? && old(Self().pc.failures) + 1 >= LOOKUP_ATTEMPTS
      ensures r.App? ==> At(Failing(Unavailable)) && r.error == Unavailable
      ensures r.Raised? ==> At(Dead)
    {
      var answer: AdminReply := *;
      reply := answer;
      var ok := Take(ReadProvider(answer), Crash);
      if !ok {
        return Raised, reply;
      }
      r := if Read(answer).Retryable? && Self().pc.Failing? then App(Unavailable) else Ok(Read(answer));
    }

    /** `replies` are answers of the adapter, read one after another: all but the last retryable, and the
        last too only when it was the third. */
    ghost predicate ReadThrough(replies: seq<AdminReply>, r: Result<Facts, AppError>) {
      && 1 <= |replies| <= 3
      && (forall k :: 0 <= k < |replies| - 1 ==> Read(replies[k]).Retryable?)
      && match Read(replies[|replies| - 1])
         case Established(facts) => r == Success(facts)
         case Rejected(error) => r == Failure(error)
         case Retryable => |replies| == 3 && r == Failure(Unavailable)
    }

    /** `lookup_with_retry`: at most three reads, retried only while the answer is retryable. */
    method ReadFacts() returns (r: Outcome<Facts>, ghost replies: seq<AdminReply>)
      requires Valid() && At(Reading(0))
      modifies db
      ensures Valid() && Same(old(Self()))
      ensures !r.Raised? ==> Self().calls == old(Self().calls) + |replies|
      ensures r.Ok? ==> ReadThrough(replies, Success(r.value))
      ensures r.App? ==> ReadThrough(replies, Failure(r.error))
      ensures r.Ok? ==> At(HaveFacts) && Self().facts == Some(r.value)
      ensures r.App? ==> At(Failing(r.error))
      ensures r.Raised? ==> At(Dead)
    {
      var failures := 0;
      replies := [];
      while true
        invariant Valid() && Same(old(Self())) && At(Reading(failures)) && failures < LOOKUP_ATTEMPTS
        invariant |replies| == failures && Self().calls == old(Self().calls) + failures
        invariant forall k :: 0 <= k < |replies| ==> Read(replies[k]).Retryable?
        decreases LOOKUP_ATTEMPTS - failures
      {
        var read;
        ghost var reply;
        read, reply := ReadOnce();
        replies := replies + [reply];
        match read {
          case Raised => return Raised, replies;
          case App(error) => return App(error), replies;
          case Ok(answer) =>
            match answer {
              case Established(facts) => return Ok(facts), replies;
              case Rejected(error) => return App(error), replies;
              case Retryable => failures := failures + 1;
            }
        }
      }
    }

    /** The row found is the pair's, and its state decides at once or its user will. */
    ghost predicate Linked(i: Id)
      requires Valid()
      reads db
    {
      && i in db.s.db.identities && HasPair(db.s.db.identities[i], Self().caller.issuer, Self().caller.subject)
      && At(if db.s.db.identities[i].state != Active then Failing(HistoricalIdentity)
            else Existing(db.s.db.identities[i].userId))
    }

    /** `resolve_existing`: the pair's identity row as it is committed now. */
    method ResolveExisting() returns (found: Outcome<Option<Id>>)
      requires Valid() && At(HaveFacts)
      modifies db
      ensures Valid() && Same(old(Self())) && Self().facts == old(Self().facts)
      ensures !found.App?
      ensures found == Ok(None) ==> At(Unlinked)
      ensures found.Ok? && found.value.Some? ==> Linked(found.value.value)
      ensures found.Raised? ==> At(Dead)
    {
      db.OthersRun(me);
      var row: Option<Id> := None;
      if i: Id :| i in db.s.db.identities && HasPair(db.s.db.identities[i], Self().caller.issuer, Self().caller.subject) {
        row := Some(i);
      }
      ResolveStep(db.s, me, row);
      var ok := Execute(AuthMachine.ResolveExisting(row), Crash);
      found := if ok then Ok(row) else Raised;
    }

    /** `create_user`: the in-transaction resolution that decides, then the insert. */
    method CreateUser() returns (r: Outcome<()>)
      requires Valid() && At(HaveFacts) && Self().facts.Some?
      modifies db
      ensures Valid() && Same(old(Self()))
      ensures r.Ok? ==> At(IdentityInserted) && Self().pending.tokens == {AppleStore, GooglePlay}
      ensures r.Ok? ==> Self().facts == old(Self().facts) && PendingAccount(me, Self())
      ensures r.App? ==> FromIdentityRow(r.error)
      ensures r.App? ==> At(Failing(r.error))
      ensures r.Raised? ==> At(Dead)
    {
      var existing := ResolveExisting();
      if existing.Raised? {
        r := Raised;
      } else if existing.value.Some? {
        r := RejectExistingIdentity();
      } else {
        r := InsertAccount();
      }
    }

    /** `_reject_existing_identity`: the state read before decides first, then the user as committed now. */
    method RejectExistingIdentity() returns (r: Outcome<()>)
      requires Valid() && (Self().pc.Existing? || At(Failing(HistoricalIdentity)))
      modifies db
      ensures Valid() && Same(old(Self()))
      ensures !r.Ok?
      ensures r.App? ==> r.error == if old(Self().pc.Existing?) then ExistingRejection(db.s.db, old(Self().pc.userId))
                                    else HistoricalIdentity
      ensures r.App? ==> At(Failing(r.error))
      ensures r.Raised? ==> At(Dead)
    {
      if Self().pc.Failing? {
        return App(HistoricalIdentity);
      }
      var ok := Take(ReadUser, Crash);
      r := if ok then App(Self().pc.error) else Raised;
    }

    method FlushUser() returns (ok: bool)
      requires Valid() && At(Unlinked)
      modifies db
      ensures Valid() && Same(old(Self())) && Self().facts == old(Self().facts)
      ensures ok ==> At(UserInserted)
      ensures !ok ==> At(Dead)
    {
      ok := Take(InsertUser, Crash);
    }

    /** The flush of the identity row: `None` when it raised, and otherwise whether the row went in. */
    method FlushIdentity() returns (inserted: Option<bool>)
      requires Valid() && At(UserInserted)
      modifies db
      ensures Valid() && Same(old(Self())) && Self().facts == old(Self().facts)
      ensures inserted == Some(true) ==> At(IdentityInserted) && Self().pending.tokens == {}
      ensures inserted == Some(false) ==> At(Failing(IdentityAlreadyLinked))
      ensures inserted.None? ==> At(Dead)
    {
      var ok := Take(InsertIdentity, Crash);
      inserted := if ok then Some(Self().pc.IdentityInserted?) else None;
    }

    method FlushToken(store: PurchaseProvider) returns (ok: bool)
      requires Valid() && At(IdentityInserted) && store !in Self().pending.tokens
      modifies db
      ensures Valid() && Same(old(Self())) && Self().facts == old(Self().facts)
      ensures ok ==> At(IdentityInserted) && Self().pending.tokens == old(Self().pending.tokens) + {store}
      ensures !ok ==> At(Dead)
    {
      ok := Take(InsertToken(store), Crash);
    }

    /** `insert_account`: the user, its identity row, and one token per store. */
    method InsertAccount() returns (r: Outcome<()>)
      requires Valid() && At(Unlinked)
      modifies db
      ensures Valid() && Same(old(Self()))
      ensures r.Ok? ==> At(IdentityInserted) && Self().pending.tokens == {AppleStore, GooglePlay}
      ensures r.Ok? ==> Self().facts == old(Self().facts) && PendingAccount(me, Self())
      ensures r.App? ==> At(Failing(IdentityAlreadyLinked)) && r.error == IdentityAlreadyLinked
      ensures r.Raised? ==> At(Dead)
    {
      var flushed := FlushUser();
      if !flushed {
        return Raised;
      }
      var inserted := FlushIdentity();
      match inserted {
        case None => return Raised;
        case Some(went) =>
          if !went {
            return App(IdentityAlreadyLinked);
          }
      }
      r := MintTokens();
      if r.Ok? {
        ReachableAttempt(db.s, me);
        PendingFields(db.s, me);
      }
    }

    /** One purchase token per store. */
    method MintTokens() returns (r: Outcome<()>)
      requires Valid() && At(IdentityInserted) && Self().pending.tokens == {}
      modifies db
      ensures Valid() && Same(old(Self())) && Self().facts == old(Self().facts)
      ensures !r.App?
      ensures r.Ok? ==> At(IdentityInserted) && Self().pending.tokens == {AppleStore, GooglePlay}
      ensures r.Raised? ==> At(Dead)
    {
      for i := 0 to |STORES|
        invariant Valid() && Same(old(Self()))
        invariant At(IdentityInserted) && Self().facts == old(Self().facts)
        invariant Self().pending.tokens == set store | store in STORES[..i]
      {
        assert STORES[..i + 1] == STORES[..i] + [STORES[i]];
        var flushed := FlushToken(STORES[i]);
        if !flushed {
          return Raised;
        }
      }
      assert STORES[..|STORES|] == [AppleStore, GooglePlay];
      r := Ok(());
    }

    method Rollback() returns (r: Outcome<()>)
      requires Valid() && Self().pc.Failing?
      modifies db
      ensures Valid() && Same(old(Self()))
      ensures !r.App?
      ensures r.Ok? ==> At(RolledBack(old(Self().pc.error)))
      ensures r.Raised? ==> At(Dead)
    {
      var ok := Take(AuthMachine.Rollback, Crash);
      r := if ok then Ok(()) else Raised;
    }

    /** The conditional UPDATE of a spend: `None` when it raised, and otherwise whether it matched its row. */
    method ConsumeRow(ghost outcome: Result<Provider, AppError>) returns (matched: Option<bool>)
      requires Valid() && Spendable(outcome)
      modifies db
      ensures Valid() && Same(old(Self())) && Self().facts == old(Self().facts)
      ensures matched.Some? ==> At(Spent(outcome, matched.value)) && matched.value
      ensures matched.None? ==> At(if outcome.Failure? then Done(outcome) else Dead)
    {
      var ok := Take(Consume, if Self().pc.RolledBack? then SpendFails else Crash);
      if !ok {
        return None;
      }
      matched := Some(Self().pc.matched);
    }

    method CommitSpend(ghost outcome: Result<Provider, AppError>) returns (ok: bool)
      requires Valid() && At(Spent(outcome, true))
      modifies db
      ensures Valid() && Same(old(Self())) && Self().facts == old(Self().facts)
      ensures ok ==> At(Done(outcome))
      ensures !ok ==> At(if outcome.Failure? then Done(outcome) else Dead)
    {
      ok := Take(AuthMachine.CommitSpend, if Self().pc.outcome.Failure? then SpendFails else Crash);
    }

    ghost predicate Spendable(outcome: Result<Provider, AppError>)
      requires Valid()
      reads db
    {
      match outcome
      case Failure(error) => At(RolledBack(error))
      case Success(provider) =>
        && At(IdentityInserted) && Self().pending.tokens == {AppleStore, GooglePlay}
        && Self().facts.Some? && provider == Self().facts.value.provider
    }

    /** `_consume_and_commit`. `diverged` is the error it logs when the consume matched no row; it never does. */
    method ConsumeAndCommit(ghost outcome: Result<Provider, AppError>) returns (ok: bool, diverged: bool)
      requires Valid() && Spendable(outcome)
      modifies db
      ensures Valid() && Same(old(Self())) && Self().facts == old(Self().facts)
      ensures !diverged
      ensures ok ==> At(Done(outcome))
      ensures !ok ==> At(if outcome.Failure? then Done(outcome) else Dead)
    {
      var matched := ConsumeRow(outcome);
      if matched.None? {
        return false, false;
      }
      diverged := !matched.value;
      ok := CommitSpend(outcome);
    }

    /** What a caller of `complete` is owed: the provider its read established, or a rejection by the step
        that earned it. No reply was read before the claim was committed. */
    ghost predicate Owed(r: Outcome<Provider>, replies: seq<AdminReply>)
      requires Valid()
      reads db
    {
      match r
      case Ok(provider) =>
        && At(Done(Success(provider))) && Self().facts.Some?
        && ReadThrough(replies, Success(Self().facts.value)) && provider == Self().facts.value.provider
      case App(error) =>
        && At(Done(Failure(error)))
        && (if replies == [] then FromPrecheck(error) || error.ChallengeExpired? || error.ChallengeConsumed?
            else ReadThrough(replies, Failure(error)) || FromIdentityRow(error))
      case Raised => At(Dead)
    }

    /** `complete`. Whatever anybody else does meanwhile and whichever statement fails: a returned
        provider means a whole account and its spent challenge are committed, with the columns the read
        established; any other end leaves none of the account's rows; and a consume that fails to match
        never happens. */
    method Complete() returns (r: Outcome<Provider>, diverged: bool, ghost replies: seq<AdminReply>)
      requires Valid() && At(Start)
      modifies db
      ensures Valid() && Same(old(Self())) && Owed(r, replies)
      ensures r.Ok? ==> Earned(db.s, me) && Account(db.s.db, me, Self(), Self().facts.value)
      ensures !r.Ok? ==> Absent(db.s.db, me)
      ensures !diverged
    {
      r, diverged, replies := Attempted();
      ReachableOutcome(db.s, me);
      if r.Ok? {
        EarnedAccount(db.s, me);
      }
    }

    method Attempted() returns (r: Outcome<Provider>, diverged: bool, ghost replies: seq<AdminReply>)
      requires Valid() && At(Start)
      modifies db
      ensures Valid() && Same(old(Self())) && Owed(r, replies)
      ensures !diverged
    {
      diverged, replies := false, [];
      var located := Locate();
      if located.Raised? {
        return Raised, diverged, replies;
      }
      if located.value.None? {
        return App(ChallengeNotFound), diverged, replies;
      }
      var challenge := VerifyBinding(located.value.value, Self().caller);
      if challenge.Failure? {
        return App(challenge.error), diverged, replies;
      }
      if challenge.value.operation != AuthTables.CreateUser {
        return App(ChallengeOperationMismatch), diverged, replies;
      }
      var won := Claim();
      if won.Raised? {
        return Raised, diverged, replies;
      }
      if !won.value {
        var claimedAt := Refresh();
        match claimedAt {
          case Raised => return Raised, diverged, replies;
          case Ok(at) => return App(if at.None? then ChallengeExpired else ChallengeConsumed), diverged, replies;
        }
      }
      var committed := CommitClaim();
      if committed.Raised? {
        return Raised, diverged, replies;
      }
      r, diverged, replies := CreateAndSpend();
    }

    /** The body under `try`, its `except AppError` arm, and the spend after it. */
    method CreateAndSpend() returns (r: Outcome<Provider>, diverged: bool, ghost replies: seq<AdminReply>)
      requires Valid() && At(Reading(0))
      modifies db
      ensures Valid() && Same(old(Self())) && Owed(r, replies)
      ensures !diverged
    {
      diverged := false;
      var facts;
      facts, replies := ReadFacts();
      var created := Raised;
      match facts {
        case Ok(f) => created := CreateUser();
        case App(e) => created := App(e);
        case Raised =>
      }
      match created {
        case Raised => return Raised, diverged, replies;
        case Ok(_) =>
          var spent;
          spent, diverged := ConsumeAndCommit(Success(facts.value.provider));
          r := if spent then Ok(facts.value.provider) else Raised;
        case App(e) =>
          var undone := Rollback();
          if undone.Raised? {
            return Raised, diverged, replies;
          }
          var spent;
          // Whether or not this spend succeeds, the answer is the rejection.
          spent, diverged := ConsumeAndCommit(Failure(e));
          r := App(e);
      }
    }
  }

  lemma NoTokensYet(s: State, a: nat)
    requires Reachable(s) && a < |s.attempts| && s.attempts[a].pc.UserInserted?
    ensures s.attempts[a].pending.tokens == {}
  {
    ReachableAttempt(s, a);
  }

  lemma ConsumeOutcome(s: State, a: nat, s': State)
    requires a < |s.attempts| && (s.attempts[a].pc.RolledBack? || s.attempts[a].pc.IdentityInserted?)
    requires DoConsume(s, a) == Some(s')
    ensures var t := s.attempts[a];
            && (t.pc.RolledBack? || (t.pc.IdentityInserted? && t.facts.Some?))
            && a < |s'.attempts| && s'.attempts[a].pc.Spent?
            && s'.attempts[a].pc.outcome == SpendOutcome(t)
            && s'.attempts[a].caller == t.caller && s'.attempts[a].handle == t.handle
            && s'.attempts[a].now == t.now && s'.attempts[a].facts == t.facts && s'.attempts[a].calls == t.calls
  {}

  lemma ConsumeStep(s: State, a: nat, s': State)
    requires Reachable(s) && a < |s.attempts| && Apply(s, a, Consume) == Some(s')
    ensures var t := s.attempts[a];
            && (t.pc.RolledBack? || (t.pc.IdentityInserted? && t.facts.Some?))
            && a < |s'.attempts| && s'.attempts[a].pc == Spent(SpendOutcome(t), true)
            && s'.attempts[a].caller == t.caller && s'.attempts[a].handle == t.handle
            && s'.attempts[a].now == t.now && s'.attempts[a].facts == t.facts && s'.attempts[a].calls == t.calls
  {
    ConsumeOutcome(s, a, s');
    var run :| Run(run) && run[|run| - 1] == s;
    ConsumeAlwaysMatches(run, |run| - 1, a, s');
  }

  lemma ResolveStep(s: State, a: nat, found: Option<Id>)
    requires a < |s.attempts| && s.attempts[a].pc.HaveFacts?
    requires var caller := s.attempts[a].caller;
             match found
             case Some(i) => i in s.db.identities && HasPair(s.db.identities[i], caller.issuer, caller.subject)
             case None => forall i :: i in s.db.identities ==> !HasPair(s.db.identities[i], caller.issuer, caller.subject)
    ensures Apply(s, a, ResolveExisting(found)).Some?
  {}
}
