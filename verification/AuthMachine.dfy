/** Account creation as a transition system: committed tables, one session of pending writes per attempt,
    row locks on challenges, in-flight entries of the UNIQUE indexes, and a program counter per attempt. */
module AuthMachine {
  import opened Wrappers
  import opened Firebase
  import opened AuthTables

  /** The uncommitted writes of one session. */
  datatype Pending = Pending(
    challenge: Option<ChallengeRow>,
    user: Option<UserRow>,
    identity: Option<IdentityRow>,
    tokens: set<PurchaseProvider>)

  const NOTHING: Pending := Pending(None, None, None, {})

  datatype Pc =
    | Start
    | Bound
    | ClaimPending
    | ClaimLost
    | Reading(failures: nat)
    | HaveFacts
    | Existing(userId: Id)
    | Unlinked
    | UserInserted
    | IdentityInserted
    | Failing(error: AppError)
    | RolledBack(error: AppError)
    | Spent(outcome: Result<Provider, AppError>, matched: bool)
    | Done(outcome: Result<Provider, AppError>)
    | Dead

  /** One completion. `claimed`, `calls` and `facts` record what it did: its claim commit, its provider
      calls, and what the read established. */
  datatype Attempt = Attempt(
    caller: Caller,
    handle: Handle,
    now: Instant,
    pc: Pc,
    pending: Pending,
    claimed: bool,
    calls: nat,
    facts: Option<Facts>)

  /** What was asked for when a challenge was issued. */
  datatype Issuance = Issuance(operation: Operation, caller: Caller, at: Instant)

  /** `issued` and `owner` are history: each challenge's issuance, and the attempt whose claim committed. */
  datatype State = State(
    db: Tables,
    attempts: seq<Attempt>,
    rowLock: map<Handle, nat>,
    keyLock: map<UniqueKey, nat>,
    issued: map<Handle, Issuance>,
    owner: map<Handle, nat>)

  datatype Action =
    | Locate
    | Claim
    | CommitClaim
    | Refresh
    | ReadProvider(reply: AdminReply)
    | ResolveExisting(found: Option<Id>)
    | ReadUser
    | InsertUser
    | InsertIdentity
    | InsertToken(store: PurchaseProvider)
    | Rollback
    | Consume
    | CommitSpend
    | SpendFails
    | Crash

  datatype Event =
    | Step(a: nat, action: Action)
    | Issue(operation: Operation, caller: Caller, handle: Handle, at: Instant)
    | Begin(caller: Caller, handle: Handle, at: Instant)
    | SetUserActive(user: Id, active: bool)
    | SetIdentityState(identity: Id, state: IdentityState)

  function UserId(a: nat): Id { Minted(a, 0) }

  function IdentityId(a: nat): Id { Minted(a, 1) }

  function TokenValue(a: nat, store: PurchaseProvider): Id {
    if store == AppleStore then Minted(a, 2) else Minted(a, 3)
  }

  function NewUser(f: Facts, now: Instant): UserRow {
    UserRow(f.email, if f.provider == Anonymous then None else Some(now), true)
  }

  function NewIdentity(a: nat, caller: Caller, f: Facts): IdentityRow {
    IdentityRow(UserId(a), caller.issuer, caller.subject, f.provider, f.providerUid, Active)
  }

  predicate HeldByOther<K>(locks: map<K, nat>, k: K, a: nat) {
    k in locks && locks[k] != a
  }

  predicate Holds<K>(locks: map<K, nat>, k: K, a: nat) {
    k in locks && locks[k] == a
  }

  function Release<K>(locks: map<K, nat>, a: nat): map<K, nat> {
    map k | k in locks && locks[k] != a :: locks[k]
  }

  function Acquire(locks: map<UniqueKey, nat>, keys: set<UniqueKey>, a: nat): map<UniqueKey, nat> {
    locks + map k | k in keys :: a
  }

  function TokenRows(a: nat, stores: set<PurchaseProvider>): map<(Id, PurchaseProvider), Id> {
    map store | store in stores :: (UserId(a), store) := TokenValue(a, store)
  }

  /** The tables once attempt `a` commits `p`. */
  function Merge(t: Tables, a: nat, h: Handle, p: Pending): Tables {
    Tables(
      if p.challenge.Some? then t.challenges[h := p.challenge.value] else t.challenges,
      if p.user.Some? then t.users[UserId(a) := p.user.value] else t.users,
      if p.identity.Some? then t.identities[IdentityId(a) := p.identity.value] else t.identities,
      t.tokens + TokenRows(a, p.tokens))
  }

  function Put(s: State, a: nat, t: Attempt): State
    requires a < |s.attempts|
  {
    s.(attempts := s.attempts[a := t])
  }

  function Goto(s: State, a: nat, pc: Pc): State
    requires a < |s.attempts|
  {
    Put(s, a, s.attempts[a].(pc := pc))
  }

  /** `session.rollback()`, and what the database does for a session that dies. */
  function Abandon(s: State, a: nat, pc: Pc): State
    requires a < |s.attempts|
  {
    Put(s, a, s.attempts[a].(pc := pc, pending := NOTHING))
    .(rowLock := Release(s.rowLock, a), keyLock := Release(s.keyLock, a))
  }

  /** `session.commit()`: every pending write becomes visible at once and the locks go. */
  function Commit(s: State, a: nat, pc: Pc): State
    requires a < |s.attempts|
  {
    var t := s.attempts[a];
    Abandon(s, a, pc).(db := Merge(s.db, a, t.handle, t.pending))
  }

  /** Where the pre-claim checks leave an attempt, in their order of precedence. */
  function AfterLocate(located: Option<ChallengeRow>, caller: Caller): Pc {
    match located
    case None => Done(Failure(ChallengeNotFound))
    case Some(row) =>
      match VerifyBinding(row, caller)
      case Failure(error) => Done(Failure(error))
      case Success(challenge) =>
        if challenge.operation != CreateUser then Done(Failure(ChallengeOperationMismatch)) else Bound
  }

  function Lookup(t: Tables, h: Handle): Option<ChallengeRow> {
    if h in t.challenges then Some(t.challenges[h]) else None
  }

  /** A conditional UPDATE: a committed row that does not satisfy its WHERE is passed over; one that does is
      waited for while somebody else holds its lock, and evaluated again. */
  function DoClaim(s: State, a: nat): Option<State>
    requires a < |s.attempts| && s.attempts[a].pc.Bound?
  {
    var t := s.attempts[a];
    if t.handle !in s.db.challenges || !Claimable(s.db.challenges[t.handle], t.now) then Some(Goto(s, a, ClaimLost))
    else if HeldByOther(s.rowLock, t.handle, a) then None
    else
      var row := ClaimedRow(s.db.challenges[t.handle], t.now);
      Some(Put(s, a, t.(pc := ClaimPending, pending := NOTHING.(challenge := Some(row))))
           .(rowLock := s.rowLock[t.handle := a]))
  }

  function DoCommitClaim(s: State, a: nat): Option<State>
    requires a < |s.attempts| && s.attempts[a].pc.ClaimPending?
  {
    var s' := Commit(s, a, Reading(0));
    Some(Put(s', a, s'.attempts[a].(claimed := true)).(owner := s.owner[s.attempts[a].handle := a]))
  }

  /** What a lost claim answers: the committed claim instant distinguishes the two losses. */
  function RefreshAnswer(row: ChallengeRow): Pc {
    Done(Failure(if row.claimedAt.None? then ChallengeExpired else ChallengeConsumed))
  }

  function DoRefresh(s: State, a: nat): Option<State>
    requires a < |s.attempts| && s.attempts[a].pc.ClaimLost?
  {
    var h := s.attempts[a].handle;
    if h in s.db.challenges then Some(Goto(s, a, RefreshAnswer(s.db.challenges[h]))) else None
  }

  function DoReadProvider(s: State, a: nat, reply: AdminReply): Option<State>
    requires a < |s.attempts| && s.attempts[a].pc.Reading?
  {
    var t := s.attempts[a];
    match Read(reply)
    case Established(f) => Some(Put(s, a, t.(pc := HaveFacts, calls := t.calls + 1, facts := Some(f))))
    case Rejected(error) => Some(Put(s, a, t.(pc := Failing(error), calls := t.calls + 1)))
    case Retryable =>
      var failures := t.pc.failures + 1;
      Some(Put(s, a, t.(pc := if failures < LOOKUP_ATTEMPTS then Reading(failures) else Failing(Unavailable),
                        calls := t.calls + 1)))
  }

  function DoResolveExisting(s: State, a: nat, found: Option<Id>): Option<State>
    requires a < |s.attempts| && s.attempts[a].pc.HaveFacts?
  {
    var t := s.attempts[a];
    match found
    case None =>
      if Taken(s.db, SubjectKey(t.caller.issuer, t.caller.subject)) then None else Some(Goto(s, a, Unlinked))
    case Some(i) =>
      if i !in s.db.identities || !HasPair(s.db.identities[i], t.caller.issuer, t.caller.subject) then None
      else if s.db.identities[i].state != Active then Some(Goto(s, a, Failing(HistoricalIdentity)))
      else Some(Goto(s, a, Existing(s.db.identities[i].userId)))
  }

  function DoReadUser(s: State, a: nat): Option<State>
    requires a < |s.attempts| && s.attempts[a].pc.Existing?
  {
    var t := s.attempts[a];
    if t.pc.userId !in s.db.users || !s.db.users[t.pc.userId].active then Some(Goto(s, a, Failing(BlockedUser)))
    else Some(Goto(s, a, Failing(IdentityAlreadyLinked)))
  }

  function DoInsertUser(s: State, a: nat): Option<State>
    requires a < |s.attempts| && s.attempts[a].pc.Unlinked?
  {
    var t := s.attempts[a];
    if t.facts.None? then None
    else Some(Put(s, a, t.(pc := UserInserted, pending := t.pending.(user := Some(NewUser(t.facts.value, t.now))))))
  }

  /** A unique insert: fails against a committed row, waits for an in-flight one, and otherwise enters the index. */
  function DoInsertIdentity(s: State, a: nat): Option<State>
    requires a < |s.attempts| && s.attempts[a].pc.UserInserted?
  {
    var t := s.attempts[a];
    if t.facts.None? then None
    else
      var row := NewIdentity(a, t.caller, t.facts.value);
      if !ProviderRule(row.provider, row.providerUid) || (exists k :: k in Keys(row) && Taken(s.db, k)) then
        Some(Goto(s, a, Failing(IdentityAlreadyLinked)))
      else if exists k :: k in Keys(row) && HeldByOther(s.keyLock, k, a) then None
      else
        Some(Put(s, a, t.(pc := IdentityInserted, pending := t.pending.(identity := Some(row))))
             .(keyLock := Acquire(s.keyLock, Keys(row), a)))
  }

  function DoInsertToken(s: State, a: nat, store: PurchaseProvider): Option<State>
    requires a < |s.attempts| && s.attempts[a].pc.IdentityInserted?
  {
    var t := s.attempts[a];
    if store in t.pending.tokens then None
    else Some(Put(s, a, t.(pending := t.pending.(tokens := t.pending.tokens + {store}))))
  }

  /** The consume runs after a complete insert, or after the rollback a rejection took. */
  function DoConsume(s: State, a: nat): Option<State>
    requires a < |s.attempts| && (s.attempts[a].pc.RolledBack? || s.attempts[a].pc.IdentityInserted?)
  {
    var t := s.attempts[a];
    if t.pc.IdentityInserted? && (t.pending.tokens != {AppleStore, GooglePlay} || t.facts.None?) then None
    else
      var outcome := if t.pc.RolledBack? then Failure(t.pc.error) else Success(t.facts.value.provider);
      if t.handle !in s.db.challenges || !Consumable(s.db.challenges[t.handle]) then Some(Goto(s, a, Spent(outcome, false)))
      else if HeldByOther(s.rowLock, t.handle, a) then None
      else
        var row := ConsumedRow(s.db.challenges[t.handle], t.now);
        Some(Put(s, a, t.(pc := Spent(outcome, true), pending := t.pending.(challenge := Some(row))))
             .(rowLock := s.rowLock[t.handle := a]))
  }

  predicate Finished(pc: Pc) {
    pc.Done? || pc.Dead?
  }

  function Apply(s: State, a: nat, action: Action): Option<State>
    requires a < |s.attempts|
  {
    var t := s.attempts[a];
    match action
    case Locate =>
      if t.pc.Start? then Some(Goto(s, a, AfterLocate(Lookup(s.db, t.handle), t.caller))) else None
    case Claim => if t.pc.Bound? then DoClaim(s, a) else None
    case CommitClaim => if t.pc.ClaimPending? then DoCommitClaim(s, a) else None
    case Refresh => if t.pc.ClaimLost? then DoRefresh(s, a) else None
    case ReadProvider(reply) => if t.pc.Reading? then DoReadProvider(s, a, reply) else None
    case ResolveExisting(found) => if t.pc.HaveFacts? then DoResolveExisting(s, a, found) else None
    case ReadUser => if t.pc.Existing? then DoReadUser(s, a) else None
    case InsertUser => if t.pc.Unlinked? then DoInsertUser(s, a) else None
    case InsertIdentity => if t.pc.UserInserted? then DoInsertIdentity(s, a) else None
    case InsertToken(store) => if t.pc.IdentityInserted? then DoInsertToken(s, a, store) else None
    case Rollback => if t.pc.Failing? then Some(Abandon(s, a, RolledBack(t.pc.error))) else None
    case Consume => if t.pc.RolledBack? || t.pc.IdentityInserted? then DoConsume(s, a) else None
    case CommitSpend => if t.pc.Spent? then Some(Commit(s, a, Done(t.pc.outcome))) else None
    case SpendFails =>
      // After a rejection a spend that fails changes nothing about the answer; after an insert it raises.
      if t.pc.RolledBack? then Some(Abandon(s, a, Done(Failure(t.pc.error))))
      else if t.pc.Spent? && t.pc.outcome.Failure? then Some(Abandon(s, a, Done(t.pc.outcome)))
      else None
    case Crash => if Finished(t.pc) then None else Some(Abandon(s, a, Dead))
  }

  function Next(s: State, e: Event): Option<State> {
    match e
    case Step(a, action) => if a < |s.attempts| then Apply(s, a, action) else None
    case Issue(operation, caller, h, at) =>
      if h in s.issued || !Plausible(s.db, caller) then None
      else Some(s.(db := s.db.(challenges := s.db.challenges[h := NewChallenge(operation, caller, at)]),
                   issued := s.issued[h := Issuance(operation, caller, at)]))
    case Begin(caller, h, at) =>
      if !Plausible(s.db, caller) then None
      else Some(s.(attempts := s.attempts + [Attempt(caller, h, at, Start, NOTHING, false, 0, None)]))
    case SetUserActive(u, active) =>
      if u !in s.db.users then None
      else Some(s.(db := s.db.(users := s.db.users[u := s.db.users[u].(active := active)])))
    case SetIdentityState(i, st) =>
      if i !in s.db.identities then None
      else Some(s.(db := s.db.(identities := s.db.identities[i := s.db.identities[i].(state := st)])))
  }

  /** Nothing in flight, no challenge yet, and any accounts an earlier deployment left behind. */
  ghost predicate Init(s: State) {
    && s.attempts == [] && s.rowLock == map[] && s.keyLock == map[] && s.issued == map[] && s.owner == map[]
    && s.db.challenges == map[]
    && Constraints(s.db)
    && (forall u :: u in s.db.users ==> u.Legacy?)
    && (forall i :: i in s.db.identities ==> i.Legacy?)
    && (forall x :: x in s.db.tokens ==> s.db.tokens[x].Legacy?)
  }

  ghost predicate StepsAt(run: seq<State>, k: int)
    requires 0 <= k < |run| - 1
  {
    Successor(run[k], run[k + 1])
  }

  /** A finite run: consecutive states, each the result of some event. */
  ghost predicate Run(run: seq<State>) {
    && |run| > 0 && Init(run[0])
    && forall k :: 0 <= k < |run| - 1 ==> StepsAt(run, k)
  }

  ghost predicate Successor(s: State, s': State) {
    exists e :: Next(s, e) == Some(s')
  }
}
