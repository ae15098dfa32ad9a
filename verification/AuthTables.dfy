/** The four tables the account-creation path touches, their constraints, and the queries over them. */
module AuthTables {
  import opened Wrappers
  import opened Firebase

  /** Microseconds, the resolution of a stored timestamp. */
  type Instant = int

  const CHALLENGE_TTL: int := 300 * 1_000_000

  /** A UUID. `Minted(a, k)` is the k-th one attempt `a` draws, so nobody else ever holds it. */
  datatype Id = Legacy(n: nat) | Minted(attempt: nat, slot: nat)

  type Handle = nat

  datatype Operation = CreateUser | UpgradeAnonymous | ClaimAnonymousGrant | ClaimRegisteredGrant

  datatype IdentityState = Active | Historical

  datatype PurchaseProvider = AppleStore | GooglePlay

  const STORES: seq<PurchaseProvider> := [AppleStore, GooglePlay]

  datatype ChallengeRow = ChallengeRow(
    operation: Operation,
    bound: Option<Id>,
    preauthIssuer: Option<string>,
    preauthSubject: Option<string>,
    createdAt: Instant,
    expiresAt: Instant,
    claimedAt: Option<Instant>,
    consumedAt: Option<Instant>)

  datatype UserRow = UserRow(email: Option<string>, registeredAt: Option<Instant>, active: bool)

  datatype IdentityRow = IdentityRow(
    userId: Id,
    issuer: string,
    subject: string,
    provider: Provider,
    providerUid: Option<string>,
    state: IdentityState)

  datatype Tables = Tables(
    challenges: map<Handle, ChallengeRow>,
    users: map<Id, UserRow>,
    identities: map<Id, IdentityRow>,
    tokens: map<(Id, PurchaseProvider), Id>)

  /** A verified pair and the identity row it resolved to, if any. */
  datatype Caller = Caller(issuer: string, subject: string, linked: Option<Id>)

  /** One entry of a UNIQUE index over identity rows. */
  datatype UniqueKey =
    | SubjectKey(issuer: string, subject: string)
    | AccountKey(issuer: string, provider: Provider, uid: string)

  function Keys(row: IdentityRow): set<UniqueKey> {
    {SubjectKey(row.issuer, row.subject)}
    + if row.providerUid.Some? then {AccountKey(row.issuer, row.provider, row.providerUid.value)} else {}
  }

  predicate Taken(t: Tables, k: UniqueKey) {
    exists i :: i in t.identities && k in Keys(t.identities[i])
  }

  predicate HasPair(row: IdentityRow, issuer: string, subject: string) {
    row.issuer == issuer && row.subject == subject
  }

  /** The UNIQUE, CHECK and FOREIGN KEY rules of the schema. */
  ghost predicate Constraints(t: Tables) {
    && (forall i, j, k ::
          i in t.identities && j in t.identities && k in Keys(t.identities[i]) && k in Keys(t.identities[j])
          ==> i == j)
    && (forall i, j ::
          i in t.identities && j in t.identities && t.identities[i].userId == t.identities[j].userId
          ==> i == j)
    && (forall i :: i in t.identities ==>
                      && t.identities[i].userId in t.users
                      && ProviderRule(t.identities[i].provider, t.identities[i].providerUid))
    && (forall x :: x in t.tokens ==> x.0 in t.users)
    && (forall x, y :: x in t.tokens && y in t.tokens && x.1 == y.1 && t.tokens[x] == t.tokens[y] ==> x == y)
  }

  /** One challenge row after another moment of its life: issued, then claimed, then consumed. */
  predicate RowLater(r: ChallengeRow, r': ChallengeRow) {
    && r'.operation == r.operation && r'.bound == r.bound && r'.preauthIssuer == r.preauthIssuer
    && r'.createdAt == r.createdAt && r'.expiresAt == r.expiresAt
    && (r.claimedAt.Some? ==> r'.claimedAt == r.claimedAt)
    && (r.consumedAt.Some? ==> r' == r)
    && (r'.consumedAt.None? ==> r'.preauthSubject == r.preauthSubject)
  }

  /** An identity row may be retired, and nothing else about it ever changes. */
  predicate SameIdentity(r: IdentityRow, r': IdentityRow) {
    r' == r.(state := r'.state)
  }

  /** What every committed state owes every earlier one: no row is deleted and no column goes back. */
  ghost predicate TablesLater(t: Tables, t': Tables) {
    && (forall h :: h in t.challenges ==> h in t'.challenges && RowLater(t.challenges[h], t'.challenges[h]))
    && (forall u :: u in t.users ==> u in t'.users && t'.users[u] == t.users[u].(active := t'.users[u].active))
    && (forall i :: i in t.identities ==> i in t'.identities && SameIdentity(t.identities[i], t'.identities[i]))
    && (forall x :: x in t.tokens ==> x in t'.tokens && t'.tokens[x] == t.tokens[x])
  }

  lemma TablesLaterTransitive(t: Tables, t': Tables, t'': Tables)
    requires TablesLater(t, t') && TablesLater(t', t'')
    ensures TablesLater(t, t'')
  {}

  /** `resolve`: the admission matrix over the pair's identity row and the user it points at. */
  ghost function Resolve(t: Tables, issuer: string, subject: string, allowPreauth: bool): (r: Result<Caller, AppError>)
  {
    if i :| i in t.identities && HasPair(t.identities[i], issuer, subject) then
      var row := t.identities[i];
      if row.userId !in t.users then Failure(IdentityUnresolvable)
      else if row.state != Active then Failure(HistoricalIdentity)
      else if !t.users[row.userId].active then Failure(BlockedUser)
      else Success(Caller(issuer, subject, Some(i)))
    else if allowPreauth then Success(Caller(issuer, subject, None))
    else Failure(PreAuthIdentityNotAllowed)
  }

  /** A caller as some earlier `resolve` produced it: a linked one names a row that is still there. */
  predicate Plausible(t: Tables, caller: Caller) {
    match caller.linked
    case None => true
    case Some(i) => i in t.identities && HasPair(t.identities[i], caller.issuer, caller.subject)
  }

  function VerifyBinding(row: ChallengeRow, caller: Caller): Result<ChallengeRow, AppError> {
    if row.bound.Some? then
      if caller.linked == row.bound then Success(row) else Failure(ChallengeIdentityMismatch)
    else if row.preauthSubject.None? then Failure(ChallengeConsumed)
    else if row.preauthIssuer != Some(caller.issuer) then Failure(ChallengeIdentityMismatch)
    else if row.preauthSubject != Some(caller.subject) then Failure(ChallengeIdentityMismatch)
    else Success(row)
  }

  function NewChallenge(operation: Operation, caller: Caller, now: Instant): ChallengeRow {
    if caller.linked.Some? then
      ChallengeRow(operation, caller.linked, None, None, now, now + CHALLENGE_TTL, None, None)
    else
      ChallengeRow(operation, None, Some(caller.issuer), Some(caller.subject), now, now + CHALLENGE_TTL, None, None)
  }

  /** The claim's WHERE clause. */
  predicate Claimable(row: ChallengeRow, now: Instant) {
    row.claimedAt.None? && row.expiresAt > now
  }

  /** The consume's WHERE clause. */
  predicate Consumable(row: ChallengeRow) {
    row.claimedAt.Some? && row.consumedAt.None?
  }

  function ClaimedRow(row: ChallengeRow, now: Instant): ChallengeRow {
    row.(claimedAt := Some(now))
  }

  function ConsumedRow(row: ChallengeRow, now: Instant): ChallengeRow {
    row.(consumedAt := Some(now), preauthSubject := None)
  }

  predicate IsPresenter(issuee: Caller, caller: Caller) {
    if issuee.linked.Some? then caller.linked == issuee.linked
    else caller.issuer == issuee.issuer && caller.subject == issuee.subject
  }

  /** A challenge admits exactly the presenter it was issued to: the linked identity, or the unlinked pair.
      Claiming it changes nothing about that; once consumed, a pair's challenge answers already used to
      everybody, and a linked identity's still tells its presenter from others. */
  lemma BindingAdmitsItsPresenter(operation: Operation, issuee: Caller, caller: Caller, at: Instant, now: Instant)
    ensures var row := NewChallenge(operation, issuee, at);
            && (VerifyBinding(row, caller) == Success(row) <==> IsPresenter(issuee, caller))
            && (VerifyBinding(row, caller) == Failure(ChallengeIdentityMismatch) <==> !IsPresenter(issuee, caller))
            && VerifyBinding(ClaimedRow(row, now), caller).Success? == IsPresenter(issuee, caller)
            && (Claimable(row, now) <==> now < at + CHALLENGE_TTL)
            && !Claimable(ClaimedRow(row, now), now) && Consumable(ClaimedRow(row, now)) && !Consumable(row)
    ensures var spent := ConsumedRow(ClaimedRow(NewChallenge(operation, issuee, at), now), now);
            && !Claimable(spent, now) && !Consumable(spent)
            && (issuee.linked.None? ==> VerifyBinding(spent, caller) == Failure(ChallengeConsumed))
            && (issuee.linked.Some? ==> (VerifyBinding(spent, caller).Success? <==> IsPresenter(issuee, caller)))
  {}
}
