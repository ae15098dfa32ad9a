/** Charges and syncs interleaved: committed rows, row locks, and a program counter per transaction. */
module QuotaMachine {
  import opened Wrappers
  import opened QuotaModel

  datatype Pc =
    // A charge.
    | Locking(todo: Option<seq<GrantId>>, got: seq<GrantId>)
    | WantUsage(grant: GrantId)
    | Holding(grant: GrantId, row: Usage)
    | Charged(grant: GrantId, row: Usage)
    | Finished(outcome: Result<(), QuotaError>)
    // A sync; `seen` remembers the store its usage read (or its earlier answer) was taken from.
    | ReadGrants
    | ReadUsage(grant: GrantId)
    | ReadTier(grant: GrantId, row: Usage, seen: Store)
    | Answered(report: Result<Entitlement, QuotaError>, seen: Store)
    | Dead

  datatype Tx = Tx(user: UserId, at: Instant, pc: Pc)

  /** One committed charge. */
  datatype Entry = Entry(user: UserId, at: Instant, grant: GrantId)

  /** `initial` and `log` are history: the rows the system started from and the charges committed since. */
  datatype State = State(
    initial: Store,
    store: Store,
    txs: seq<Tx>,
    grantLock: map<GrantId, nat>,
    usageLock: map<GrantId, nat>,
    log: seq<Entry>)

  datatype Event =
    | Advance(t: nat)
    | Crash(t: nat)
    | BeginCharge(user: UserId, at: Instant)
    | BeginSync(user: UserId, at: Instant)

  predicate IsCharge(pc: Pc) {
    pc.Locking? || pc.WantUsage? || pc.Holding? || pc.Charged? || pc.Finished?
  }

  predicate Ended(pc: Pc) {
    pc.Finished? || pc.Answered? || pc.Dead?
  }

  predicate HeldByOther(locks: map<GrantId, nat>, g: GrantId, t: nat) {
    g in locks && locks[g] != t
  }

  predicate Holds(locks: map<GrantId, nat>, g: GrantId, t: nat) {
    g in locks && locks[g] == t
  }

  function Release(locks: map<GrantId, nat>, t: nat): map<GrantId, nat> {
    map g | g in locks && locks[g] != t :: locks[g]
  }

  function Goto(s: State, t: nat, pc: Pc): State
    requires t < |s.txs|
  {
    s.(txs := s.txs[t := s.txs[t].(pc := pc)])
  }

  /** Commit or rollback: every row lock of the transaction goes. */
  function End(s: State, t: nat, pc: Pc): State
    requires t < |s.txs|
  {
    Goto(s, t, pc).(grantLock := Release(s.grantLock, t), usageLock := Release(s.usageLock, t))
  }

  /** `lock_effective_grants`: a snapshot of the effective grants, then their row locks one by one,
      ascending by id, each waiting for its holder; then the count is judged. */
  function LockGrants(s: State, t: nat): Option<State>
    requires t < |s.txs| && s.txs[t].pc.Locking?
  {
    var tx := s.txs[t];
    match tx.pc.todo
    case None => Some(Goto(s, t, Locking(Some(EffectiveGrants(s.store, tx.user, tx.at)), [])))
    case Some(todo) =>
      if todo != [] then
        if HeldByOther(s.grantLock, todo[0], t) then None
        else Some(Goto(s, t, Locking(Some(todo[1..]), tx.pc.got + [todo[0]]))
                  .(grantLock := s.grantLock[todo[0] := t]))
      else if |tx.pc.got| == 0 then Some(End(s, t, Finished(Failure(NoEffectiveGrant))))
      else if |tx.pc.got| > 1 then Some(End(s, t, Finished(Failure(MultipleEffectiveGrants(|tx.pc.got|)))))
      else Some(Goto(s, t, WantUsage(tx.pc.got[0])))
  }

  /** `lock_usage`: the row as it is committed once the lock is granted, rolled over in memory. */
  function LockUsage(s: State, t: nat): Option<State>
    requires t < |s.txs| && s.txs[t].pc.WantUsage?
  {
    var g := s.txs[t].pc.grant;
    if g !in s.store.usage then Some(End(s, t, Finished(Failure(MissingUsageRow(g)))))
    else if HeldByOther(s.usageLock, g, t) then None
    else Some(Goto(s, t, Holding(g, Roll(s.store.usage[g], s.txs[t].at))).(usageLock := s.usageLock[g := t]))
  }

  /** The allowance, the comparison and the increment. */
  function Decide(s: State, t: nat): Option<State>
    requires t < |s.txs| && s.txs[t].pc.Holding?
  {
    var tx := s.txs[t];
    var g := tx.pc.grant;
    if g !in s.store.grants then None
    else
      var tier := s.store.grants[g].tier;
      if tier !in s.store.tiers then Some(End(s, t, Finished(Failure(UnknownTier(tier)))))
      else if Remaining(s.store.tiers[tier], tx.pc.row.used) == 0 then
        Some(End(s, t, Finished(Failure(AllowanceExhausted))))
      else Some(Goto(s, t, Charged(g, tx.pc.row.(used := tx.pc.row.used + 1, updatedAt := tx.at))))
  }

  /** `max(allowance - used, 0)`. */
  function Remaining(allowance: nat, used: nat): nat {
    if allowance >= used then allowance - used else 0
  }

  function CommitCharge(s: State, t: nat): State
    requires t < |s.txs| && s.txs[t].pc.Charged?
  {
    var tx := s.txs[t];
    End(s, t, Finished(Success(())))
    .(store := s.store.(usage := s.store.usage[tx.pc.grant := tx.pc.row]),
      log := s.log + [Entry(tx.user, tx.at, tx.pc.grant)])
  }

  /** The three reads of a sync, each on the rows committed at its own moment. */
  function SyncGrants(s: State, t: nat): State
    requires t < |s.txs|
  {
    var tx := s.txs[t];
    var grants := EffectiveGrants(s.store, tx.user, tx.at);
    if |grants| == 0 then Goto(s, t, Answered(Success(NoEntitlement(PeriodOf(tx.at))), s.store))
    else if |grants| > 1 then Goto(s, t, Answered(Failure(MultipleEffectiveGrants(|grants|)), s.store))
    else Goto(s, t, ReadUsage(grants[0]))
  }

  function SyncUsage(s: State, t: nat): State
    requires t < |s.txs| && s.txs[t].pc.ReadUsage?
  {
    var g := s.txs[t].pc.grant;
    if g in s.store.usage then Goto(s, t, ReadTier(g, s.store.usage[g], s.store))
    else Goto(s, t, Answered(Failure(MissingUsageRow(g)), s.store))
  }

  function SyncTier(s: State, t: nat): Option<State>
    requires t < |s.txs| && s.txs[t].pc.ReadTier?
  {
    var tx := s.txs[t];
    var g := tx.pc.grant;
    if g !in s.store.grants then None
    else
      var tier := s.store.grants[g].tier;
      if tier in s.store.tiers then
        Some(Goto(s, t, Answered(Success(ReportOf(s.store.grants[g], tx.pc.row, s.store.tiers[tier], tx.at)), tx.pc.seen)))
      else Some(Goto(s, t, Answered(Failure(UnknownTier(tier)), tx.pc.seen)))
  }

  /** The next step of transaction `t`; `None` when it has ended or waits for a lock. */
  function Step(s: State, t: nat): Option<State>
    requires t < |s.txs|
  {
    match s.txs[t].pc
    case Locking(_, _) => LockGrants(s, t)
    case WantUsage(_) => LockUsage(s, t)
    case Holding(_, _) => Decide(s, t)
    case Charged(_, _) => Some(CommitCharge(s, t))
    case ReadGrants => Some(SyncGrants(s, t))
    case ReadUsage(_) => Some(SyncUsage(s, t))
    case ReadTier(_, _, _) => SyncTier(s, t)
    case _ => None
  }

  function Next(s: State, e: Event): Option<State> {
    match e
    case Advance(t) => if t < |s.txs| then Step(s, t) else None
    case Crash(t) => if t < |s.txs| && !Ended(s.txs[t].pc) then Some(End(s, t, Dead)) else None
    case BeginCharge(user, at) => Some(s.(txs := s.txs + [Tx(user, at, Locking(None, []))]))
    case BeginSync(user, at) => Some(s.(txs := s.txs + [Tx(user, at, ReadGrants)]))
  }

  ghost predicate Init(s: State) {
    s.store == s.initial && s.txs == [] && s.grantLock == map[] && s.usageLock == map[] && s.log == []
  }

  ghost predicate Successor(s: State, s': State) {
    exists e :: Next(s, e) == Some(s')
  }

  ghost predicate StepsAt(run: seq<State>, k: int)
    requires 0 <= k < |run| - 1
  {
    Successor(run[k], run[k + 1])
  }

  ghost predicate Run(run: seq<State>) {
    && |run| > 0 && Init(run[0])
    && forall k :: 0 <= k < |run| - 1 ==> StepsAt(run, k)
  }

  ghost predicate Reachable(s: State) {
    exists run :: Run(run) && run[|run| - 1] == s
  }

  /** The charges committed on one grant, as the instants they were captured at, in commit order. */
  function HistoryOf(log: seq<Entry>, g: GrantId): seq<Instant> {
    if log == [] then []
    else
      var last := log[|log| - 1];
      HistoryOf(log[..|log| - 1], g) + if last.grant == g then [last.at] else []
  }

  /** The log as one atomic charge after another; `None` once a charge would have been refused. */
  function Serial(initial: Store, log: seq<Entry>): Option<Store> {
    if log == [] then Some(initial)
    else
      var last := log[|log| - 1];
      var before := Serial(initial, log[..|log| - 1]);
      if before.None? then None
      else
        match ChargeOutcome(before.value, last.user, last.at)
        case Success(after) => Some(after)
        case Failure(_) => None
  }
}
