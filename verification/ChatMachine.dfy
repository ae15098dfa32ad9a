/** Message requests from service check to stored answer: breaker, gate, quota charge, retried provider
    calls and persistence, interleaved, with a crash or a cancellation possible wherever a request waits. */
module ChatMachine {
  import opened Wrappers
  import B = Breaker
  import G = Gate
  import R = Retry
  import M = QuotaModel
  import Q = QuotaMachine

  type ChatId = nat

  datatype Role = Human | Ai

  datatype Chat = Chat(user: M.UserId, messages: seq<Role>)

  datatype Config = Config(
    limits: B.Limits,
    poolSize: nat,
    queueSize: nat,
    maxAttempts: nat,
    messagesLimit: nat,
    chatsLimit: nat,
    languages: set<string>)

  ghost predicate ValidConfig(c: Config) {
    && B.ValidLimits(c.limits) && c.poolSize >= 1 && c.queueSize >= 1 && c.maxAttempts >= 1
    && c.messagesLimit >= 1 && c.chatsLimit >= 1
  }

  datatype ServiceError = UnsupportedLanguage | ChatHistoryLimit | InvalidChat

  datatype Kind = Create(lang: string) | Send(to: ChatId)

  /** The `resolved_mode` of an answer, and whether its model validates. */
  datatype Reply = RejectMode | AnalyzeMode(valid: bool) | FollowUpMode(valid: bool) | OtherMode

  datatype Ending =
    | ServiceRefused(error: ServiceError)
    | CircuitOpen(retryAfter: int)
    | QueueFull
    | QuotaRefused(refusal: M.QuotaError)
    | ProviderFailed
    | OperationRefused
    | Unusable
    | Aborted
    | Ok

  datatype Stage =
    | Arrived
    | Checked
    | Passed
    | Waiting
    | Admitted
    | Charging(tx: nat)
    | Charged
    | Calling
    | Retrying
    | Answered(reply: Reply)
    | Leaving(end: Ending)
    | Released(end: Ending)
    | Persisting
    | Done(end: Ending)

  /** `chat` is the chat it works on, known once its checks have passed; `charge` is the position of its own
      committed charge, `calls` counts its provider calls and `outcomes` is how those that ended did. */
  datatype Request = Request(
    user: M.UserId,
    at: M.Instant,
    kind: Kind,
    chat: Option<ChatId>,
    stage: Stage,
    charge: Option<nat>,
    calls: nat,
    outcomes: seq<R.Outcome<Reply>>)

  function NewRequest(user: M.UserId, at: M.Instant, kind: Kind): Request {
    Request(user, at, kind, None, Arrived, None, 0, [])
  }

  /** `log` is the breaker's history. */
  datatype State = State(
    breaker: B.Breaker,
    log: seq<B.Event>,
    clock: real,
    gate: G.Room,
    quota: Q.State,
    chats: map<ChatId, Chat>,
    requests: seq<Request>)

  datatype Event =
    | Arrive(user: M.UserId, at: M.Instant, kind: Kind)
    | Check(i: nat, drawn: ChatId)
    | BeforeCall(i: nat, now: real)
    | Enter(i: nat)
    | Acquire(i: nat)
    | BeginCharge(i: nat)
    | Charge(i: nat)
    | ChargeDies(i: nat)
    | Call(i: nat)
    | Conclude(i: nat, now: real, outcome: R.Outcome<Reply>)
    | Judge(i: nat)
    | Abort(i: nat)
    | ReleasePermit(i: nat)
    | ReleaseSlot(i: nat)
    | Persist(i: nat)
    | Delete(user: M.UserId, chat: ChatId)
    | Sync(e: Q.Event)

  function Goto(s: State, i: nat, stage: Stage): State
    requires i < |s.requests|
  {
    s.(requests := s.requests[i := s.requests[i].(stage := stage)])
  }

  function AiMessages(messages: seq<Role>): nat {
    if messages == [] then 0
    else AiMessages(messages[..|messages| - 1]) + if messages[|messages| - 1] == Ai then 1 else 0
  }

  function ChatsOf(chats: map<ChatId, Chat>, user: M.UserId): set<ChatId> {
    set c | c in chats && chats[c].user == user
  }

  /** The checks that open `create_chat` and `send_message`. */
  function ServiceCheck(c: Config, chats: map<ChatId, Chat>, user: M.UserId, kind: Kind): Option<ServiceError> {
    match kind
    case Create(lang) =>
      if lang != "" && lang !in c.languages then Some(UnsupportedLanguage)
      else if |ChatsOf(chats, user)| >= c.chatsLimit then Some(ChatHistoryLimit)
      else None
    case Send(chat) =>
      if chat !in chats || chats[chat].user != user then Some(InvalidChat)
      else if AiMessages(chats[chat].messages) + 1 > c.messagesLimit then Some(ChatHistoryLimit)
      else None
  }

  /** Nobody has the identifier: no stored chat, and no request that works on one. */
  predicate Unused(s: State, id: ChatId) {
    id !in s.chats && forall i :: 0 <= i < |s.requests| ==> s.requests[i].chat != Some(id)
  }

  /** The checks; a creation that passes them draws its chat's identifier. */
  function DoCheck(c: Config, s: State, i: nat, drawn: ChatId): State
    requires i < |s.requests|
  {
    var r := s.requests[i];
    match ServiceCheck(c, s.chats, r.user, r.kind)
    case Some(e) => Goto(s, i, Done(ServiceRefused(e)))
    case None =>
      s.(requests := s.requests[i := r.(stage := Checked, chat := Some(if r.kind.Create? then drawn else r.kind.to))])
  }

  /** `before_call`, at a clock reading not before the last one. */
  function DoBeforeCall(c: Config, s: State, i: nat, now: real): State
    requires i < |s.requests| && s.clock <= now
  {
    var stage := if B.Refuses(s.breaker, c.limits, now) then Done(CircuitOpen(B.RetryAfter(s.breaker, c.limits, now))) else Passed;
    Goto(s, i, stage)
    .(breaker := B.Step(s.breaker, c.limits, B.Check(now)), log := s.log + [B.Check(now)], clock := now)
  }

  function DoEnter(s: State, i: nat): State
    requires i < |s.requests|
  {
    match G.TakeSlot(s.gate)
    case None => Goto(s, i, Done(QueueFull))
    case Some(gate) => Goto(s, i, Waiting).(gate := gate)
  }

  function DoAcquire(s: State, i: nat): Option<State>
    requires i < |s.requests|
  {
    match G.TakePermit(s.gate)
    case None => None
    case Some(gate) => Some(Goto(s, i, Admitted).(gate := gate))
  }

  function DoBeginCharge(s: State, i: nat): State
    requires i < |s.requests|
  {
    var r := s.requests[i];
    Goto(s, i, Charging(|s.quota.txs|))
    .(quota := s.quota.(txs := s.quota.txs + [NewCharge(r.user, r.at)]))
  }

  function NewCharge(user: M.UserId, at: M.Instant): Q.Tx {
    Q.Tx(user, at, Q.Locking(None, []))
  }

  /** One step of the charge transaction; its end moves the request on. */
  function DoCharge(s: State, i: nat): Option<State>
    requires i < |s.requests| && s.requests[i].stage.Charging?
  {
    var t := s.requests[i].stage.tx;
    if t >= |s.quota.txs| then None
    else
      match Q.Step(s.quota, t)
      case None => None
      case Some(quota) => Some(AfterChargeStep(s, i, t, quota))
  }

  function AfterChargeStep(s: State, i: nat, t: nat, quota: Q.State): State
    requires i < |s.requests|
  {
    var moved := s.(quota := quota);
    if t >= |quota.txs| || !quota.txs[t].pc.Finished? then moved
    else
      match quota.txs[t].pc.outcome
      case Failure(e) => Goto(moved, i, Leaving(QuotaRefused(e)))
      case Success(_) =>
        moved.(requests := s.requests[i := s.requests[i].(stage := Charged, charge := Some(|s.quota.log|))])
  }

  function DoChargeDies(s: State, i: nat): Option<State>
    requires i < |s.requests| && s.requests[i].stage.Charging?
  {
    match Q.Next(s.quota, Q.Crash(s.requests[i].stage.tx))
    case None => None
    case Some(quota) => Some(Goto(s.(quota := quota), i, Leaving(Aborted)))
  }

  /** One provider call goes out. */
  function DoCall(s: State, i: nat): State
    requires i < |s.requests|
  {
    s.(requests := s.requests[i := s.requests[i].(stage := Calling, calls := s.requests[i].calls + 1)])
  }

  /** The breaker event of an attempt, if it makes one. */
  function EventOf(outcome: R.Outcome<Reply>, now: real, i: nat): Option<B.Event> {
    match outcome
    case Returned(_) => Some(B.Succeed(i))
    case Raised(_) => Some(B.Fail(now, i))
    case Bypassed => None
    case Cancelled => None
  }

  /** Where a request goes after an attempt: on, again while attempts are left, or out. */
  function StageAfter(outcome: R.Outcome<Reply>, calls: nat, maxAttempts: nat): Stage {
    match R.Triage(outcome)
    case Value(reply) => Answered(reply)
    case Transient(_) => if calls < maxAttempts then Retrying else Leaving(ProviderFailed)
    case Permanent(_) => Leaving(ProviderFailed)
    case PassedThrough => Leaving(OperationRefused)
    case Abandoned => Leaving(Aborted)
  }

  function DoConclude(c: Config, s: State, i: nat, now: real, outcome: R.Outcome<Reply>): State
    requires i < |s.requests| && s.clock <= now
  {
    var r := s.requests[i].(stage := StageAfter(outcome, s.requests[i].calls, c.maxAttempts),
                            outcomes := s.requests[i].outcomes + [outcome]);
    var moved := s.(requests := s.requests[i := r], clock := now);
    match EventOf(outcome, now, i)
    case None => moved
    case Some(e) => moved.(breaker := B.Step(s.breaker, c.limits, e), log := s.log + [e])
  }

  /** `ask_llm` after the call: the mode and the validation. */
  function Verdict(reply: Reply): Ending {
    match reply
    case AnalyzeMode(valid) => if valid then Ok else Unusable
    case FollowUpMode(valid) => if valid then Ok else Unusable
    case RejectMode => Unusable
    case OtherMode => Unusable
  }

  /** What an exception or a cancellation does to a request that is not inside the charge. */
  function DoAbort(s: State, i: nat): Option<State>
    requires i < |s.requests|
  {
    match s.requests[i].stage
    case Arrived | Checked | Passed | Persisting => Some(Goto(s, i, Done(Aborted)))
    case Waiting => Some(Goto(s, i, Released(Aborted)))
    case Admitted | Charged | Calling | Retrying | Answered(_) => Some(Goto(s, i, Leaving(Aborted)))
    case _ => None
  }

  function DoReleaseSlot(c: Config, s: State, i: nat): State
    requires i < |s.requests| && s.requests[i].stage.Released?
  {
    var end := s.requests[i].stage.end;
    Goto(s, i, if end == Ok then Persisting else Done(end)).(gate := G.GiveSlot(s.gate, c.poolSize + c.queueSize))
  }

  /** The two messages of a request; a chat deleted meanwhile makes the insert fail, as a chat stored twice
      would. */
  function DoPersist(s: State, i: nat): State
    requires i < |s.requests|
  {
    var r := s.requests[i];
    match r.chat
    case None => Goto(s, i, Done(Aborted))
    case Some(chat) =>
      if r.kind.Create? == (chat in s.chats) then Goto(s, i, Done(Aborted))
      else
        var before := if r.kind.Create? then Chat(r.user, []) else s.chats[chat];
        Goto(s, i, Done(Ok)).(chats := s.chats[chat := before.(messages := before.messages + [Human, Ai])])
  }

  /** Sync transactions run beside the requests; a charge is only ever moved by its own request. */
  function DoSync(s: State, e: Q.Event): Option<State> {
    var allowed :=
      match e
      case BeginSync(_, _) => true
      case Advance(t) => t < |s.quota.txs| && !Q.IsCharge(s.quota.txs[t].pc)
      case Crash(t) => t < |s.quota.txs| && !Q.IsCharge(s.quota.txs[t].pc)
      case BeginCharge(_, _) => false;
    if !allowed then None
    else
      match Q.Next(s.quota, e)
      case None => None
      case Some(quota) => Some(s.(quota := quota))
  }

  /** A deletion, of a chat of one's own. */
  function DoDelete(s: State, user: M.UserId, chat: ChatId): State {
    if chat in s.chats && s.chats[chat].user == user then s.(chats := s.chats - {chat}) else s
  }

  predicate At(s: State, i: nat, stage: Stage) {
    i < |s.requests| && s.requests[i].stage == stage
  }

  function Next(c: Config, s: State, e: Event): Option<State> {
    match e
    case Arrive(user, at, kind) =>
      Some(s.(requests := s.requests + [NewRequest(user, at, kind)]))
    case Check(i, drawn) => if At(s, i, Arrived) && Unused(s, drawn) then Some(DoCheck(c, s, i, drawn)) else None
    case BeforeCall(i, now) => if At(s, i, Checked) && s.clock <= now then Some(DoBeforeCall(c, s, i, now)) else None
    case Enter(i) => if At(s, i, Passed) then Some(DoEnter(s, i)) else None
    case Acquire(i) => if At(s, i, Waiting) then DoAcquire(s, i) else None
    case BeginCharge(i) => if At(s, i, Admitted) then Some(DoBeginCharge(s, i)) else None
    case Charge(i) => if i < |s.requests| && s.requests[i].stage.Charging? then DoCharge(s, i) else None
    case ChargeDies(i) => if i < |s.requests| && s.requests[i].stage.Charging? then DoChargeDies(s, i) else None
    case Call(i) => if At(s, i, Charged) || At(s, i, Retrying) then Some(DoCall(s, i)) else None
    case Conclude(i, now, outcome) =>
      if At(s, i, Calling) && s.clock <= now then Some(DoConclude(c, s, i, now, outcome)) else None
    case Judge(i) =>
      if i < |s.requests| && s.requests[i].stage.Answered? then Some(Goto(s, i, Leaving(Verdict(s.requests[i].stage.reply)))) else None
    case Abort(i) => if i < |s.requests| then DoAbort(s, i) else None
    case ReleasePermit(i) =>
      if i < |s.requests| && s.requests[i].stage.Leaving?
      then Some(Goto(s, i, Released(s.requests[i].stage.end)).(gate := G.GivePermit(s.gate))) else None
    case ReleaseSlot(i) => if i < |s.requests| && s.requests[i].stage.Released? then Some(DoReleaseSlot(c, s, i)) else None
    case Persist(i) => if At(s, i, Persisting) then Some(DoPersist(s, i)) else None
    case Delete(user, chat) => Some(DoDelete(s, user, chat))
    case Sync(q) => DoSync(s, q)
  }

  ghost predicate Init(c: Config, s: State) {
    && s.breaker == B.CLOSED && s.log == []
    && s.gate == G.Room(c.poolSize + c.queueSize, c.poolSize)
    && Q.Init(s.quota) && s.requests == []
  }

  ghost predicate Successor(c: Config, s: State, s': State) {
    exists e :: Next(c, s, e) == Some(s')
  }

  ghost predicate StepsAt(c: Config, run: seq<State>, k: int)
    requires 0 <= k < |run| - 1
  {
    Successor(c, run[k], run[k + 1])
  }

  ghost predicate Run(c: Config, run: seq<State>) {
    && ValidConfig(c) && |run| > 0 && Init(c, run[0])
    && forall k :: 0 <= k < |run| - 1 ==> StepsAt(c, run, k)
  }

  ghost predicate Reachable(c: Config, s: State) {
    exists run :: Run(c, run) && run[|run| - 1] == s
  }
}
