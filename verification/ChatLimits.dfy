/** The limits on chats and answers, exactly: they are checked before a request queues and used when it
    stores, so they hold in every run in which no two requests of a kind are in flight together, and in no
    larger class of runs. */
module ChatLimits {
  import opened Wrappers
  import opened ChatMachine
  import opened ChatInvariant
  import opened ChatTheorems
  import opened ChatStorage
  import opened ChatProgress
  import opened ChatRuns
  import B = Breaker
  import G = Gate
  import R = Retry
  import M = QuotaModel
  import Q = QuotaMachine
  import QR = QuotaRuns

  // ----- Two requests whose checks overlap -----

  /** A system at rest with these chats, and two credits for user 0. */
  function AtRest(c: Config, chats: map<ChatId, Chat>): State {
    var store := QR.OneGrant(QR.FRESH_ROW, 2);
    State(B.CLOSED, [], 0.0, G.Room(c.poolSize + c.queueSize, c.poolSize),
          Q.State(store, store, [], map[], map[], []), chats, [])
  }

  /** Request `i` has passed its check and nothing stands in its way. */
  ghost predicate Ready(c: Config, s: State, i: nat, kind: Kind) {
    && At(s, i, Checked) && s.requests[i].user == 0 && s.requests[i].at == QR.AUGUST && s.requests[i].kind == kind
    && s.requests[i].chat.Some? && (kind.Send? <==> s.requests[i].chat.value in s.chats)
    && (kind.Send? ==> s.requests[i].chat == Some(kind.to))
  }

  /** The system lets one in at once, and has charged user 0 so many times. */
  ghost predicate Open(c: Config, s: State, charged: nat) {
    && Reachable(c, s) && Idle(s) && s.breaker.openedAt.None?
    && s.gate == G.Room(c.poolSize + c.queueSize, c.poolSize)
    && s.quota.store.grants == QR.OneGrant(QR.FRESH_ROW, 2).grants
    && s.quota.store.tiers == QR.OneGrant(QR.FRESH_ROW, 2).tiers
    && s.quota.store.usage.Keys == {0} && s.quota.store.usage[0].period == "2026-08" && s.quota.store.usage[0].used == charged
  }

  /** Two requests of a kind arrive, and each passes its check before the other stores anything. */
  lemma TwoChecked(c: Config, chats: map<ChatId, Chat>, kind: Kind) returns (s: State)
    requires ValidConfig(c) && ServiceCheck(c, chats, 0, kind).None?
    ensures Goes(c, AtRest(c, chats), s) && Open(c, s, 0) && s.chats == chats && |s.requests| == 2
    ensures Ready(c, s, 0, kind) && Ready(c, s, 1, kind)
    ensures kind.Create? ==> s.requests[0].chat != s.requests[1].chat
  {
    var s0 := AtRest(c, chats);
    ReachableInit(c, s0);
    GoesNowhere(c, s0);
    var e := Arrive(0, QR.AUGUST, kind);
    var s1 := Next(c, s0, e).value;
    GoesStep(c, s0, s0, s1, e);
    var s2 := Next(c, s1, e).value;
    GoesStep(c, s0, s1, s2, e);
    var first := SomeIdIsUnused(s2);
    var s3 := SoloCheck(c, s2, 0, first);
    GoesOn(c, s0, s2, s3);
    var second := SomeIdIsUnused(s3);
    s := SoloCheck(c, s3, 1, second);
    GoesOn(c, s0, s3, s);
    ReachableGoes(c, s0, s);
  }

  const GOOD: seq<R.Outcome<Reply>> := [R.Returned(AnalyzeMode(true))]

  lemma GoodStops(c: Config)
    requires ValidConfig(c)
    ensures R.Stops(GOOD, c.maxAttempts, 1) && EndsAs(GOOD[0], Ok)
  {}

  lemma CreditLeft(s: M.Store, charged: nat)
    requires s.grants == QR.OneGrant(QR.FRESH_ROW, 2).grants && s.tiers == QR.OneGrant(QR.FRESH_ROW, 2).tiers
    requires s.usage.Keys == {0} && s.usage[0].period == "2026-08" && s.usage[0].used == charged < 2
    ensures M.ChargeOutcome(s, 0, QR.AUGUST).Success?
    ensures var after := M.ChargeOutcome(s, 0, QR.AUGUST).value;
            && after.grants == s.grants && after.tiers == s.tiers
            && after.usage.Keys == {0} && after.usage[0].period == "2026-08" && after.usage[0].used == charged + 1
  {
    QR.OneIsEffective(s, QR.FRESH_ROW, 2, QR.AUGUST);
    assert M.PeriodOf(QR.AUGUST) == "2026-08";
  }

  /** One of them is served, alone. */
  lemma ServeOne(c: Config, s: State, i: nat, kind: Kind, charged: nat) returns (s': State)
    requires ValidConfig(c) && Open(c, s, charged) && charged < 2 && Ready(c, s, i, kind)
    ensures Goes(c, s, s') && Open(c, s', charged + 1) && Beside(s, s', i)
    ensures Appended(s.chats, s'.chats, s.requests[i])
  {
    GoodStops(c);
    CreditLeft(s.quota.store, charged);
    s' := SoloAnswered(c, s, i, GOOD, 1);
    ReachableGoes(c, s, s');
  }

  /** Both are served, one after the other, and both store. */
  lemma BothStore(c: Config, chats: map<ChatId, Chat>, kind: Kind) returns (s: State, mid: map<ChatId, Chat>, a: Request, b: Request)
    requires ValidConfig(c) && ServiceCheck(c, chats, 0, kind).None?
    ensures Goes(c, AtRest(c, chats), s) && |s.requests| == 2
    ensures a.chat.Some? && b.chat.Some? && a.kind == kind && b.kind == kind && a.user == 0 && b.user == 0
    ensures kind.Send? ==> a.chat == Some(kind.to) && b.chat == Some(kind.to)
    ensures Appended(chats, mid, a) && Appended(mid, s.chats, b)
  {
    var s0 := AtRest(c, chats);
    var s1 := TwoChecked(c, chats, kind);
    a, b := s1.requests[0], s1.requests[1];
    var s2 := ServeOne(c, s1, 0, kind, 0);
    mid := s2.chats;
    if kind.Create? {
      AppendedOthers(chats, mid, a, b.chat.value);
    }
    s := ServeOne(c, s2, 1, kind, 1);
    GoesOn(c, s0, s1, s2);
    GoesOn(c, s0, s2, s);
  }

  // ----- No more requests than there are -----

  lemma StepsAddRequests(c: Config, s: State, s': State)
    requires Successor(c, s, s')
    ensures |s.requests| <= |s'.requests|
  {
    var e :| Next(c, s, e) == Some(s');
    if Plain(e) {
      PlainMoves(c, s, s', e);
    }
  }

  lemma {:induction false} FewRequests(c: Config, path: seq<State>, j: nat, k: nat)
    requires Path(c, path) && j <= k < |path|
    ensures |path[j].requests| <= |path[k].requests|
    decreases k
  {
    if j < k {
      FewRequests(c, path, j, k - 1);
      assert StepsAt(c, path, k - 1);
      StepsAddRequests(c, path[k - 1], path[k]);
    }
  }

  lemma {:induction false} AtMostOneEach(rs: seq<Request>, w: Request -> nat)
    requires forall r :: w(r) <= 1
    ensures Sum(rs, w) <= |rs|
  {
    if rs != [] { AtMostOneEach(rs[..|rs| - 1], w); }
  }

  /** The run behind a way from rest that ends with two requests: never more than two are in flight. */
  lemma RunOfTwo(c: Config, s0: State, s: State, w: Request -> nat, m: nat) returns (run: seq<State>)
    requires ValidConfig(c) && Init(c, s0) && Goes(c, s0, s) && |s.requests| == 2 && m >= 2
    requires forall r :: w(r) <= 1
    ensures Run(c, run) && run[0] == s0 && run[|run| - 1] == s && AtMost(run, w, m)
  {
    run :| Path(c, run) && run[0] == s0 && run[|run| - 1] == s;
    forall j | 0 <= j < |run| ensures Sum(run[j].requests, w) <= m {
      FewRequests(c, run, j, |run| - 1);
      AtMostOneEach(run[j].requests, w);
    }
  }

  // ----- The limit on chats -----

  /** So many chats of user 0. */
  function ManyChats(n: nat): (chats: map<ChatId, Chat>)
    ensures forall x: ChatId :: x in chats <==> x < n
    ensures forall x :: x in chats ==> chats[x] == Chat(0, [])
  {
    if n == 0 then map[] else ManyChats(n - 1)[n - 1 := Chat(0, [])]
  }

  lemma {:induction false} CountManyChats(n: nat)
    ensures |ChatsOf(ManyChats(n), 0)| == n
  {
    if n == 0 {
      assert ChatsOf(ManyChats(0), 0) == {};
    } else {
      CountManyChats(n - 1);
      assert ChatsOf(ManyChats(n), 0) == ChatsOf(ManyChats(n - 1), 0) + {n - 1};
    }
  }

  /** Two creations of one user, checked with room for one, go over the limit. */
  lemma TwoCreationsExceed(c: Config, m: nat) returns (run: seq<State>)
    requires ValidConfig(c) && m >= 2
    ensures Run(c, run) && AtMost(run, CreatingFor(0), m)
    ensures |ChatsOf(run[0].chats, 0)| <= c.chatsLimit < |ChatsOf(run[|run| - 1].chats, 0)|
  {
    var chats := ManyChats(c.chatsLimit - 1);
    CountManyChats(c.chatsLimit - 1);
    var s, mid, a, b := BothStore(c, chats, Create(""));
    AppendedChats(chats, mid, a, 0);
    AppendedChats(mid, s.chats, b, 0);
    run := RunOfTwo(c, AtRest(c, chats), s, CreatingFor(0), m);
  }

  /** Whoever starts within the limit on chats, with at most `m` creations of the user ever in flight
      together, ends within it. */
  ghost predicate ChatsKept(c: Config, m: nat) {
    forall run: seq<State>, user: M.UserId ::
      Run(c, run) && |ChatsOf(run[0].chats, user)| <= c.chatsLimit && AtMost(run, CreatingFor(user), m)
      ==> |ChatsOf(run[|run| - 1].chats, user)| <= c.chatsLimit
  }

  /** The limit on a user's chats holds exactly when the user's creations are one at a time. */
  lemma ChatsLimitExactly(c: Config, m: nat)
    requires ValidConfig(c)
    ensures ChatsKept(c, m) <==> m <= 1
  {
    if m <= 1 {
      forall run: seq<State>, user: M.UserId |
        Run(c, run) && |ChatsOf(run[0].chats, user)| <= c.chatsLimit && AtMost(run, CreatingFor(user), m)
        ensures |ChatsOf(run[|run| - 1].chats, user)| <= c.chatsLimit
      {
        ChatsWithin(c, run, |run| - 1, user, 1);
      }
    } else {
      var run := TwoCreationsExceed(c, m);
    }
  }

  // ----- The limit on answers -----

  function ManyAnswers(n: nat): seq<Role> {
    if n == 0 then [] else ManyAnswers(n - 1) + [Ai]
  }

  lemma {:induction false} CountManyAnswers(n: nat)
    ensures AiMessages(ManyAnswers(n)) == n
  {
    if n > 0 {
      CountManyAnswers(n - 1);
      assert (ManyAnswers(n - 1) + [Ai])[..|ManyAnswers(n - 1)|] == ManyAnswers(n - 1);
    }
  }

  /** Two messages to one chat, checked with room for one answer, go over the limit. */
  lemma TwoMessagesExceed(c: Config, m: nat) returns (run: seq<State>)
    requires ValidConfig(c) && m >= 2
    ensures Run(c, run) && AtMost(run, WorkingOn(0), m)
    ensures AnswersIn(run[0].chats, 0) <= c.messagesLimit < AnswersIn(run[|run| - 1].chats, 0)
  {
    var chats: map<ChatId, Chat> := map[0 := Chat(0, ManyAnswers(c.messagesLimit - 1))];
    CountManyAnswers(c.messagesLimit - 1);
    var s, mid, a, b := BothStore(c, chats, Send(0));
    AppendedAnswers(chats, mid, a, 0);
    AppendedAnswers(mid, s.chats, b, 0);
    run := RunOfTwo(c, AtRest(c, chats), s, WorkingOn(0), m);
  }

  ghost predicate AnswersKept(c: Config, m: nat) {
    forall run: seq<State>, chat: ChatId ::
      Run(c, run) && AnswersIn(run[0].chats, chat) <= c.messagesLimit && AtMost(run, WorkingOn(chat), m)
      ==> AnswersIn(run[|run| - 1].chats, chat) <= c.messagesLimit
  }

  /** The limit on a chat's answers holds exactly when the requests on the chat are one at a time. */
  lemma AnswersLimitExactly(c: Config, m: nat)
    requires ValidConfig(c)
    ensures AnswersKept(c, m) <==> m <= 1
  {
    if m <= 1 {
      forall run: seq<State>, chat: ChatId |
        Run(c, run) && AnswersIn(run[0].chats, chat) <= c.messagesLimit && AtMost(run, WorkingOn(chat), m)
        ensures AnswersIn(run[|run| - 1].chats, chat) <= c.messagesLimit
      {
        AnswersWithin(c, run, |run| - 1, chat, 1);
      }
    } else {
      var run := TwoMessagesExceed(c, m);
    }
  }
}
