/** What runs do to the stored chats: who writes, what every stored answer was paid with, and when the limits
    on chats and answers hold, although they are checked in one statement and used in another. */
module ChatStorage {
  import opened Wrappers
  import opened ChatMachine
  import opened ChatInvariant
  import opened ChatTheorems
  import M = QuotaModel

  /** Only persistence writes messages, and it writes one question and one answer to one chat. */
  lemma OnlyPersistWrites(c: Config, s: State, s': State, e: Event)
    requires Next(c, s, e) == Some(s') && !e.Delete? && s'.chats != s.chats
    ensures e.Persist? && At(s', e.i, Done(Ok)) && s.requests[e.i].stage == Persisting
    ensures s.requests[e.i].chat.Some? && Appended(s.chats, s'.chats, s.requests[e.i])
  {}

  /** One question and one answer more in the chat the request works on, and nothing else. */
  ghost predicate Appended(chats: map<ChatId, Chat>, chats': map<ChatId, Chat>, r: Request)
    requires r.chat.Some?
  {
    var chat := r.chat.value;
    && chat in chats' && chats' - {chat} == chats - {chat}
    && (chat in chats <==> r.kind.Send?)
    && chats'[chat].user == (if r.kind.Create? then r.user else chats[chat].user)
    && chats'[chat].messages == (if r.kind.Create? then [] else chats[chat].messages) + [Human, Ai]
  }

  lemma PersistAppends(s: State, s': State, i: nat)
    requires i < |s.requests| && s' == DoPersist(s, i) && At(s', i, Done(Ok))
    ensures s.requests[i].chat.Some? && s'.requests[i].chat == s.requests[i].chat
    ensures Appended(s.chats, s'.chats, s.requests[i])
  {}

  /** Nobody works on a chat before the checks. */
  predicate Undrawn(rs: seq<Request>) {
    forall i :: 0 <= i < |rs| && rs[i].stage.Arrived? ==> rs[i].chat.None?
  }

  lemma RunUndrawn(c: Config, run: seq<State>, k: nat)
    requires Run(c, run) && k < |run|
    ensures ValidConfig(c) && Undrawn(run[k].requests)
  {
    RunInv(c, run, k);
    forall i | 0 <= i < |run[k].requests| && run[k].requests[i].stage.Arrived? ensures run[k].requests[i].chat.None? {
      FitsOf(c, run[k], i);
    }
  }

  // ----- What one event does to one request -----

  /** One request moved, from a stage before its end, and works on what it worked on. */
  ghost predicate OneMoved(s: State, s': State, i: nat) {
    && i < |s.requests| && |s'.requests| == |s.requests| && s'.requests == s.requests[i := s'.requests[i]]
    && s'.requests[i].kind == s.requests[i].kind && s'.requests[i].user == s.requests[i].user
    && s'.requests[i].chat == s.requests[i].chat && !s.requests[i].stage.Done?
  }

  lemma WayMoves(c: Config, s: State, s': State, e: Event)
    requires Next(c, s, e) == Some(s') && OnTheWay(e) && !e.Arrive? && !e.Check?
    ensures OneMoved(s, s', e.i) && s'.requests[e.i].stage != Done(Ok) && s'.chats == s.chats
  {}

  predicate AtWork(e: Event) {
    e.BeginCharge? || e.Charge? || e.ChargeDies? || e.Call? || e.Conclude? || e.Judge?
  }

  lemma WorkMoves(c: Config, s: State, s': State, e: Event)
    requires Next(c, s, e) == Some(s') && AtWork(e)
    ensures OneMoved(s, s', e.i) && s'.requests[e.i].stage != Done(Ok) && s'.chats == s.chats
  {}

  /** Any event but an arrival, a check, a persistence, a deletion or a sync. */
  predicate Plain(e: Event) {
    AtWork(e) || (OnTheWay(e) && !e.Arrive? && !e.Check?)
  }

  lemma PlainMoves(c: Config, s: State, s': State, e: Event)
    requires Next(c, s, e) == Some(s') && Plain(e)
    ensures OneMoved(s, s', e.i) && s'.requests[e.i].stage != Done(Ok) && s'.chats == s.chats
  {
    if AtWork(e) { WorkMoves(c, s, s', e); } else { WayMoves(c, s, s', e); }
  }

  lemma PersistMoves(s: State, s': State, i: nat)
    requires At(s, i, Persisting) && s' == DoPersist(s, i)
    ensures OneMoved(s, s', i) && s'.requests[i].stage.Done?
    ensures s'.requests[i].stage == Done(Ok) || s'.chats == s.chats
  {}

  /** A check that passes sets the request to work, on a chat nobody has or on one with room. */
  lemma CheckMoves(c: Config, s: State, s': State, i: nat, drawn: ChatId)
    requires At(s, i, Arrived) && s' == DoCheck(c, s, i, drawn) && s.requests[i].chat.None?
    ensures |s'.requests| == |s.requests| && s'.requests == s.requests[i := s'.requests[i]]
    ensures s'.requests[i].kind == s.requests[i].kind && s'.requests[i].user == s.requests[i].user
    ensures s'.chats == s.chats && s'.requests[i].stage != Done(Ok)
    ensures if s'.requests[i].stage.Done? then s'.requests[i].chat.None?
            else ServiceCheck(c, s.chats, s.requests[i].user, s.requests[i].kind).None?
                 && s'.requests[i].chat == Some(if s.requests[i].kind.Create? then drawn else s.requests[i].kind.to)
  {}

  // ----- Answers are paid for -----

  /** The answers a request has stored in one chat. */
  function StoredIn(chat: ChatId): Request -> nat {
    (r: Request) => if r.stage == Done(Ok) && r.chat == Some(chat) then 1 else 0
  }

  function AnswersIn(chats: map<ChatId, Chat>, chat: ChatId): nat {
    if chat in chats then AiMessages(chats[chat].messages) else 0
  }

  lemma TwoMore(messages: seq<Role>)
    ensures AiMessages(messages + [Human, Ai]) == AiMessages(messages) + 1
  {
    assert messages + [Human, Ai] == (messages + [Human]) + [Ai];
    assert ((messages + [Human]) + [Ai])[..|messages| + 1] == messages + [Human];
    assert (messages + [Human])[..|messages|] == messages;
  }

  /** Storing adds one answer to the one chat. */
  lemma AppendedAnswers(chats: map<ChatId, Chat>, chats': map<ChatId, Chat>, r: Request, chat: ChatId)
    requires r.chat.Some? && Appended(chats, chats', r)
    ensures AnswersIn(chats', chat) == AnswersIn(chats, chat) + if r.chat == Some(chat) then 1 else 0
  {
    if r.chat == Some(chat) {
      TwoMore(if r.kind.Create? then [] else chats[chat].messages);
    } else {
      assert chat in chats' <==> chat in chats' - {r.chat.value};
      assert chat in chats <==> chat in chats - {r.chat.value};
      if chat in chats { assert (chats' - {r.chat.value})[chat] == (chats - {r.chat.value})[chat]; }
    }
  }

  lemma PersistStores(s: State, s': State, i: nat, chat: ChatId)
    requires At(s, i, Persisting) && s' == DoPersist(s, i)
    ensures AnswersIn(s'.chats, chat) + Sum(s.requests, StoredIn(chat))
            == AnswersIn(s.chats, chat) + Sum(s'.requests, StoredIn(chat))
  {
    PersistMoves(s, s', i);
    SumUpdate(s.requests, i, s'.requests[i], StoredIn(chat));
    if s'.requests[i].stage == Done(Ok) {
      PersistAppends(s, s', i);
      AppendedAnswers(s.chats, s'.chats, s.requests[i], chat);
    }
  }

  lemma PlainStores(s: State, s': State, i: nat, chat: ChatId)
    requires OneMoved(s, s', i) && s'.requests[i].stage != Done(Ok)
    ensures Sum(s'.requests, StoredIn(chat)) == Sum(s.requests, StoredIn(chat))
  {
    SumUpdate(s.requests, i, s'.requests[i], StoredIn(chat));
  }

  lemma CheckStores(c: Config, s: State, s': State, i: nat, drawn: ChatId, chat: ChatId)
    requires At(s, i, Arrived) && s.requests[i].chat.None? && s' == DoCheck(c, s, i, drawn)
    ensures Sum(s'.requests, StoredIn(chat)) == Sum(s.requests, StoredIn(chat)) && s'.chats == s.chats
  {
    CheckMoves(c, s, s', i, drawn);
    SumUpdate(s.requests, i, s'.requests[i], StoredIn(chat));
  }

  /** What an event adds to a chat, a request of its own has stored. */
  lemma EventStores(c: Config, s: State, s': State, e: Event, chat: ChatId)
    requires ValidConfig(c) && Undrawn(s.requests) && Next(c, s, e) == Some(s')
    ensures AnswersIn(s'.chats, chat) + Sum(s.requests, StoredIn(chat))
            <= AnswersIn(s.chats, chat) + Sum(s'.requests, StoredIn(chat))
  {
    if e.Persist? {
      PersistStores(s, s', e.i, chat);
    } else if e.Check? {
      CheckStores(c, s, s', e.i, e.drawn, chat);
    } else if e.Arrive? {
      SumAppend(s.requests, NewRequest(e.user, e.at, e.kind), StoredIn(chat));
    } else if Plain(e) {
      PlainMoves(c, s, s', e);
      PlainStores(s, s', e.i, chat);
    }
  }

  lemma SuccessorStores(c: Config, s: State, s': State, chat: ChatId)
    requires ValidConfig(c) && Undrawn(s.requests) && Successor(c, s, s')
    ensures AnswersIn(s'.chats, chat) + Sum(s.requests, StoredIn(chat))
            <= AnswersIn(s.chats, chat) + Sum(s'.requests, StoredIn(chat))
  {
    var e :| Next(c, s, e) == Some(s');
    EventStores(c, s, s', e, chat);
  }

  lemma RunStores(c: Config, run: seq<State>, k: nat, chat: ChatId)
    requires Run(c, run) && 0 < k < |run|
    ensures AnswersIn(run[k].chats, chat) + Sum(run[k - 1].requests, StoredIn(chat))
            <= AnswersIn(run[k - 1].chats, chat) + Sum(run[k].requests, StoredIn(chat))
  {
    RunUndrawn(c, run, k - 1);
    assert StepsAt(c, run, k - 1);
    SuccessorStores(c, run[k - 1], run[k], chat);
  }

  /** Every answer found in a chat was there from the start or stored by a request of its own, and such a
      request has a committed charge. */
  lemma {:induction false} AnswersAreStored(c: Config, run: seq<State>, k: nat, chat: ChatId)
    requires Run(c, run) && k < |run|
    ensures AnswersIn(run[k].chats, chat) <= AnswersIn(run[0].chats, chat) + Sum(run[k].requests, StoredIn(chat))
    ensures forall i :: 0 <= i < |run[k].requests| && run[k].requests[i].stage == Done(Ok) ==>
                          PaidByItself(run[k], run[k].requests[i])
  {
    if k > 0 {
      AnswersAreStored(c, run, k - 1, chat);
      RunStores(c, run, k, chat);
    }
    StoredArePaid(c, run, k);
  }

  lemma StoredArePaid(c: Config, run: seq<State>, k: nat)
    requires Run(c, run) && k < |run|
    ensures forall i :: 0 <= i < |run[k].requests| && run[k].requests[i].stage == Done(Ok) ==>
                          PaidByItself(run[k], run[k].requests[i])
  {
    RunInv(c, run, k);
    forall i | 0 <= i < |run[k].requests| && run[k].requests[i].stage == Done(Ok)
      ensures PaidByItself(run[k], run[k].requests[i])
    {
      FitsOf(c, run[k], i);
    }
  }

  // ----- The limits -----

  /** Past its checks and not yet ended. */
  predicate InFlight(r: Request) {
    r.chat.Some? && !r.stage.Done?
  }

  /** The creations of one user that are in flight. */
  function CreatingFor(user: M.UserId): Request -> nat {
    (r: Request) => if InFlight(r) && r.kind.Create? && r.user == user then 1 else 0
  }

  /** The requests in flight that work on one chat. */
  function WorkingOn(chat: ChatId): Request -> nat {
    (r: Request) => if InFlight(r) && r.chat == Some(chat) then 1 else 0
  }

  lemma AppendedOthers(chats: map<ChatId, Chat>, chats': map<ChatId, Chat>, r: Request, x: ChatId)
    requires r.chat.Some? && Appended(chats, chats', r) && x != r.chat.value
    ensures (x in chats' <==> x in chats) && (x in chats ==> chats'[x] == chats[x])
  {
    var chat := r.chat.value;
    assert x in chats' <==> x in chats' - {chat};
    assert x in chats <==> x in chats - {chat};
    if x in chats { assert (chats' - {chat})[x] == (chats - {chat})[x]; }
  }

  lemma AppendedChats(chats: map<ChatId, Chat>, chats': map<ChatId, Chat>, r: Request, user: M.UserId)
    requires r.chat.Some? && Appended(chats, chats', r)
    ensures |ChatsOf(chats', user)| == |ChatsOf(chats, user)| + if r.kind.Create? && r.user == user then 1 else 0
  {
    var chat := r.chat.value;
    forall x ensures x in ChatsOf(chats', user)
                     <==> x in ChatsOf(chats, user) || (x == chat && r.kind.Create? && r.user == user)
    {
      if x != chat { AppendedOthers(chats, chats', r, x); }
    }
    if r.kind.Create? && r.user == user {
      assert ChatsOf(chats', user) == ChatsOf(chats, user) + {chat};
    } else {
      assert ChatsOf(chats', user) == ChatsOf(chats, user);
    }
  }

  lemma FewerChats(chats: map<ChatId, Chat>, gone: ChatId, user: M.UserId)
    ensures |ChatsOf(chats - {gone}, user)| <= |ChatsOf(chats, user)|
  {
    assert ChatsOf(chats, user) == ChatsOf(chats - {gone}, user) + (ChatsOf(chats, user) * {gone});
  }

  /** A count of stored things and of requests in flight that may each store one: an event leaves the total
      no greater, unless it is a check that passes, which then saw room. */
  ghost predicate RoomKept(stored: nat, flying: nat, stored': nat, flying': nat, limit: nat) {
    stored' + flying' <= stored + flying || (stored' == stored && stored < limit)
  }

  ghost predicate ChatsKept(c: Config, s: State, s': State, user: M.UserId) {
    RoomKept(|ChatsOf(s.chats, user)|, Sum(s.requests, CreatingFor(user)), |ChatsOf(s'.chats, user)|, Sum(s'.requests, CreatingFor(user)), c.chatsLimit)
  }

  lemma PersistKeepsChats(c: Config, s: State, s': State, i: nat, user: M.UserId)
    requires At(s, i, Persisting) && s' == DoPersist(s, i)
    ensures ChatsKept(c, s, s', user)
  {
    PersistMoves(s, s', i);
    SumUpdate(s.requests, i, s'.requests[i], CreatingFor(user));
    if s'.requests[i].stage == Done(Ok) {
      PersistAppends(s, s', i);
      AppendedChats(s.chats, s'.chats, s.requests[i], user);
    }
  }

  lemma CheckKeepsChats(c: Config, s: State, s': State, i: nat, drawn: ChatId, user: M.UserId)
    requires ValidConfig(c) && At(s, i, Arrived) && Unused(s, drawn) && s.requests[i].chat.None?
    requires s' == DoCheck(c, s, i, drawn)
    ensures ChatsKept(c, s, s', user)
  {
    CheckMoves(c, s, s', i, drawn);
    SumUpdate(s.requests, i, s'.requests[i], CreatingFor(user));
  }

  lemma PlainKeepsChats(c: Config, s: State, s': State, i: nat, user: M.UserId)
    requires OneMoved(s, s', i) && s'.chats == s.chats
    ensures ChatsKept(c, s, s', user)
  {
    SumUpdate(s.requests, i, s'.requests[i], CreatingFor(user));
  }

  lemma EventKeepsChats(c: Config, s: State, s': State, e: Event, user: M.UserId)
    requires ValidConfig(c) && Undrawn(s.requests) && Next(c, s, e) == Some(s')
    ensures ChatsKept(c, s, s', user)
  {
    if e.Persist? {
      PersistKeepsChats(c, s, s', e.i, user);
    } else if e.Check? {
      CheckKeepsChats(c, s, s', e.i, e.drawn, user);
    } else if e.Arrive? {
      SumAppend(s.requests, NewRequest(e.user, e.at, e.kind), CreatingFor(user));
    } else if Plain(e) {
      PlainMoves(c, s, s', e);
      PlainKeepsChats(c, s, s', e.i, user);
    } else if e.Delete? {
      FewerChats(s.chats, e.chat, user);
    }
  }

  lemma SuccessorKeepsChats(c: Config, s: State, s': State, user: M.UserId, m: nat)
    requires ValidConfig(c) && Undrawn(s.requests) && Successor(c, s, s')
    requires ChatsBounded(c, s, user, m) && Sum(s'.requests, CreatingFor(user)) <= m
    ensures ChatsBounded(c, s', user, m)
  {
    var e :| Next(c, s, e) == Some(s');
    EventKeepsChats(c, s, s', e, user);
  }

  ghost predicate ChatsBounded(c: Config, s: State, user: M.UserId, m: nat) {
    |ChatsOf(s.chats, user)| + Sum(s.requests, CreatingFor(user)) <= c.chatsLimit - 1 + m
  }

  ghost predicate AnswersKept(c: Config, s: State, s': State, chat: ChatId) {
    RoomKept(AnswersIn(s.chats, chat), Sum(s.requests, WorkingOn(chat)), AnswersIn(s'.chats, chat), Sum(s'.requests, WorkingOn(chat)), c.messagesLimit)
  }

  lemma PersistKeepsAnswers(c: Config, s: State, s': State, i: nat, chat: ChatId)
    requires At(s, i, Persisting) && s' == DoPersist(s, i)
    ensures AnswersKept(c, s, s', chat)
  {
    PersistMoves(s, s', i);
    SumUpdate(s.requests, i, s'.requests[i], WorkingOn(chat));
    if s'.requests[i].stage == Done(Ok) {
      PersistAppends(s, s', i);
      AppendedAnswers(s.chats, s'.chats, s.requests[i], chat);
    }
  }

  lemma CheckKeepsAnswers(c: Config, s: State, s': State, i: nat, drawn: ChatId, chat: ChatId)
    requires ValidConfig(c) && At(s, i, Arrived) && Unused(s, drawn) && s.requests[i].chat.None?
    requires s' == DoCheck(c, s, i, drawn)
    ensures AnswersKept(c, s, s', chat)
  {
    CheckMoves(c, s, s', i, drawn);
    SumUpdate(s.requests, i, s'.requests[i], WorkingOn(chat));
  }

  lemma PlainKeepsAnswers(c: Config, s: State, s': State, i: nat, chat: ChatId)
    requires OneMoved(s, s', i) && s'.chats == s.chats
    ensures AnswersKept(c, s, s', chat)
  {
    SumUpdate(s.requests, i, s'.requests[i], WorkingOn(chat));
  }

  lemma EventKeepsAnswers(c: Config, s: State, s': State, e: Event, chat: ChatId)
    requires ValidConfig(c) && Undrawn(s.requests) && Next(c, s, e) == Some(s')
    ensures AnswersKept(c, s, s', chat)
  {
    if e.Persist? {
      PersistKeepsAnswers(c, s, s', e.i, chat);
    } else if e.Check? {
      CheckKeepsAnswers(c, s, s', e.i, e.drawn, chat);
    } else if e.Arrive? {
      SumAppend(s.requests, NewRequest(e.user, e.at, e.kind), WorkingOn(chat));
    } else if Plain(e) {
      PlainMoves(c, s, s', e);
      PlainKeepsAnswers(c, s, s', e.i, chat);
    }
  }

  lemma SuccessorKeepsAnswers(c: Config, s: State, s': State, chat: ChatId, m: nat)
    requires ValidConfig(c) && Undrawn(s.requests) && Successor(c, s, s')
    requires AnswersBounded(c, s, chat, m) && Sum(s'.requests, WorkingOn(chat)) <= m
    ensures AnswersBounded(c, s', chat, m)
  {
    var e :| Next(c, s, e) == Some(s');
    EventKeepsAnswers(c, s, s', e, chat);
  }

  ghost predicate AnswersBounded(c: Config, s: State, chat: ChatId, m: nat) {
    AnswersIn(s.chats, chat) + Sum(s.requests, WorkingOn(chat)) <= c.messagesLimit - 1 + m
  }

  /** At no moment of the run are more than `m` requests of this kind in flight. */
  ghost predicate AtMost(run: seq<State>, w: Request -> nat, m: nat) {
    forall j :: 0 <= j < |run| ==> Sum(run[j].requests, w) <= m
  }

  lemma RunKeepsChats(c: Config, run: seq<State>, k: nat, user: M.UserId, m: nat)
    requires Run(c, run) && 0 < k < |run| && ChatsBounded(c, run[k - 1], user, m)
    requires Sum(run[k].requests, CreatingFor(user)) <= m
    ensures ChatsBounded(c, run[k], user, m)
  {
    RunUndrawn(c, run, k - 1);
    assert StepsAt(c, run, k - 1);
    SuccessorKeepsChats(c, run[k - 1], run[k], user, m);
  }

  /** The chats of a user, those about to be stored included, exceed the limit by at most one less than the
      creations that were ever in flight together. */
  lemma {:induction false} ChatsWithin(c: Config, run: seq<State>, k: nat, user: M.UserId, m: nat)
    requires Run(c, run) && k < |run| && AtMost(run, CreatingFor(user), m) && m >= 1
    requires |ChatsOf(run[0].chats, user)| <= c.chatsLimit
    ensures ChatsBounded(c, run[k], user, m)
  {
    if k > 0 {
      ChatsWithin(c, run, k - 1, user, m);
      RunKeepsChats(c, run, k, user, m);
    }
  }

  lemma RunKeepsAnswers(c: Config, run: seq<State>, k: nat, chat: ChatId, m: nat)
    requires Run(c, run) && 0 < k < |run| && AnswersBounded(c, run[k - 1], chat, m)
    requires Sum(run[k].requests, WorkingOn(chat)) <= m
    ensures AnswersBounded(c, run[k], chat, m)
  {
    RunUndrawn(c, run, k - 1);
    assert StepsAt(c, run, k - 1);
    SuccessorKeepsAnswers(c, run[k - 1], run[k], chat, m);
  }

  /** The answers of a chat, those about to be stored included, likewise. */
  lemma {:induction false} AnswersWithin(c: Config, run: seq<State>, k: nat, chat: ChatId, m: nat)
    requires Run(c, run) && k < |run| && AtMost(run, WorkingOn(chat), m) && m >= 1
    requires AnswersIn(run[0].chats, chat) <= c.messagesLimit
    ensures AnswersBounded(c, run[k], chat, m)
  {
    if k > 0 {
      AnswersWithin(c, run, k - 1, chat, m);
      RunKeepsAnswers(c, run, k, chat, m);
    }
  }
}
