/** Who may write to which chat: a chat is read under its owner at the check and written later under no test
    at all, yet over every run nobody but its owner's requests work on it. */
module ChatOwners {
  import opened Wrappers
  import opened ChatMachine
  import opened ChatInvariant
  import opened ChatTheorems
  import opened ChatStorage
  import M = QuotaModel

  // ----- What the checks refuse -----

  ghost predicate NotTheirs(chats: map<ChatId, Chat>, user: M.UserId, kind: Kind) {
    kind.Send? && !(kind.to in chats && chats[kind.to].user == user)
  }

  ghost predicate Unspoken(c: Config, kind: Kind) {
    kind.Create? && kind.lang != "" && kind.lang !in c.languages
  }

  /** As many chats of the user's, or answers in the chat, as the limit allows. */
  ghost predicate Full(c: Config, chats: map<ChatId, Chat>, user: M.UserId, kind: Kind) {
    match kind
    case Create(_) => |set x | x in chats && chats[x].user == user| >= c.chatsLimit
    case Send(to) => to in chats && multiset(chats[to].messages)[Ai] >= c.messagesLimit
  }

  lemma {:induction false} AnswersAreCounted(messages: seq<Role>)
    ensures AiMessages(messages) == multiset(messages)[Ai]
  {
    if messages != [] {
      var front, last := messages[..|messages| - 1], messages[|messages| - 1];
      AnswersAreCounted(front);
      assert messages == front + [last];
    }
  }

  /** The checks refuse an absent or foreign chat, a language they do not know, and then a full history, and
      nothing else. */
  lemma CheckIsSpelledOut(c: Config, chats: map<ChatId, Chat>, user: M.UserId, kind: Kind)
    ensures ServiceCheck(c, chats, user, kind)
            == if NotTheirs(chats, user, kind) then Some(InvalidChat)
               else if Unspoken(c, kind) then Some(UnsupportedLanguage)
               else if Full(c, chats, user, kind) then Some(ChatHistoryLimit)
               else None
  {
    if kind.Send? && kind.to in chats {
      AnswersAreCounted(chats[kind.to].messages);
    }
    assert ChatsOf(chats, user) == set x | x in chats && chats[x].user == user;
  }

  // ----- The invariant -----

  /** A request works on a chat of its own user's: a message on the chat it names, and a creation on one that
      no other user has. */
  ghost predicate OwnersOk(chats: map<ChatId, Chat>, rs: seq<Request>) {
    && (forall i :: 0 <= i < |rs| && rs[i].chat.Some? && rs[i].chat.value in chats ==>
                      chats[rs[i].chat.value].user == rs[i].user)
    && (forall i, j :: 0 <= i < |rs| && 0 <= j < |rs| && rs[i].chat.Some? && rs[i].chat == rs[j].chat ==>
                         rs[i].user == rs[j].user)
    && (forall i :: 0 <= i < |rs| && rs[i].chat.Some? && rs[i].kind.Send? ==> rs[i].chat == Some(rs[i].kind.to))
  }

  lemma PlainKeepsOwners(s: State, s': State, i: nat)
    requires OwnersOk(s.chats, s.requests) && OneMoved(s, s', i) && s'.chats == s.chats
    ensures OwnersOk(s'.chats, s'.requests)
  {}

  lemma CheckKeepsOwners(c: Config, s: State, s': State, i: nat, drawn: ChatId)
    requires OwnersOk(s.chats, s.requests) && At(s, i, Arrived) && Unused(s, drawn) && s.requests[i].chat.None?
    requires s' == DoCheck(c, s, i, drawn)
    ensures OwnersOk(s'.chats, s'.requests)
  {
    CheckMoves(c, s, s', i, drawn);
    CheckIsSpelledOut(c, s.chats, s.requests[i].user, s.requests[i].kind);
  }

  lemma PersistKeepsOwners(s: State, s': State, i: nat)
    requires OwnersOk(s.chats, s.requests) && At(s, i, Persisting) && s' == DoPersist(s, i)
    ensures OwnersOk(s'.chats, s'.requests)
  {
    PersistMoves(s, s', i);
    if s'.requests[i].stage == Done(Ok) {
      PersistAppends(s, s', i);
      var r := s.requests[i];
      forall j | 0 <= j < |s'.requests| && s'.requests[j].chat.Some? && s'.requests[j].chat.value in s'.chats
        ensures s'.chats[s'.requests[j].chat.value].user == s'.requests[j].user
      {
        if s'.requests[j].chat != r.chat {
          AppendedOthers(s.chats, s'.chats, r, s'.requests[j].chat.value);
        }
      }
    }
  }

  lemma EventKeepsOwners(c: Config, s: State, s': State, e: Event)
    requires ValidConfig(c) && Undrawn(s.requests) && OwnersOk(s.chats, s.requests) && Next(c, s, e) == Some(s')
    ensures OwnersOk(s'.chats, s'.requests)
  {
    if e.Persist? {
      PersistKeepsOwners(s, s', e.i);
    } else if e.Check? {
      CheckKeepsOwners(c, s, s', e.i, e.drawn);
    } else if Plain(e) {
      PlainMoves(c, s, s', e);
      PlainKeepsOwners(s, s', e.i);
    }
  }

  lemma SuccessorKeepsOwners(c: Config, s: State, s': State)
    requires ValidConfig(c) && Undrawn(s.requests) && OwnersOk(s.chats, s.requests) && Successor(c, s, s')
    ensures OwnersOk(s'.chats, s'.requests)
  {
    var e :| Next(c, s, e) == Some(s');
    EventKeepsOwners(c, s, s', e);
  }

  lemma {:induction false} RunOwners(c: Config, run: seq<State>, k: nat)
    requires Run(c, run) && k < |run|
    ensures OwnersOk(run[k].chats, run[k].requests)
  {
    if k > 0 {
      RunOwners(c, run, k - 1);
      RunUndrawn(c, run, k - 1);
      assert StepsAt(c, run, k - 1);
      SuccessorKeepsOwners(c, run[k - 1], run[k]);
    }
  }

  lemma ReachableOwners(c: Config, s: State)
    requires Reachable(c, s)
    ensures OwnersOk(s.chats, s.requests)
  {
    var run :| Run(c, run) && run[|run| - 1] == s;
    RunOwners(c, run, |run| - 1);
  }

  // ----- The theorems -----

  /** In every reachable state, whoever works on a chat or has written to it is its stored owner. */
  lemma OnlyOwnersWork(c: Config, s: State, i: nat)
    requires Reachable(c, s) && i < |s.requests| && s.requests[i].chat.Some?
    ensures s.requests[i].chat.value in s.chats ==> s.chats[s.requests[i].chat.value].user == s.requests[i].user
    ensures s.requests[i].kind.Send? ==> s.requests[i].chat.value == s.requests[i].kind.to
  {
    ReachableOwners(c, s);
  }

  /** Question and answer of a request are at the end of a chat that is its user's. */
  ghost predicate WroteOwn(before: map<ChatId, Chat>, after: map<ChatId, Chat>, r: Request) {
    && r.chat.Some? && r.chat.value in after && after[r.chat.value].user == r.user
    && match r.kind
       case Create(_) => r.chat.value !in before && after[r.chat.value].messages == [Human, Ai]
       case Send(to) =>
         && r.chat.value == to && to in before && before[to].user == r.user
         && after[to].messages == before[to].messages + [Human, Ai]
  }

  /** A request that ends well appends its question and answer to a chat of its own user's: a message to the
      chat it names, which is stored under that user at that moment, and a creation to a new one. */
  lemma OnlyOwnersWrite(c: Config, s: State, s': State, i: nat)
    requires Reachable(c, s) && Next(c, s, Persist(i)) == Some(s') && At(s', i, Done(Ok))
    ensures i < |s.requests| && WroteOwn(s.chats, s'.chats, s.requests[i])
  {
    PersistAppends(s, s', i);
    OnlyOwnersWork(c, s, i);
  }

  /** Whatever happens, a stored chat keeps its owner and every message it has, until its owner deletes it. */
  lemma ChatsOnlyGrow(c: Config, s: State, s': State, e: Event, x: ChatId)
    requires Reachable(c, s) && Next(c, s, e) == Some(s') && x in s.chats
    ensures if x in s'.chats then
              s'.chats[x].user == s.chats[x].user && s.chats[x].messages <= s'.chats[x].messages
            else e == Delete(s.chats[x].user, x)
  {
    if s'.chats != s.chats && !e.Delete? {
      OnlyPersistWrites(c, s, s', e);
      if s.requests[e.i].chat != Some(x) {
        AppendedOthers(s.chats, s'.chats, s.requests[e.i], x);
      }
    }
  }

  /** When a check refuses so. */
  ghost predicate RefusedBy(c: Config, chats: map<ChatId, Chat>, user: M.UserId, kind: Kind, e: ServiceError) {
    match e
    case InvalidChat => NotTheirs(chats, user, kind)
    case UnsupportedLanguage => Unspoken(c, kind)
    case ChatHistoryLimit => !NotTheirs(chats, user, kind) && !Unspoken(c, kind) && Full(c, chats, user, kind)
  }

  /** The check of a request ends it with a refusal exactly for an absent or foreign chat, a language not
      supported or a full history, in this order, and lets any other on to the chat it may write to. */
  lemma CheckAnswers(c: Config, s: State, s': State, i: nat, drawn: ChatId)
    requires Next(c, s, Check(i, drawn)) == Some(s')
    ensures i < |s.requests| && i < |s'.requests|
    ensures var r, r' := s.requests[i], s'.requests[i];
            if NotTheirs(s.chats, r.user, r.kind) then r'.stage == Done(ServiceRefused(InvalidChat))
            else if Unspoken(c, r.kind) then r'.stage == Done(ServiceRefused(UnsupportedLanguage))
            else if Full(c, s.chats, r.user, r.kind) then r'.stage == Done(ServiceRefused(ChatHistoryLimit))
            else r'.stage == Checked && r'.chat == Some(if r.kind.Create? then drawn else r.kind.to)
  {
    CheckIsSpelledOut(c, s.chats, s.requests[i].user, s.requests[i].kind);
  }
}
