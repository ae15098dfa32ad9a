/** `create_chat` and `send_message` as structured code: every wait lets the other requests run and may end
    in an exception or a cancellation, and every statement is one step of the request machine. */
module ChatService {
  import opened Wrappers
  import opened ChatMachine
  import opened ChatInvariant
  import opened ChatTheorems
  import opened ChatProgress
  import opened ChatStorage
  import opened ChatOwners
  import R = Retry
  import M = QuotaModel

  predicate NotAdmitted(end: Ending) {
    end.CircuitOpen? || end.QueueFull? || end.Aborted?
  }

  /** Still charging, charged, or refused uncharged. */
  predicate InCharge(r: Request) {
    || (r.stage.Charging? && r.charge.None?)
    || r.stage.Charged?
    || (r.stage.Leaving? && r.charge.None? && (r.stage.end.QuotaRefused? || r.stage.end.Aborted?))
  }

  /** The request an event moves, if any. */
  function Mover(e: Event): Option<nat> {
    match e
    case Arrive(_, _, _) => None
    case Delete(_, _) => None
    case Sync(_) => None
    case _ => Some(e.i)
  }

  lemma OthersKeepRequest(c: Config, s: State, s': State, e: Event, i: nat)
    requires Next(c, s, e) == Some(s') && i < |s.requests| && Mover(e) != Some(i)
    ensures i < |s'.requests| && s'.requests[i] == s.requests[i]
  {}

  /** What an event means for its own request. */
  ghost predicate Effect(c: Config, e: Event, r: Request, r': Request) {
    && r'.user == r.user && r'.at == r.at && r'.kind == r.kind
    && (!e.Charge? ==> r'.charge == r.charge) && (!e.Call? ==> r'.calls == r.calls)
    && match e
       case Check(_, _) => r'.stage.Checked? || (r'.stage.Done? && r'.stage.end.ServiceRefused?)
       case BeforeCall(_, _) => r'.stage.Passed? || (r'.stage.Done? && r'.stage.end.CircuitOpen?)
       case Enter(_) => r'.stage.Waiting? || r'.stage == Done(QueueFull)
       case Acquire(_) => r'.stage.Admitted?
       case BeginCharge(_) => r'.stage.Charging?
       case Charge(_) =>
         || (r'.stage.Charging? && r'.charge == r.charge)
         || (r'.stage.Charged? && r'.charge.Some?)
         || (r'.stage.Leaving? && r'.stage.end.QuotaRefused? && r'.charge == r.charge)
       case ChargeDies(_) => r'.stage == Leaving(Aborted)
       case Call(_) => r'.stage.Calling? && r'.calls == r.calls + 1
       case Conclude(_, _, outcome) => r'.stage == StageAfter(outcome, r.calls, c.maxAttempts)
       case Judge(_) => r.stage.Answered? && r'.stage == Leaving(Verdict(r.stage.reply))
       case Abort(_) =>
         r'.stage == (if Runs(r.stage) then Leaving(Aborted) else if r.stage.Waiting? then Released(Aborted) else Done(Aborted))
       case ReleasePermit(_) => r.stage.Leaving? && r'.stage == Released(r.stage.end)
       case ReleaseSlot(_) => r.stage.Released? && r'.stage == if r.stage.end == Ok then Persisting else Done(r.stage.end)
       case Persist(_) => r'.stage == Done(Ok) || r'.stage == Done(Aborted)
       case _ => false
  }

  lemma WayEffect(c: Config, s: State, s': State, e: Event)
    requires Next(c, s, e) == Some(s') && OnTheWay(e) && !e.Arrive?
    ensures e.i < |s.requests| && e.i < |s'.requests| && Effect(c, e, s.requests[e.i], s'.requests[e.i])
  {}

  lemma WorkEffect(c: Config, s: State, s': State, e: Event)
    requires Next(c, s, e) == Some(s') && !OnTheWay(e) && Mover(e).Some?
    ensures e.i < |s.requests| && e.i < |s'.requests| && Effect(c, e, s.requests[e.i], s'.requests[e.i])
  {}

  class World {
    const c: Config
    var s: State

    constructor (c: Config, s: State)
      requires ValidConfig(c) && Init(c, s)
      ensures this.c == c && this.s == s && Reachable(c, s)
    {
      this.c, this.s := c, s;
      ReachableInit(c, s);
    }

    /** The system is somewhere in a run, and request `i` is there as `r`. */
    ghost predicate Holds(i: nat, r: Request)
      reads this
    {
      Reachable(c, s) && i < |s.requests| && s.requests[i] == r
    }

    /** Any number of events of anybody else. */
    method OthersRun(i: nat)
      requires i < |s.requests| && Holds(i, s.requests[i])
      modifies this
      ensures Holds(i, old(s.requests[i]))
    {
      ghost var r := s.requests[i];
      var n: nat := *;
      while n > 0
        invariant Holds(i, r)
      {
        var e: Event := *;
        var next := Next(c, s, e);
        if next.Some? && Mover(e) != Some(i) {
          ReachableNext(c, s, next.value, e);
          OthersKeepRequest(c, s, next.value, e, i);
          s := next.value;
        }
        n := n - 1;
      }
    }

    /** One step of request `i`. */
    method Do(i: nat, e: Event)
      requires Reachable(c, s) && Mover(e) == Some(i) && Next(c, s, e).Some?
      modifies this
      ensures Next(c, old(s), e) == Some(s)
      ensures i < |old(s).requests| && i < |s.requests| && Holds(i, s.requests[i])
      ensures Effect(c, e, old(s).requests[i], s.requests[i])
    {
      var next := Next(c, s, e).value;
      ReachableNext(c, s, next, e);
      if OnTheWay(e) {
        WayEffect(c, s, next, e);
      } else {
        WorkEffect(c, s, next, e);
      }
      s := next;
    }

    /** A request comes in with the instant captured for it. */
    method Arrives(user: M.UserId, at: M.Instant, kind: Kind) returns (i: nat)
      requires Reachable(c, s)
      modifies this
      ensures Holds(i, NewRequest(user, at, kind))
    {
      i := |s.requests|;
      var next := Next(c, s, Arrive(user, at, kind)).value;
      ReachableNext(c, s, next, Arrive(user, at, kind));
      s := next;
    }
  }

  class ChatService {
    const world: World

    constructor (world: World)
      ensures this.world == world
    {
      this.world := world;
    }

    /** The request is still the same one, at the given kind of place. */
    ghost predicate Is(i: nat, was: Request)
      reads world
    {
      && Reachable(world.c, world.s) && i < |world.s.requests|
      && world.s.requests[i].user == was.user && world.s.requests[i].at == was.at && world.s.requests[i].kind == was.kind
    }

    /** Out of the gate: permit and slot go back, whatever happened inside. */
    method Leave(i: nat)
      requires i < |world.s.requests| && Is(i, world.s.requests[i]) && world.s.requests[i].stage.Leaving?
      modifies world
      ensures Is(i, old(world.s.requests[i]))
      ensures world.s.requests[i].stage
              == if old(world.s.requests[i]).stage.end == Ok then Persisting else Done(old(world.s.requests[i]).stage.end)
    {
      world.Do(i, ReleasePermit(i));
      world.OthersRun(i);
      world.Do(i, ReleaseSlot(i));
    }

    /** `admission`: the breaker, then a slot, then a permit. A request it does not admit holds nothing. */
    method Admission(i: nat) returns (admitted: bool)
      requires i < |world.s.requests| && Is(i, world.s.requests[i]) && world.s.requests[i].stage.Checked?
      modifies world
      ensures Is(i, old(world.s.requests[i]))
      ensures if admitted then world.s.requests[i].stage.Admitted?
              else world.s.requests[i].stage.Done? && NotAdmitted(world.s.requests[i].stage.end)
    {
      world.OthersRun(i);
      var now: real := *;
      world.Do(i, BeforeCall(i, if now < world.s.clock then world.s.clock else now));
      if world.s.requests[i].stage.Done? {
        return false;
      }
      world.OthersRun(i);
      world.Do(i, Enter(i));
      if world.s.requests[i].stage.Done? {
        return false;
      }
      admitted := WaitForPermit(i);
    }

    /** The semaphore. A cancelled wait puts the slot back. */
    method WaitForPermit(i: nat) returns (admitted: bool)
      requires i < |world.s.requests| && Is(i, world.s.requests[i]) && world.s.requests[i].stage.Waiting?
      modifies world
      ensures Is(i, old(world.s.requests[i]))
      ensures world.s.requests[i].stage == if admitted then Admitted else Done(Aborted)
    {
      ghost var r := world.s.requests[i];
      var patience: nat := *;
      while world.s.gate.permits == 0 && patience > 0
        invariant world.Holds(i, r)
        decreases patience
      {
        world.OthersRun(i);
        patience := patience - 1;
      }
      if world.s.gate.permits == 0 {
        world.Do(i, Abort(i));
        world.Do(i, ReleaseSlot(i));
        return false;
      }
      world.Do(i, Acquire(i));
      admitted := true;
    }

    /** `charge`, statement by statement in its own transaction; a wait that does not end is an exception. */
    method Charge(i: nat) returns (charged: bool)
      requires i < |world.s.requests| && Is(i, world.s.requests[i]) && world.s.requests[i].stage.Admitted?
      modifies world
      ensures Is(i, old(world.s.requests[i]))
      ensures if charged then world.s.requests[i].stage.Charged? && PaidByItself(world.s, world.s.requests[i])
              else world.s.requests[i].stage.Leaving? && world.s.requests[i].charge.None?
                   && (world.s.requests[i].stage.end.QuotaRefused? || world.s.requests[i].stage.end.Aborted?)
    {
      ReachableRequest(world.c, world.s, i);
      world.Do(i, BeginCharge(i));
      var patience: nat := *;
      while world.s.requests[i].stage.Charging? && patience > 0
        invariant Is(i, old(world.s.requests[i]))
        invariant InCharge(world.s.requests[i])
        decreases patience
      {
        world.OthersRun(i);
        if Next(world.c, world.s, Event.Charge(i)).Some? {
          world.Do(i, Event.Charge(i));
        }
        patience := patience - 1;
      }
      if world.s.requests[i].stage.Charging? {
        GiveUp(i);
      }
      ReachableRequest(world.c, world.s, i);
      charged := world.s.requests[i].stage.Charged?;
    }

    /** The exception ends the transaction, unless it has ended already. */
    method GiveUp(i: nat)
      requires i < |world.s.requests| && Is(i, world.s.requests[i]) && world.s.requests[i].stage.Charging?
      modifies world
      ensures Is(i, old(world.s.requests[i])) && world.s.requests[i].charge == old(world.s.requests[i].charge)
      ensures world.s.requests[i].stage == Leaving(Aborted)
    {
      ChargingIsOpen(world.c, world.s, i);
      world.Do(i, ChargeDies(i));
    }

    /** One attempt: a call goes out and ends, or the request is cancelled before it. */
    method Attempt(i: nat)
      requires i < |world.s.requests| && Is(i, world.s.requests[i])
      requires world.s.requests[i].stage.Charged? || world.s.requests[i].stage.Retrying?
      modifies world
      ensures Is(i, old(world.s.requests[i])) && world.s.requests[i].charge == old(world.s.requests[i].charge)
      ensures var stage := world.s.requests[i].stage;
              stage.Answered? || stage.Leaving?
              || (stage.Retrying? && world.s.requests[i].calls == old(world.s.requests[i].calls) + 1 < world.c.maxAttempts)
    {
      world.OthersRun(i);
      var cancelled: bool := *;
      if cancelled {
        world.Do(i, Abort(i));
        return;
      }
      world.Do(i, Call(i));
      AwaitProvider(i);
    }

    method AwaitProvider(i: nat)
      requires i < |world.s.requests| && Is(i, world.s.requests[i]) && world.s.requests[i].stage.Calling?
      modifies world
      ensures Is(i, old(world.s.requests[i])) && world.s.requests[i].calls == old(world.s.requests[i].calls)
      ensures world.s.requests[i].charge == old(world.s.requests[i].charge)
      ensures var stage := world.s.requests[i].stage;
              stage.Answered? || stage.Leaving? || (stage.Retrying? && world.s.requests[i].calls < world.c.maxAttempts)
    {
      world.OthersRun(i);
      var now: real, outcome: R.Outcome<Reply> := *, *;
      world.Do(i, Conclude(i, if now < world.s.clock then world.s.clock else now, outcome));
    }

    /** `ask_llm`: the retried provider calls and the judgement of the answer. It ends after at most as
        many calls as the policy allows, with an answer that validated or with an exception. */
    method AskLlm(i: nat)
      requires i < |world.s.requests| && Is(i, world.s.requests[i]) && world.s.requests[i].stage.Charged?
      modifies world
      ensures Is(i, old(world.s.requests[i])) && world.s.requests[i].stage.Leaving?
      ensures PaidByItself(world.s, world.s.requests[i]) && world.s.requests[i].calls <= world.c.maxAttempts
      ensures !Refusal(world.s.requests[i].stage.end)
    {
      ghost var r := world.s.requests[i];
      ReachableRequest(world.c, world.s, i);
      MayCall(world.c, world.s, i);
      while world.s.requests[i].stage.Charged? || world.s.requests[i].stage.Retrying?
        invariant Is(i, r) && world.s.requests[i].charge == r.charge
        invariant var stage := world.s.requests[i].stage;
                  || ((stage.Charged? || stage.Retrying?) && world.s.requests[i].calls < world.c.maxAttempts)
                  || stage.Answered? || stage.Leaving?
        decreases world.s.requests[i].stage.Charged? || world.s.requests[i].stage.Retrying?,
                  world.c.maxAttempts - world.s.requests[i].calls
      {
        Attempt(i);
      }
      if world.s.requests[i].stage.Answered? {
        world.Do(i, Judge(i));
      }
      ReachableRequest(world.c, world.s, i);
    }

    /** One request from its checks to its stored answer. On every path it ends holding nothing; a refusal
        has cost nothing; an answer was paid for and is stored with its question at the end of its chat, a chat
        of the user's own. `before` is the state the last statement was given. */
    method Serve(user: M.UserId, at: M.Instant, kind: Kind) returns (r: Ending, i: nat, ghost before: State)
      requires Reachable(world.c, world.s)
      modifies world
      ensures i < |world.s.requests| && Is(i, NewRequest(user, at, kind))
      ensures world.s.requests[i].stage == Done(r)
      ensures Refusal(r) ==> world.s.requests[i].charge.None? && world.s.requests[i].calls == 0
      ensures r == Ok ==> PaidByItself(world.s, world.s.requests[i])
                          && 1 <= world.s.requests[i].calls <= world.c.maxAttempts
      ensures r == Ok ==> world.s.requests[i].chat.Some? && Appended(before.chats, world.s.chats, world.s.requests[i])
      ensures r == Ok ==> WroteOwn(before.chats, world.s.chats, world.s.requests[i])
      ensures r.ServiceRefused? ==> RefusedBy(world.c, before.chats, user, kind, r.error)
    {
      i := world.Arrives(user, at, kind);
      before := Checks(i);
      if world.s.requests[i].stage.Checked? {
        before := AdmitAndAnswer(i);
      }
      EndingPaid(world.c, world.s, i);
      r := world.s.requests[i].stage.end;
    }

    /** The body under `admission`, its exit, and what is stored after it. */
    method AdmitAndAnswer(i: nat) returns (ghost before: State)
      requires i < |world.s.requests| && Is(i, world.s.requests[i]) && world.s.requests[i].stage.Checked?
      modifies world
      ensures Is(i, old(world.s.requests[i])) && world.s.requests[i].stage.Done?
      ensures !world.s.requests[i].stage.end.ServiceRefused?
      ensures world.s.requests[i].stage.end == Ok ==>
                && world.s.requests[i].chat.Some? && Appended(before.chats, world.s.chats, world.s.requests[i])
                && WroteOwn(before.chats, world.s.chats, world.s.requests[i])
    {
      before := world.s;
      var admitted := Admission(i);
      if !admitted {
        return;
      }
      var charged := Charge(i);
      if charged {
        AskLlm(i);
      }
      Leave(i);
      if world.s.requests[i].stage.Persisting? {
        before := Store(i);
      }
    }

    /** The reads that open both operations. */
    method Checks(i: nat) returns (ghost before: State)
      requires i < |world.s.requests| && Is(i, world.s.requests[i]) && world.s.requests[i].stage.Arrived?
      modifies world
      ensures Is(i, old(world.s.requests[i]))
      ensures || world.s.requests[i].stage.Checked?
              || world.s.requests[i].stage == Done(Aborted)
              || (&& world.s.requests[i].stage.Done? && world.s.requests[i].stage.end.ServiceRefused?
                  && RefusedBy(world.c, before.chats, world.s.requests[i].user, world.s.requests[i].kind, world.s.requests[i].stage.end.error))
    {
      world.OthersRun(i);
      before := world.s;
      // An identifier that somebody already has would be refused; drawing one counts as raising.
      var raises: bool, drawn: ChatId := *, *;
      raises := raises || !Unused(world.s, drawn);
      world.Do(i, if raises then Abort(i) else Check(i, drawn));
      if !raises { CheckAnswers(world.c, before, world.s, i, drawn); }
    }

    /** The two messages, committed together, or neither. */
    method Store(i: nat) returns (ghost before: State)
      requires i < |world.s.requests| && Is(i, world.s.requests[i]) && world.s.requests[i].stage.Persisting?
      modifies world
      ensures Is(i, old(world.s.requests[i])) && world.s.requests[i].stage.Done?
      ensures world.s.requests[i].stage.end == Ok || world.s.requests[i].stage.end == Aborted
      ensures world.s.requests[i].stage.end == Ok ==>
                && world.s.requests[i].chat.Some? && Appended(before.chats, world.s.chats, world.s.requests[i])
                && WroteOwn(before.chats, world.s.chats, world.s.requests[i])
    {
      world.OthersRun(i);
      before := world.s;
      var raises: bool := *;
      world.Do(i, if raises then Abort(i) else Persist(i));
      if !raises && world.s.requests[i].stage.end == Ok {
        PersistAppends(before, world.s, i);
        OnlyOwnersWrite(world.c, before, world.s, i);
      }
    }
  }

  lemma MayCall(c: Config, s: State, i: nat)
    requires Reachable(c, s) && i < |s.requests| && (s.requests[i].stage.Charged? || s.requests[i].stage.Retrying?)
    ensures s.requests[i].calls < c.maxAttempts
  {
    ReachableRequest(c, s, i);
    ReachableInv(c, s);
  }

  lemma EndingPaid(c: Config, s: State, i: nat)
    requires Reachable(c, s) && i < |s.requests| && s.requests[i].stage.Done?
    ensures s.requests[i].calls <= c.maxAttempts
    ensures Refusal(s.requests[i].stage.end) ==> s.requests[i].charge.None? && s.requests[i].calls == 0
    ensures s.requests[i].stage.end == Ok ==> PaidByItself(s, s.requests[i]) && s.requests[i].calls >= 1
  {
    ReachableRequest(c, s, i);
  }
}
