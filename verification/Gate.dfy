/** The execution gate: a queue of slot tokens around a semaphore, with every exit path of `hold`. */
module Gate {
  import opened Wrappers

  /** What is free: slot tokens in the queue and permits of the semaphore. */
  datatype Room = Room(slots: nat, permits: nat)

  /** `get_nowait`: refused when no token is free. */
  function TakeSlot(g: Room): Option<Room> {
    if g.slots == 0 then None else Some(g.(slots := g.slots - 1))
  }

  /** The semaphore: a request waits while no permit is free. */
  function TakePermit(g: Room): Option<Room> {
    if g.permits == 0 then None else Some(g.(permits := g.permits - 1))
  }

  function GivePermit(g: Room): Room {
    g.(permits := g.permits + 1)
  }

  /** `put_nowait`: a full queue would swallow the token. */
  function GiveSlot(g: Room, capacity: nat): (r: Room)
    ensures g.slots <= capacity ==> r.slots <= capacity
  {
    if g.slots >= capacity then g else g.(slots := g.slots + 1)
  }

  /** The same on the tokens themselves. */
  function PutBack<T>(queue: seq<T>, token: T, capacity: nat): (r: seq<T>)
    ensures |queue| <= capacity ==> |r| <= capacity
  {
    if |queue| >= capacity then queue else queue + [token]
  }

  function Tokens(queue: seq<nat>): set<nat> {
    set t | t in queue
  }

  ghost predicate Distinct(queue: seq<nat>) {
    forall i, j :: 0 <= i < j < |queue| ==> queue[i] != queue[j]
  }

  datatype BodyEnds = Returns | Raises | IsCancelled

  /** How `hold` ends: refused at the door, cancelled in the queue, or after its body. */
  datatype HoldEnds = QueueFullError(retryAfter: nat) | CancelledWaiting | Ran(body: BodyEnds)

  class LLMExecutionGate {
    const maxConcurrency: nat
    const totalSlots: nat
    const retryAfterSeconds: nat
    var slots: seq<nat>
    var permits: nat
    // The tokens that are out, and of those the ones whose body runs: what the callers' frames remember.
    var held: set<nat>
    var running: set<nat>

    /** Free tokens and held ones are all the tokens there are; so are permits and running bodies. */
    ghost predicate Valid()
      reads this
    {
      && Distinct(slots) && Tokens(slots) !! held && |slots| + |held| == totalSlots
      && running <= held && permits + |running| == maxConcurrency
    }

    function Free(): Room
      reads this
    {
      Room(|slots|, permits)
    }

    constructor (maxConcurrency: nat, maxQueue: nat, retryAfterSeconds: nat)
      ensures Valid() && held == {} && running == {} && Free() == Room(maxConcurrency + maxQueue, maxConcurrency)
      ensures totalSlots == maxConcurrency + maxQueue && this.maxConcurrency == maxConcurrency
    {
      this.maxConcurrency, totalSlots := maxConcurrency, maxConcurrency + maxQueue;
      this.retryAfterSeconds := retryAfterSeconds;
      slots, permits, held, running := seq(maxConcurrency + maxQueue, i => i), maxConcurrency, {}, {};
    }

    /** `get_nowait`: refused exactly when every token is held. */
    method GetNowait() returns (token: Option<nat>)
      requires Valid()
      modifies this`slots, this`held
      ensures Valid()
      ensures token.None? <==> |old(held)| == totalSlots
      ensures TakeSlot(old(Free())) == if token.Some? then Some(Free()) else None
      ensures token.None? ==> slots == old(slots) && held == old(held)
      ensures token.Some? ==> token.value !in old(held) && held == old(held) + {token.value}
                              && old(slots) == [token.value] + slots
    {
      if slots == [] {
        return None;
      }
      assert slots[0] in Tokens(slots);
      token := Some(slots[0]);
      slots, held := slots[1..], held + {slots[0]};
    }

    /** A held token always finds room in the queue: the swallowed exception cannot occur. */
    method PutNowait(token: nat)
      requires Valid() && token in held && token !in running
      modifies this`slots, this`held
      ensures Valid() && slots == old(slots) + [token] && held == old(held) - {token}
      ensures Free() == GiveSlot(old(Free()), totalSlots) && Free().slots == old(Free()).slots + 1
    {
      assert held == (held - {token}) + {token};
      slots, held := PutBack(slots, token, totalSlots), held - {token};
    }

    /** The semaphore, when a permit is free. */
    method AcquirePermit(token: nat)
      requires Valid() && token in held && token !in running && permits > 0
      modifies this`permits, this`running
      ensures Valid() && running == old(running) + {token} && TakePermit(old(Free())) == Some(Free())
    {
      permits, running := permits - 1, running + {token};
    }

    method ReleasePermit(token: nat)
      requires Valid() && token in running
      modifies this`permits, this`running
      ensures Valid() && running == old(running) - {token} && Free() == GivePermit(old(Free()))
    {
      assert running == (running - {token}) + {token};
      permits, running := permits + 1, running - {token};
    }

    /** One move of another request: it enters, starts its body, ends its body or leaves. */
    method OthersMove(mine: nat)
      requires Valid() && mine in held
      modifies this
      ensures Valid() && mine in held && (mine in running <==> mine in old(running))
    {
      var move: nat, other: nat := *, *;
      if move == 0 {
        var _ := GetNowait();
      } else if other != mine && other in held {
        if other in running {
          ReleasePermit(other);
        } else if move == 1 && permits > 0 {
          AcquirePermit(other);
        } else {
          PutNowait(other);
        }
      }
    }

    method OthersRun(mine: nat)
      requires Valid() && mine in held
      modifies this
      ensures Valid() && mine in held && (mine in running <==> mine in old(running))
    {
      var n: nat := *;
      while n > 0
        invariant Valid() && mine in held && (mine in running <==> mine in old(running))
      {
        OthersMove(mine);
        n := n - 1;
      }
    }

    /** `hold` around a body that ends as `body` says, or cancelled while it waits. It is refused exactly
        when every token is held, runs its body when a permit is free, and always with its token among the
        running ones, which are never more than the permits; on every path but the refusal the token it took
        is back in the queue. `during` is the tokens that ran when the body began. */
    method Hold(body: BodyEnds) returns (r: HoldEnds, ghost token: Option<nat>, ghost during: set<nat>)
      requires Valid()
      modifies this
      ensures Valid()
      ensures r.QueueFullError? <==> |old(held)| == totalSlots
      ensures r.QueueFullError? ==> r.retryAfter == retryAfterSeconds
                                    && slots == old(slots) && permits == old(permits) && held == old(held)
      ensures token.Some? <==> !r.QueueFullError?
      ensures token.Some? ==> token.value in Tokens(old(slots)) && token.value in Tokens(slots)
                              && token.value !in held && token.value !in running
      ensures r.Ran? ==> r.body == body && token.value in during && |during| <= maxConcurrency
      ensures !r.QueueFullError? && old(permits) > 0 ==> r.Ran?
    {
      during := {};
      var taken := GetNowait();
      token := taken;
      if taken.None? {
        return QueueFullError(retryAfterSeconds), token, during;
      }
      assert old(slots)[0] == taken.value;
      var mine := taken.value;
      var patience: nat := *;
      while permits == 0 && patience > 0
        invariant Valid() && mine in held && mine !in running
        invariant old(permits) > 0 ==> permits > 0
        decreases patience
      {
        OthersRun(mine);
        patience := patience - 1;
      }
      if permits == 0 {
        PutNowait(mine);
        assert slots[|slots| - 1] == mine;
        return CancelledWaiting, token, during;
      }
      AcquirePermit(mine);
      during := running;
      OthersRun(mine);
      ReleasePermit(mine);
      PutNowait(mine);
      assert slots[|slots| - 1] == mine;
      r := Ran(body);
    }
  }
}
