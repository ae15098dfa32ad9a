/** The charge as structured code over shared rows, each statement one step of the transition system. */
module QuotaService {
  import opened Wrappers
  import opened QuotaModel
  import opened QuotaMachine
  import opened QuotaInvariant
  import opened QuotaTheorems

  /** A returned value, a refusal, or any other exception. */
  datatype Outcome<+T> = Ok(value: T) | Refused(error: QuotaError) | Raised

  class Rows {
    var s: State

    constructor (store: Store)
      ensures s.store == store && Reachable(s)
    {
      s := State(store, store, [], map[], map[], []);
      new;
      ReachableInit(s);
    }

    /** Any number of events of anybody else. */
    method OthersRun(t: nat)
      requires Reachable(s) && t < |s.txs|
      modifies this
      ensures Reachable(s) && t < |s.txs| && s.txs[t] == old(s.txs[t])
    {
      var n: nat := *;
      while n > 0
        invariant Reachable(s) && t < |s.txs| && s.txs[t] == old(s.txs[t])
      {
        var e: Event := *;
        var next := Next(s, e);
        if next.Some? && !Moves(e, t) {
          ReachableOthers(s, next.value, e, t);
          s := next.value;
        }
        n := n - 1;
      }
    }

    /** The session opens: one transaction begins with its captured instant. */
    method Begin(user: UserId, at: Instant) returns (t: nat)
      requires Reachable(s)
      modifies this
      ensures Reachable(s) && t < |s.txs| && s.txs[t] == Tx(user, at, Locking(None, []))
    {
      t := |s.txs|;
      var next := Next(s, BeginCharge(user, at)).value;
      ReachableNext(s, next, BeginCharge(user, at));
      s := next;
    }

    /** One statement: the others run, and then it executes, or the transaction dies of an exception or
        of a lock wait that never ends. `before` is the committed state it executed on. */
    method Execute(t: nat) returns (ok: bool, ghost before: State)
      requires Reachable(s) && t < |s.txs| && !Ended(s.txs[t].pc)
      modifies this
      ensures Reachable(s) && Reachable(before) && t < |before.txs| && before.txs[t] == old(s.txs[t])
      ensures t < |s.txs| && s.txs[t].user == old(s.txs[t].user) && s.txs[t].at == old(s.txs[t].at)
      ensures ok ==> Step(before, t) == Some(s)
      ensures !ok ==> s.txs[t].pc == Dead && s.store == before.store && s.log == before.log
    {
      OthersRun(t);
      before := s;
      var raises: bool := *;
      var next := Step(s, t);
      if !raises && next.Some? {
        ReachableStep(s, next.value, t);
        s := next.value;
        return true, before;
      }
      var dead := End(s, t, Dead);
      ReachableNext(s, dead, Crash(t));
      s := dead;
      ok := false;
    }
  }

  lemma ReachableOthers(s: State, s': State, e: Event, t: nat)
    requires Reachable(s) && Next(s, e) == Some(s') && t < |s.txs| && !Moves(e, t)
    ensures Reachable(s') && t < |s'.txs| && s'.txs[t] == s.txs[t]
  {
    ReachableInv(s);
    OthersSame(s, s', e, t);
    ReachableNext(s, s', e);
  }

  lemma ReachableStep(s: State, s': State, t: nat)
    requires Reachable(s) && t < |s.txs| && Step(s, t) == Some(s')
    ensures Reachable(s') && t < |s'.txs|
    ensures s'.txs[t].user == s.txs[t].user && s'.txs[t].at == s.txs[t].at
  {
    if !s.txs[t].pc.Charged? {
      ReachableInv(s);
      StepLocal(s, s', t);
    }
    assert Next(s, Advance(t)) == Some(s');
    ReachableNext(s, s', Advance(t));
  }

  class QuotaService {
    const rows: Rows

    constructor (rows: Rows)
      ensures this.rows == rows
    {
      this.rows := rows;
    }

    /** `lock_effective_grants`, ascending by id. */
    method LockEffectiveGrants(t: nat) returns (r: Outcome<seq<GrantId>>)
      requires Reachable(rows.s) && t < |rows.s.txs| && rows.s.txs[t].pc == Locking(None, [])
      modifies rows
      ensures Reachable(rows.s) && t < |rows.s.txs| && SameTx(old(rows.s.txs[t]), rows.s.txs[t])
      ensures !r.Refused?
      ensures r.Ok? ==> rows.s.txs[t].pc == Locking(Some([]), r.value)
      ensures r.Ok? ==> r.value == EffectiveGrants(rows.s.store, rows.s.txs[t].user, rows.s.txs[t].at)
      ensures r.Raised? ==> rows.s.txs[t].pc == Dead
    {
      var ok, before := rows.Execute(t);
      if !ok {
        return Raised;
      }
      while rows.s.txs[t].pc.todo.value != []
        invariant Reachable(rows.s) && t < |rows.s.txs| && SameTx(old(rows.s.txs[t]), rows.s.txs[t])
        invariant rows.s.txs[t].pc.Locking? && rows.s.txs[t].pc.todo.Some?
        decreases |rows.s.txs[t].pc.todo.value|
      {
        ok, before := rows.Execute(t);
        if !ok {
          return Raised;
        }
      }
      LockedThemAll(rows.s, t);
      r := Ok(rows.s.txs[t].pc.got);
    }

    ghost predicate SameTx(a: Tx, b: Tx) {
      a.user == b.user && a.at == b.at
    }

    /** One more statement of a charge that may end it. */
    method Proceed(t: nat) returns (r: Outcome<()>, ghost before: State)
      requires Reachable(rows.s) && t < |rows.s.txs|
      requires (rows.s.txs[t].pc.Locking? && rows.s.txs[t].pc.todo == Some([])) || rows.s.txs[t].pc.WantUsage? || rows.s.txs[t].pc.Holding?
      modifies rows
      ensures Reachable(rows.s) && Reachable(before) && t < |rows.s.txs| && SameTx(old(rows.s.txs[t]), rows.s.txs[t])
      ensures rows.s.store == before.store && rows.s.log == before.log
      ensures r.Ok? ==> Follows(old(rows.s.txs[t].pc), rows.s.txs[t].pc)
      ensures r.Refused? ==> ChargeOutcome(rows.s.store, rows.s.txs[t].user, rows.s.txs[t].at) == Failure(r.error)
      ensures r.Refused? ==> rows.s.txs[t].pc == Finished(Failure(r.error))
      ensures r.Raised? ==> rows.s.txs[t].pc == Dead
    {
      var ok;
      ok, before := rows.Execute(t);
      if !ok {
        return Raised, before;
      }
      RefusalsWriteNothing(before, rows.s, t);
      ProceedsInOrder(before, rows.s, t);
      r := if rows.s.txs[t].pc.Finished? then Refused(rows.s.txs[t].pc.outcome.error) else Ok(());
    }

    /** The statements of a charge, one after another. */
    method Attempted(user: UserId, at: Instant) returns (r: Outcome<()>, ghost before: State)
      requires Reachable(rows.s)
      modifies rows
      ensures Reachable(rows.s) && Reachable(before)
      ensures r.Ok? ==> ChargeOutcome(before.store, user, at) == Success(rows.s.store)
      ensures r.Ok? ==> exists g :: rows.s.log == before.log + [Entry(user, at, g)]
      ensures r.Refused? ==> ChargeOutcome(rows.s.store, user, at) == Failure(r.error)
      ensures !r.Ok? ==> rows.s.store == before.store && rows.s.log == before.log
    {
      var t := rows.Begin(user, at);
      var grants := LockEffectiveGrants(t);
      before := rows.s;
      if grants.Raised? {
        return Raised, before;
      }
      // The count of grants is judged here; one grant's usage row is locked next.
      r, before := Proceed(t);
      if !r.Ok? {
        return r, before;
      }
      r, before := Proceed(t);
      if !r.Ok? {
        return r, before;
      }
      // The allowance is compared here, before the increment.
      r, before := Proceed(t);
      if !r.Ok? {
        return r, before;
      }
      var ok;
      ok, before := rows.Execute(t);
      if !ok {
        return Raised, before;
      }
      CommitsAreAtomicCharges(before, rows.s, t);
      r := Ok(());
    }

    /** `charge`. On success the committed rows are exactly the atomic charge of the rows that were
        committed just before; on a refusal they refuse it at that very moment, and nothing was written. */
    method Charge(user: UserId, at: Instant) returns (r: Outcome<()>, ghost before: State)
      requires Reachable(rows.s)
      modifies rows
      ensures Reachable(rows.s) && Reachable(before)
      ensures r.Ok? ==> ChargeOutcome(before.store, user, at) == Success(rows.s.store)
      ensures r.Ok? ==> |rows.s.log| == |before.log| + 1 && rows.s.log[..|before.log|] == before.log
      ensures r.Ok? ==> var e := rows.s.log[|before.log|]; e.user == user && e.at == at && Only(rows.s.store, e.grant, user, at)
      ensures r.Refused? ==> (r.error == NoEffectiveGrant <==> forall g: GrantId :: !Chargeable(rows.s.store, g, user, at))
      ensures r == Refused(AllowanceExhausted) ==>
                exists g: GrantId :: Only(rows.s.store, g, user, at) && g in rows.s.store.usage
                                     && rows.s.store.grants[g].tier in rows.s.store.tiers && RoomLeft(rows.s.store, g, at) <= 0
      ensures r.Refused? ==> ChargeOutcome(rows.s.store, user, at) == Failure(r.error)
      ensures !r.Ok? ==> rows.s.store == before.store && rows.s.log == before.log
    {
      r, before := Attempted(user, at);
      if r.Ok? {
        ChargesAreOnTheOneGrant(rows.s, |before.log|);
      } else if r.Refused? {
        RefusalSpelledOut(rows.s.store, user, at, r.error);
      }
    }
  }

  lemma RefusalSpelledOut(s: Store, user: UserId, at: Instant, e: QuotaError)
    requires ChargeOutcome(s, user, at) == Failure(e)
    ensures e == NoEffectiveGrant <==> forall g: GrantId :: !Chargeable(s, g, user, at)
    ensures e == AllowanceExhausted ==>
              exists g: GrantId :: Only(s, g, user, at) && g in s.usage && s.grants[g].tier in s.tiers && RoomLeft(s, g, at) <= 0
  {
    ChargeIsSpelledOut(s, user, at);
    GrantsAreChargeable(s, user, at);
    if e == AllowanceExhausted {
      assert Only(s, EffectiveGrants(s, user, at)[0], user, at);
    }
  }

  /** The program counter that follows `pc` in a charge, given the one it was found to move to. */
  predicate Follows(pc: Pc, pc': Pc) {
    || (pc.Locking? && pc'.WantUsage?)
    || (pc.WantUsage? && pc'.Holding?)
    || (pc.Holding? && pc'.Charged?)
  }

  lemma ProceedsInOrder(s: State, s': State, t: nat)
    requires t < |s.txs| && Step(s, t) == Some(s') && t < |s'.txs|
    requires (s.txs[t].pc.Locking? && s.txs[t].pc.todo == Some([])) || s.txs[t].pc.WantUsage? || s.txs[t].pc.Holding?
    ensures Follows(s.txs[t].pc, s'.txs[t].pc) || (s'.txs[t].pc.Finished? && s'.txs[t].pc.outcome.Failure?)
  {}

  lemma LockedThemAll(s: State, t: nat)
    requires Reachable(s) && t < |s.txs| && s.txs[t].pc.Locking? && s.txs[t].pc.todo == Some([])
    ensures s.txs[t].pc.got == EffectiveGrants(s.store, s.txs[t].user, s.txs[t].at)
  {
    ReachableTx(s, t);
    assert s.txs[t].pc.got + [] == s.txs[t].pc.got;
  }
}
