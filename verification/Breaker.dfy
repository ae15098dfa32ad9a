/** The circuit breaker: its two fields, step by step, against a description of its event log. */
module Breaker {
  import opened Wrappers

  datatype Breaker = Breaker(failureCount: nat, openedAt: Option<real>)

  /** What happens to a breaker; `req` names the request and means nothing to it. */
  datatype Event = Check(at: real) | Succeed(req: nat) | Fail(at: real, req: nat)

  datatype Limits = Limits(threshold: nat, resetSeconds: nat)

  predicate ValidLimits(l: Limits) {
    l.threshold >= 1 && l.resetSeconds >= 1
  }

  const CLOSED := Breaker(0, None)

  /** Whether the breaker refuses at `now`. */
  predicate Refuses(b: Breaker, l: Limits, now: real) {
    b.openedAt.Some? && now - b.openedAt.value < l.resetSeconds as real
  }

  /** The advice that goes with a refusal: the whole seconds left, at least one. */
  function RetryAfter(b: Breaker, l: Limits, now: real): int
    requires Refuses(b, l, now)
  {
    var left := (l.resetSeconds as real - (now - b.openedAt.value)).Floor;
    if left < 1 then 1 else left
  }

  function Checked(b: Breaker, l: Limits, now: real): Breaker {
    if b.openedAt.None? || Refuses(b, l, now) then b else CLOSED
  }

  function Failed(b: Breaker, l: Limits, now: real): Breaker {
    if b.openedAt.Some? then b
    else if b.failureCount + 1 >= l.threshold then Breaker(b.failureCount + 1, Some(now))
    else Breaker(b.failureCount + 1, None)
  }

  function Step(b: Breaker, l: Limits, e: Event): Breaker {
    match e
    case Check(now) => Checked(b, l, now)
    case Succeed(_) => CLOSED
    case Fail(now, _) => Failed(b, l, now)
  }

  /** The breaker after a log, by its own steps. */
  function After(log: seq<Event>, l: Limits): Breaker {
    if log == [] then CLOSED else Step(After(log[..|log| - 1], l), l, log[|log| - 1])
  }

  // ----- The log read as a whole -----

  /** The instants of the failures from position `from` on. */
  function Failures(log: seq<Event>, from: nat): (times: seq<real>)
    requires from <= |log|
    ensures |times| <= |log| - from
  {
    if |log| == from then []
    else
      Failures(log[..|log| - 1], from)
      + if log[|log| - 1].Fail? then [log[|log| - 1].at] else []
  }

  /** When the window opened: at the failure that made up the threshold since the last reset. */
  function OpenSince(log: seq<Event>, l: Limits): Option<real>
    requires ValidLimits(l)
    decreases |log|, 1
  {
    var failures := Failures(log, LastReset(log, l));
    if |failures| >= l.threshold then Some(failures[l.threshold - 1]) else None
  }

  /** The position after the last reset: a success, or a check that found its window over. */
  function LastReset(log: seq<Event>, l: Limits): (i: nat)
    requires ValidLimits(l)
    ensures i <= |log|
    decreases |log|, 0
  {
    if log == [] then 0
    else
      var front, e := log[..|log| - 1], log[|log| - 1];
      if e.Succeed? || (e.Check? && WindowOver(OpenSince(front, l), l, e.at)) then |log| else LastReset(front, l)
  }

  predicate WindowOver(since: Option<real>, l: Limits, now: real) {
    since.Some? && now - since.value >= l.resetSeconds as real
  }

  function AtMost(n: nat, bound: nat): nat {
    if n <= bound then n else bound
  }

  lemma FailuresFrom(log: seq<Event>, e: Event, from: nat)
    requires from <= |log|
    ensures Failures(log + [e], from) == Failures(log, from) + if e.Fail? then [e.at] else []
  {
    assert (log + [e])[..|log|] == log;
  }

  lemma LastResetStep(log: seq<Event>, l: Limits, e: Event)
    requires ValidLimits(l)
    ensures LastReset(log + [e], l)
            == if e.Succeed? || (e.Check? && WindowOver(OpenSince(log, l), l, e.at)) then |log| + 1 else LastReset(log, l)
    ensures After(log + [e], l) == Step(After(log, l), l, e)
  {
    assert (log + [e])[..|log|] == log;
  }

  /** The state is a reading of the log: the count is that of the failures since the last reset, up to
      the threshold, and the breaker is open, since the failure that reached it, exactly when the count is
      the threshold. Failures recorded while open change nothing, so no window is ever extended. */
  lemma {:induction false} AfterIsTheLog(log: seq<Event>, l: Limits)
    requires ValidLimits(l)
    ensures After(log, l)
            == Breaker(AtMost(|Failures(log, LastReset(log, l))|, l.threshold), OpenSince(log, l))
    ensures After(log, l).openedAt.Some? <==> After(log, l).failureCount == l.threshold
  {
    if log != [] {
      var front, e := log[..|log| - 1], log[|log| - 1];
      assert log == front + [e];
      AfterIsTheLog(front, l);
      LastResetStep(front, l, e);
      FailuresFrom(front, e, LastReset(front, l));
    }
  }

  // ----- Refusals -----

  /** Clock readings in the log are in order and not after `now`. */
  ghost predicate Clocked(log: seq<Event>, now: real) {
    if log == [] then true
    else
      var front, e := log[..|log| - 1], log[|log| - 1];
      if e.Succeed? then Clocked(front, now) else e.at <= now && Clocked(front, e.at)
  }

  lemma {:induction false} LaterClocked(log: seq<Event>, now: real, later: real)
    requires Clocked(log, now) && now <= later
    ensures Clocked(log, later)
  {
    if log != [] && log[|log| - 1].Succeed? {
      LaterClocked(log[..|log| - 1], now, later);
    }
  }

  lemma {:induction false} FailuresAreClocked(log: seq<Event>, from: nat, now: real)
    requires Clocked(log, now) && from <= |log|
    ensures forall k :: 0 <= k < |Failures(log, from)| ==> Failures(log, from)[k] <= now
  {
    if |log| > from {
      var e := log[|log| - 1];
      FailuresAreClocked(log[..|log| - 1], from, if e.Succeed? then now else e.at);
    }
  }

  /** Every refusal lies inside the window that the threshold-th failure since the last reset opened,
      whatever failed after it; its advice lies in [1, resetSeconds] and is the time left, rounded down to
      whole seconds but never to none. */
  lemma RefusalIsInTheWindow(log: seq<Event>, l: Limits, now: real)
    requires ValidLimits(l) && Clocked(log, now)
    ensures Refuses(After(log, l), l, now)
            <==> |Failures(log, LastReset(log, l))| >= l.threshold
                 && now < Failures(log, LastReset(log, l))[l.threshold - 1] + l.resetSeconds as real
    ensures Refuses(After(log, l), l, now) ==> 1 <= RetryAfter(After(log, l), l, now) <= l.resetSeconds
    ensures Refuses(After(log, l), l, now) ==>
              var left := OpenSince(log, l).value + l.resetSeconds as real - now;
              var advice := RetryAfter(After(log, l), l, now);
              && OpenSince(log, l).value <= now && left > 0.0
              && (if left >= 1.0 then advice as real <= left < advice as real + 1.0 else advice == 1)
  {
    AfterIsTheLog(log, l);
    FailuresAreClocked(log, LastReset(log, l), now);
    if Refuses(After(log, l), l, now) {
      FloorBounds(l.resetSeconds, now - OpenSince(log, l).value);
    }
  }

  lemma FloorBounds(n: nat, x: real)
    requires n >= 1 && 0.0 <= x < n as real
    ensures (n as real - x).Floor <= n
    ensures (n as real - x).Floor as real <= n as real - x
  {}

  /** A check that is not refused leaves the breaker closed. */
  lemma AdmittedIsClosed(log: seq<Event>, l: Limits, now: real)
    requires ValidLimits(l) && !Refuses(After(log, l), l, now)
    ensures After(log + [Check(now)], l).openedAt.None?
    ensures OpenSince(log + [Check(now)], l) == None
  {
    LastResetStep(log, l, Check(now));
    AfterIsTheLog(log + [Check(now)], l);
  }

  class CircuitBreaker {
    const limits: Limits
    var failureCount: nat
    var openedAt: Option<real>
    var clock: real
    ghost var log: seq<Event>

    ghost predicate Valid()
      reads this
    {
      ValidLimits(limits) && Breaker(failureCount, openedAt) == After(log, limits) && Clocked(log, clock)
    }

    constructor (failureThreshold: nat, resetSeconds: nat, monotonic: real)
      requires failureThreshold >= 1 && resetSeconds >= 1
      ensures Valid() && limits == Limits(failureThreshold, resetSeconds) && log == []
    {
      limits := Limits(failureThreshold, resetSeconds);
      failureCount, openedAt, clock, log := 0, None, monotonic, [];
    }

    /** `time.monotonic()`, which never runs backwards. */
    method Monotonic() returns (now: real)
      requires Valid()
      modifies this`clock
      ensures Valid() && clock == now && old(clock) <= now
    {
      now := *;
      if now < clock {
        now := clock;
      }
      LaterClocked(log, clock, now);
      clock := now;
    }

    /** Admits, or refuses with the seconds to wait. */
    method BeforeCall() returns (refusal: Option<int>)
      requires Valid()
      modifies this
      ensures Valid() && old(clock) <= clock && log == old(log) + [Check(clock)]
      ensures refusal.Some? <==> OpenSince(old(log), limits).Some? && !WindowOver(OpenSince(old(log), limits), limits, clock)
      ensures refusal.Some? ==> 1 <= refusal.value <= limits.resetSeconds
      ensures refusal.Some? ==> Refuses(After(old(log), limits), limits, clock)
                                && refusal.value == RetryAfter(After(old(log), limits), limits, clock)
      ensures refusal.None? ==> openedAt.None?
    {
      var now := Monotonic();
      AfterIsTheLog(log, limits);
      RefusalIsInTheWindow(log, limits, now);
      LastResetStep(log, limits, Check(now));
      LogEvent(log, Check(now), now);
      log := log + [Check(now)];
      if openedAt.None? {
        return None;
      }
      var elapsed := now - openedAt.value;
      if elapsed >= limits.resetSeconds as real {
        openedAt, failureCount := None, 0;
        return None;
      }
      var left := (limits.resetSeconds as real - elapsed).Floor;
      refusal := Some(if left < 1 then 1 else left);
    }

    method RecordSuccess(req: nat)
      requires Valid()
      modifies this
      ensures Valid() && log == old(log) + [Succeed(req)]
      ensures failureCount == 0 && openedAt.None? && clock == old(clock)
    {
      LastResetStep(log, limits, Succeed(req));
      LogEvent(log, Succeed(req), clock);
      log := log + [Succeed(req)];
      failureCount, openedAt := 0, None;
    }

    method RecordFailure(req: nat)
      requires Valid()
      modifies this
      ensures Valid() && old(clock) <= clock && log == old(log) + [Fail(clock, req)]
      ensures old(openedAt).Some? ==> failureCount == old(failureCount) && openedAt == old(openedAt)
      ensures old(openedAt).None? ==> failureCount == old(failureCount) + 1
                                      && openedAt == if failureCount == limits.threshold then Some(clock) else None
    {
      var now := Monotonic();
      AfterIsTheLog(log, limits);
      LastResetStep(log, limits, Fail(now, req));
      LogEvent(log, Fail(now, req), now);
      log := log + [Fail(now, req)];
      if openedAt.Some? {
        return;
      }
      failureCount := failureCount + 1;
      if failureCount >= limits.threshold {
        openedAt := Some(now);
      }
    }
  }

  lemma LogEvent(log: seq<Event>, e: Event, now: real)
    requires Clocked(log, now) && (e.Succeed? || e.at == now)
    ensures Clocked(log + [e], now)
  {
    assert (log + [e])[..|log|] == log;
  }
}
