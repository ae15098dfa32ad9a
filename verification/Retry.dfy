/** The retry loop around one provider operation, on a breaker shared with other requests. */
module Retry {
  import opened Wrappers
  import opened Breaker

  /** What an exception of the provider shows: its classes, its status code, that of its response. */
  datatype ProviderError = ProviderError(
    timedOut: bool,
    retryableClass: bool,
    statusCode: Option<int>,
    response: Option<Option<int>>)

  function ExtractStatusCode(e: ProviderError): Option<int> {
    if e.statusCode.Some? then e.statusCode
    else if e.response.Some? then e.response.value
    else None
  }

  const TRANSIENT_STATUSES := {408, 409, 429, 500, 502, 503, 504}

  predicate IsTransientError(e: ProviderError) {
    || e.timedOut
    || e.retryableClass
    || (ExtractStatusCode(e).Some? && ExtractStatusCode(e).value in TRANSIENT_STATUSES)
  }

  /** How one attempt's operation ends. `Bypassed` is a queue or breaker refusal out of the operation. */
  datatype Outcome<V> = Returned(value: V) | Raised(error: ProviderError) | Bypassed | Cancelled

  datatype Answer<V> = Value(value: V) | Transient(error: ProviderError) | Permanent(error: ProviderError) | PassedThrough | Abandoned

  /** One attempt, triaged. */
  function Triage<V>(o: Outcome<V>): Answer<V> {
    match o
    case Returned(v) => Value(v)
    case Raised(e) => if IsTransientError(e) then Transient(e) else Permanent(e)
    case Bypassed => PassedThrough
    case Cancelled => Abandoned
  }

  predicate ShouldRetry<V>(a: Answer<V>) {
    a.Transient?
  }

  /** The status an exception shows: its own, or failing that its response's. */
  ghost predicate Shows(e: ProviderError, status: int) {
    e.statusCode == Some(status) || (e.statusCode.None? && e.response == Some(Some(status)))
  }

  /** What makes an exception worth another attempt, read off its fields. */
  ghost predicate Passing(e: ProviderError) {
    || e.timedOut || e.retryableClass
    || Shows(e, 408) || Shows(e, 409) || Shows(e, 429)
    || Shows(e, 500) || Shows(e, 502) || Shows(e, 503) || Shows(e, 504)
  }

  /** An operation's end, answered: a value as it is, a passing exception as transient, any other exception
      as permanent; and only a passing exception asks for another attempt. */
  lemma TriageIsSpelledOut<V>(o: Outcome<V>)
    ensures match o
            case Returned(v) => Triage(o) == Value(v)
            case Raised(e) => Triage(o) == if Passing(e) then Transient(e) else Permanent(e)
            case Bypassed => Triage(o) == PassedThrough
            case Cancelled => Triage(o) == Abandoned
    ensures ShouldRetry(Triage(o)) <==> o.Raised? && Passing(o.error)
  {}

  /** `n` attempts: each but the last raised a passing exception, and the last did not or was the last allowed. */
  ghost predicate GoesThrough<V>(os: seq<Outcome<V>>, max: nat, n: nat) {
    && 1 <= n <= max && n <= |os|
    && (forall k :: 0 <= k < n - 1 ==> os[k].Raised? && Passing(os[k].error))
    && (n == max || !os[n - 1].Raised? || !Passing(os[n - 1].error))
  }

  lemma StopsIsSpelledOut<V>(os: seq<Outcome<V>>, max: nat, n: nat)
    ensures Stops(os, max, n) <==> GoesThrough(os, max, n)
  {
    forall k | 0 <= k < |os| ensures ShouldRetry(Triage(os[k])) <==> os[k].Raised? && Passing(os[k].error) {
      TriageIsSpelledOut(os[k]);
    }
  }

  datatype Policy = Policy(maxAttempts: nat, base: real, cap: real)

  ghost predicate ValidPolicy(p: Policy) {
    p.maxAttempts >= 1 && p.base >= 0.0 && p.cap >= 0.0
  }

  /** The base times 2 to the `k`. */
  function Doubled(base: real, k: nat): (r: real)
    ensures base >= 0.0 ==> r >= base
    ensures r > 0.0 <==> base > 0.0
  {
    if k == 0 then base else 2.0 * Doubled(base, k - 1)
  }

  /** The wait after attempt `k`, counted from 1: it doubles from the base up to the cap. */
  function Backoff(p: Policy, k: nat): real
    requires k >= 1
  {
    if Doubled(p.base, k - 1) <= p.cap then Doubled(p.base, k - 1) else p.cap
  }

  /** The first wait is the base, each next one twice as long, and none longer than the cap. */
  lemma BackoffDoubles(p: Policy, k: nat)
    requires ValidPolicy(p) && k >= 1
    ensures Backoff(p, 1) == if p.base <= p.cap then p.base else p.cap
    ensures Backoff(p, k + 1) == if 2.0 * Backoff(p, k) <= p.cap then 2.0 * Backoff(p, k) else p.cap
  {}

  /** The sleeps after the first `n` attempts: a wait of zero issues none. */
  function Sleeps(p: Policy, n: nat): seq<real> {
    if n == 0 then []
    else Sleeps(p, n - 1) + if Backoff(p, n) > 0.0 then [Backoff(p, n)] else []
  }

  function Total(xs: seq<real>): real {
    if xs == [] then 0.0 else Total(xs[..|xs| - 1]) + xs[|xs| - 1]
  }

  lemma CapsMonotone(n: nat, max: nat, cap: real)
    requires n <= max && cap >= 0.0
    ensures n as real * cap <= max as real * cap
  {}

  lemma BackoffGrows(p: Policy, k: nat)
    requires ValidPolicy(p) && k >= 1
    ensures 0.0 <= Backoff(p, k) <= Backoff(p, k + 1) <= p.cap
  {}

  /** At most `n` sleeps, each positive and at most `last`, none shorter than one before it, in total at
      most `n` caps. */
  ghost predicate Bounded(s: seq<real>, n: nat, last: real, cap: real) {
    && |s| <= n
    && (forall i, j :: 0 <= i < j < |s| ==> s[i] <= s[j])
    && (forall i :: 0 <= i < |s| ==> 0.0 < s[i] <= last)
    && Total(s) <= n as real * cap
  }

  lemma OneMoreSleep(s: seq<real>, n: nat, last: real, w: real, next: real, cap: real)
    requires n > 0 && Bounded(s, n - 1, last, cap) && 0.0 <= w && last <= w <= next && w <= cap
    ensures Bounded(if w > 0.0 then s + [w] else s, n, next, cap)
  {
    assert (s + [w])[..|s|] == s;
    OneMoreCap(n, cap);
  }

  /** The sleeps never shrink, each is positive and at most the wait that would come next, and together
      they stay within the cap per retry. */
  lemma {:induction false} SleepsAreBounded(p: Policy, n: nat)
    requires ValidPolicy(p)
    ensures Bounded(Sleeps(p, n), n, Backoff(p, n + 1), p.cap)
  {
    if n > 0 {
      SleepsAreBounded(p, n - 1);
      BackoffGrows(p, n);
      OneMoreSleep(Sleeps(p, n - 1), n, Backoff(p, n), Backoff(p, n), Backoff(p, n + 1), p.cap);
      assert Sleeps(p, n - 1) + [] == Sleeps(p, n - 1);
    }
  }

  /** There is one sleep a retry, unless the base or the cap is zero: then there is none. */
  lemma {:induction false} SleepsAreCounted(p: Policy, n: nat)
    requires ValidPolicy(p)
    ensures |Sleeps(p, n)| == if p.base > 0.0 && p.cap > 0.0 then n else 0
  {
    if n > 0 {
      SleepsAreCounted(p, n - 1);
    }
  }

  /** While the cap is not reached the sleeps add up to one base less than the next doubling. */
  lemma {:induction false} SleepsAddUp(p: Policy, n: nat)
    requires ValidPolicy(p) && p.base > 0.0 && (n > 0 ==> Doubled(p.base, n - 1) <= p.cap)
    ensures Total(Sleeps(p, n)) + p.base == Doubled(p.base, n)
  {
    if n > 0 {
      SleepsAddUp(p, n - 1);
      assert Sleeps(p, n) == Sleeps(p, n - 1) + [Doubled(p.base, n - 1)];
      assert Sleeps(p, n)[..|Sleeps(p, n)| - 1] == Sleeps(p, n - 1);
    }
  }

  lemma OneMoreCap(n: nat, cap: real)
    requires n > 0
    ensures (n - 1) as real * cap + cap == n as real * cap
  {}

  /** The breaker events of an attempt: one for a value or a provider failure, none otherwise. */
  function Recorded<V>(o: Outcome<V>): seq<bool> {
    match o
    case Returned(_) => [true]
    case Raised(_) => [false]
    case Bypassed => []
    case Cancelled => []
  }

  function AllRecorded<V>(os: seq<Outcome<V>>): seq<bool> {
    if os == [] then [] else AllRecorded(os[..|os| - 1]) + Recorded(os[|os| - 1])
  }

  /** Of a breaker's log, what one request recorded: its successes and failures in order. */
  ghost function Own(log: seq<Event>, req: nat): seq<bool> {
    if log == [] then []
    else
      var e := log[|log| - 1];
      Own(log[..|log| - 1], req)
      + (if e.Succeed? && e.req == req then [true] else if e.Fail? && e.req == req then [false] else [])
  }

  lemma OwnGrows(log: seq<Event>, e: Event, req: nat)
    ensures Own(log + [e], req)
            == Own(log, req) + (if e.Succeed? && e.req == req then [true] else if e.Fail? && e.req == req then [false] else [])
  {
    assert (log + [e])[..|log|] == log;
  }

  /** `n` attempts are made: all but the last end transiently, and the last does not or is the last allowed. */
  ghost predicate Stops<V>(os: seq<Outcome<V>>, max: nat, n: nat) {
    && 1 <= n <= max && n <= |os|
    && (forall k :: 0 <= k < n - 1 ==> ShouldRetry(Triage(os[k])))
    && (n == max || !ShouldRetry(Triage(os[n - 1])))
  }

  lemma StopsAtOnePlace<V>(os: seq<Outcome<V>>, max: nat, m: nat, n: nat)
    requires Stops(os, max, m) && Stops(os, max, n)
    ensures m == n
  {}

  /** There is one such number: whatever the outcomes, the loop stops, and at one place. */
  lemma StopsOnce<V>(os: seq<Outcome<V>>, max: nat) returns (n: nat)
    requires 1 <= max <= |os|
    ensures Stops(os, max, n)
    ensures forall m: nat :: Stops(os, max, m) ==> m == n
  {
    n := 1;
    while n < max && ShouldRetry(Triage(os[n - 1]))
      invariant 1 <= n <= max
      invariant forall k :: 0 <= k < n - 1 ==> ShouldRetry(Triage(os[k]))
    {
      n := n + 1;
    }
    forall m: nat | Stops(os, max, m) ensures m == n {
      if m != n {
        StopsAtOnePlace(os, max, m, n);
        assert false;
      }
    }
  }

  /** An attempt count of one request never touches what another recorded. */
  method OthersRun(breaker: CircuitBreaker, req: nat)
    requires breaker.Valid()
    modifies breaker
    ensures breaker.Valid() && Own(breaker.log, req) == Own(old(breaker.log), req)
  {
    var n: nat := *;
    while n > 0
      invariant breaker.Valid() && Own(breaker.log, req) == Own(old(breaker.log), req)
    {
      var other: nat, what: nat := *, *;
      ghost var before := breaker.log;
      if what == 0 {
        var _ := breaker.BeforeCall();
        OwnGrows(before, Check(breaker.clock), req);
      } else if other != req && what == 1 {
        breaker.RecordSuccess(other);
        OwnGrows(before, Succeed(other), req);
      } else if other != req {
        breaker.RecordFailure(other);
        OwnGrows(before, Fail(breaker.clock, other), req);
      }
      n := n - 1;
    }
  }

  /** One attempt: the operation's outcome is recorded on the breaker, once, and triaged. */
  method Attempt<V>(breaker: CircuitBreaker, o: Outcome<V>, req: nat) returns (a: Answer<V>)
    requires breaker.Valid()
    modifies breaker
    ensures breaker.Valid() && a == Triage(o)
    ensures match o
            case Returned(v) => a == Value(v)
            case Raised(e) => a == if Passing(e) then Transient(e) else Permanent(e)
            case Bypassed => a == PassedThrough
            case Cancelled => a == Abandoned
    ensures Own(breaker.log, req) == Own(old(breaker.log), req) + Recorded(o)
  {
    TriageIsSpelledOut(o);
    OthersRun(breaker, req);
    ghost var before := breaker.log;
    match o {
      case Bypassed =>
        a := PassedThrough;
      case Cancelled =>
        a := Abandoned;
      case Raised(e) =>
        breaker.RecordFailure(req);
        OwnGrows(before, Fail(breaker.clock, req), req);
        a := if IsTransientError(e) then Transient(e) else Permanent(e);
      case Returned(v) =>
        breaker.RecordSuccess(req);
        OwnGrows(before, Succeed(req), req);
        a := Value(v);
    }
  }

  method SleepIfPositive(slept: seq<real>, wait: real) returns (after: seq<real>)
    ensures after == slept + if wait > 0.0 then [wait] else []
  {
    after := slept;
    if wait > 0.0 {
      after := after + [wait];
    }
  }

  lemma AllRecordedGrows<V>(os: seq<Outcome<V>>, n: nat)
    requires n < |os|
    ensures AllRecorded(os[..n + 1]) == AllRecorded(os[..n]) + Recorded(os[n])
  {
    assert os[..n + 1][..n] == os[..n];
  }

  lemma WithinBudget(s: seq<real>, n: nat, max: nat, last: real, cap: real)
    requires Bounded(s, n, last, cap) && n <= max && cap >= 0.0
    ensures Bounded(s, max, last, cap)
  {
    CapsMonotone(n, max, cap);
  }

  /** The sleeps of `n` retries stay within the budget of the `max` retries a policy allows. */
  lemma SleepsWithin(p: Policy, n: nat, max: nat)
    requires ValidPolicy(p) && n <= max
    ensures Bounded(Sleeps(p, n), max, Backoff(p, n + 1), p.cap)
  {
    SleepsAreBounded(p, n);
    WithinBudget(Sleeps(p, n), n, max, Backoff(p, n + 1), p.cap);
  }

  /** What the loop has done after `n` attempts: `before` and `log` are the breaker's log then and now. */
  ghost predicate Progress<V>(before: seq<Event>, log: seq<Event>, outcomes: seq<Outcome<V>>, req: nat, n: nat) {
    n <= |outcomes| && Own(log, req) == Own(before, req) + AllRecorded(outcomes[..n])
  }

  lemma ProgressGrows<V>(before: seq<Event>, log: seq<Event>, log': seq<Event>, outcomes: seq<Outcome<V>>, req: nat, n: nat)
    requires Progress(before, log, outcomes, req, n) && n < |outcomes|
    requires Own(log', req) == Own(log, req) + Recorded(outcomes[n])
    ensures Progress(before, log', outcomes, req, n + 1)
  {
    AllRecordedGrows(outcomes, n);
    Associative(Own(before, req), AllRecorded(outcomes[..n]), Recorded(outcomes[n]));
  }

  lemma Associative(x: seq<bool>, y: seq<bool>, z: seq<bool>)
    ensures (x + y) + z == x + (y + z)
  {}

  /** The loop after its `n`-th attempt, which was answered with `a`. */
  ghost predicate InLoop<V>(p: Policy, outcomes: seq<Outcome<V>>, n: nat, a: Answer<V>, sleeps: seq<real>) {
    && 1 <= n <= p.maxAttempts <= |outcomes|
    && (forall k :: 0 <= k < n - 1 ==> ShouldRetry(Triage(outcomes[k])))
    && a == Triage(outcomes[n - 1])
    && sleeps == Sleeps(p, n - 1)
  }

  lemma LoopGoesOn<V>(p: Policy, outcomes: seq<Outcome<V>>, n: nat, a: Answer<V>, sleeps: seq<real>)
    requires InLoop(p, outcomes, n, a, sleeps) && ShouldRetry(a) && n < p.maxAttempts
    ensures InLoop(p, outcomes, n + 1, Triage(outcomes[n]), sleeps + if Backoff(p, n) > 0.0 then [Backoff(p, n)] else [])
  {}

  lemma ProgressStarts<V>(log: seq<Event>, outcomes: seq<Outcome<V>>, req: nat)
    ensures Progress(log, log, outcomes, req, 0)
  {
    assert outcomes[..0] == [];
  }

  /** The loop itself. */
  method Loop<V>(breaker: CircuitBreaker, p: Policy, outcomes: seq<Outcome<V>>, req: nat)
    returns (a: Answer<V>, n: nat, sleeps: seq<real>)
    requires breaker.Valid() && ValidPolicy(p) && |outcomes| >= p.maxAttempts
    modifies breaker
    ensures breaker.Valid()
    ensures Stops(outcomes, p.maxAttempts, n) && a == Triage(outcomes[n - 1])
    ensures Own(breaker.log, req) == Own(old(breaker.log), req) + AllRecorded(outcomes[..n])
    ensures sleeps == Sleeps(p, n - 1)
  {
    n, sleeps := 1, [];
    ghost var before, log := breaker.log, breaker.log;
    ProgressStarts(before, outcomes, req);
    a := Attempt(breaker, outcomes[0], req);
    ProgressGrows(before, log, breaker.log, outcomes, req, 0);
    while ShouldRetry(a) && n < p.maxAttempts
      invariant breaker.Valid() && InLoop(p, outcomes, n, a, sleeps)
      invariant Progress(before, breaker.log, outcomes, req, n)
      decreases p.maxAttempts - n
    {
      LoopGoesOn(p, outcomes, n, a, sleeps);
      log := breaker.log;
      sleeps := SleepIfPositive(sleeps, Backoff(p, n));
      a := Attempt(breaker, outcomes[n], req);
      ProgressGrows(before, log, breaker.log, outcomes, req, n);
      n := n + 1;
    }
  }

  /** `ainvoke`, given how each attempt's operation would end: another attempt follows exactly a timeout, a
      retryable class or a passing status while any is left; it answers as the last one ended, records one
      breaker event per attempt that ended in a value or a provider failure, and sleeps the backoffs between. */
  method Ainvoke<V>(breaker: CircuitBreaker, p: Policy, outcomes: seq<Outcome<V>>, req: nat)
    returns (a: Answer<V>, n: nat, sleeps: seq<real>)
    requires breaker.Valid() && ValidPolicy(p) && |outcomes| >= p.maxAttempts
    modifies breaker
    ensures breaker.Valid()
    ensures GoesThrough(outcomes, p.maxAttempts, n) && Stops(outcomes, p.maxAttempts, n)
    ensures match outcomes[n - 1]
            case Returned(v) => a == Value(v)
            case Raised(e) => a == if Passing(e) then Transient(e) else Permanent(e)
            case Bypassed => a == PassedThrough
            case Cancelled => a == Abandoned
    ensures Own(breaker.log, req) == Own(old(breaker.log), req) + AllRecorded(outcomes[..n])
    ensures sleeps == Sleeps(p, n - 1)
  {
    a, n, sleeps := Loop(breaker, p, outcomes, req);
    TriageIsSpelledOut(outcomes[n - 1]);
    StopsIsSpelledOut(outcomes, p.maxAttempts, n);
  }
}
