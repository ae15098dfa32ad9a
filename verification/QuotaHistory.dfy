/** What a history of committed charges does to one usage row, and how many charges it can hold. */
module QuotaHistory {
  import opened QuotaModel

  /** The row after charges committed with these captured instants, in this order. */
  function Replay(row: Usage, history: seq<Instant>): Usage {
    if history == [] then row else Spend(Replay(row, Front(history)), Last(history))
  }

  function Front(history: seq<Instant>): seq<Instant>
    requires history != []
  {
    history[..|history| - 1]
  }

  function Last(history: seq<Instant>): Instant
    requires history != []
  {
    history[|history| - 1]
  }

  /** Every charge of the history found room under allowance `allowance`. */
  predicate Admitted(row: Usage, history: seq<Instant>, allowance: nat) {
    history == []
    || (&& Admitted(row, Front(history), allowance)
        && Roll(Replay(row, Front(history)), Last(history)).used < allowance)
  }

  /** How many charges reset the count. */
  function Rollovers(row: Usage, history: seq<Instant>): nat {
    if history == [] then 0
    else Rollovers(row, Front(history))
         + if Replay(row, Front(history)).period != PeriodOf(Last(history)) then 1 else 0
  }

  /** An allowance times the epochs of a history. */
  function EpochAllowance(row: Usage, history: seq<Instant>, allowance: nat): nat {
    allowance * (Rollovers(row, history) + 1)
  }

  /** How many charges were captured in period `p`. */
  function Count(history: seq<Instant>, p: string): nat {
    if history == [] then 0 else Count(Front(history), p) + if PeriodOf(Last(history)) == p then 1 else 0
  }

  /** How many times the history enters period `p`. */
  function Visits(history: seq<Instant>, p: string): nat {
    if history == [] then 0
    else Visits(Front(history), p)
         + if PeriodOf(Last(history)) == p
              && (|history| == 1 || PeriodOf(history[|history| - 2]) != p) then 1 else 0
  }

  /** Captured months never go back along the commit order. */
  predicate MonthsAscend(history: seq<Instant>) {
    forall i, j :: 0 <= i < j < |history| ==> MonthAtMost(history[i], history[j])
  }

  predicate MonthAtMost(a: Instant, b: Instant) {
    a.year < b.year || (a.year == b.year && a.month <= b.month)
  }

  lemma TimesNext(a: nat, n: nat)
    ensures a * (n + 1) == a * n + a
  {}

  lemma TimesAtMostOne(a: nat, n: nat)
    requires n <= 1
    ensures a * n <= a
  {
    assert n == 0 || n == 1;
  }

  lemma TimesAtLeastTwo(a: nat, n: nat)
    requires n >= 2 && a > 0
    ensures a * n > a
  {
    if n > 2 {
      TimesAtLeastTwo(a, n - 1);
      TimesNext(a, n - 1);
    }
  }

  lemma ReplayPeriod(row: Usage, history: seq<Instant>)
    requires history != []
    ensures Replay(row, history).period == PeriodOf(Last(history))
    ensures Replay(row, history).used >= 1
  {}

  predicate RollsOver(row: Usage, history: seq<Instant>, k: nat)
    requires k < |history|
  {
    Replay(row, history[..k]).period != PeriodOf(history[k])
  }

  /** Where the current epoch begins: the position of the last charge that reset the count, if any. */
  function EpochStart(row: Usage, history: seq<Instant>): (k: nat)
    ensures k <= |history|
  {
    if history == [] then 0
    else if RollsOver(row, history, |history| - 1) then |history| - 1
    else EpochStart(row, Front(history))
  }

  lemma FrontRolls(row: Usage, history: seq<Instant>, j: nat)
    requires j + 1 < |history|
    ensures RollsOver(row, Front(history), j) == RollsOver(row, history, j)
  {
    assert Front(history)[..j] == history[..j];
  }

  lemma LastRolls(row: Usage, history: seq<Instant>)
    requires history != []
    ensures RollsOver(row, history, |history| - 1) <==> Replay(row, Front(history)).period != PeriodOf(Last(history))
  {}

  /** Nothing rolls over after the start of the epoch. */
  lemma {:induction false} NothingRollsAfter(row: Usage, history: seq<Instant>, j: nat)
    requires EpochStart(row, history) < j < |history|
    ensures !RollsOver(row, history, j)
  {
    if j < |history| - 1 {
      NothingRollsAfter(row, Front(history), j);
      FrontRolls(row, history, j);
    }
  }

  /** The epoch starts with a charge that rolls over, or with the history itself. */
  lemma {:induction false} EpochStartRolls(row: Usage, history: seq<Instant>)
    ensures var k := EpochStart(row, history);
            if k < |history| && RollsOver(row, history, k) then Rollovers(row, history) > 0
            else k == 0 && Rollovers(row, history) == 0
  {
    if history != [] {
      LastRolls(row, history);
      if !RollsOver(row, history, |history| - 1) {
        EpochStartRolls(row, Front(history));
        var k := EpochStart(row, Front(history));
        if k + 1 < |history| { FrontRolls(row, history, k); }
      }
    }
  }

  /** Conservation: the stored count is the count its epoch started from plus the commits since. The first
      epoch starts from the row's own count, and every later one from nothing. */
  lemma {:induction false} UsedIsCommitsSinceRollover(row: Usage, history: seq<Instant>)
    ensures Replay(row, history).used
            == (if Rollovers(row, history) == 0 then row.used else 0) + (|history| - EpochStart(row, history))
    ensures history != [] ==> Replay(row, history).period == PeriodOf(Last(history))
  {
    if history != [] {
      UsedIsCommitsSinceRollover(row, Front(history));
    }
  }

  lemma AdmittedUsed(row: Usage, history: seq<Instant>, allowance: nat)
    requires Admitted(row, history, allowance) && history != []
    ensures 1 <= Replay(row, history).used <= allowance
    ensures Replay(row, history).used
            == Roll(Replay(row, Front(history)), Last(history)).used + 1
  {}

  /** Commits never exceed the allowance times the number of epochs. */
  lemma {:induction false} CommitsWithinEpochs(row: Usage, history: seq<Instant>, allowance: nat)
    requires Admitted(row, history, allowance)
    ensures |history| <= allowance * Rollovers(row, history) + Replay(row, history).used
    ensures |history| <= allowance * (Rollovers(row, history) + 1)
  {
    if history != [] {
      AdmittedUsed(row, history, allowance);
      if Front(history) != [] {
        AdmittedUsed(row, Front(history), allowance);
      }
      CommitsWithinEpochs(row, Front(history), allowance);
      var r := Rollovers(row, Front(history));
      TimesNext(allowance, r);
      TimesNext(allowance, r + 1);
    }
  }

  /** The exact bound, for every history: the charges of one month never exceed the allowance times the
      number of times commits entered that month. */
  lemma {:induction false} CountWithinVisits(row: Usage, history: seq<Instant>, allowance: nat, p: string)
    requires Admitted(row, history, allowance)
    ensures Count(history, p) <= allowance * Visits(history, p)
    ensures history != [] && PeriodOf(Last(history)) == p ==>
              Visits(history, p) >= 1
              && Count(history, p) <= allowance * (Visits(history, p) - 1) + Replay(row, history).used
  {
    if history != [] {
      var front := Front(history);
      AdmittedUsed(row, history, allowance);
      CountWithinVisits(row, front, allowance, p);
      if front != [] {
        ReplayPeriod(row, front);
        assert Last(front) == history[|history| - 2];
      }
      var v := Visits(front, p);
      TimesNext(allowance, v);
      if v > 0 {
        TimesNext(allowance, v - 1);
      }
    }
  }

  lemma {:induction false} NotEnteredNotVisited(history: seq<Instant>, p: string)
    requires forall k :: 0 <= k < |history| ==> PeriodOf(history[k]) != p
    ensures Visits(history, p) == 0
  {
    if history != [] {
      NotEnteredNotVisited(Front(history), p);
    }
  }

  /** Months that never go back are entered at most once each... */
  lemma {:induction false} AscendingVisitsOnce(history: seq<Instant>, p: string)
    requires MonthsAscend(history)
    ensures Visits(history, p) <= 1
  {
    if history != [] {
      AscendingVisitsOnce(Front(history), p);
      if |history| > 1 && PeriodOf(Last(history)) == p && PeriodOf(history[|history| - 2]) != p {
        forall k | 0 <= k < |history| - 1
          ensures PeriodOf(history[k]) != p
        {
          PeriodIsTheMonth(history[k], Last(history));
          PeriodIsTheMonth(history[|history| - 2], Last(history));
          if k < |history| - 2 {
            assert MonthAtMost(history[k], history[|history| - 2]);
          }
          assert MonthAtMost(history[|history| - 2], history[|history| - 1]);
        }
        NotEnteredNotVisited(Front(history), p);
      }
    }
  }

  /** ...so such a history charges at most the allowance in any calendar month. */
  lemma MonthlyBound(row: Usage, history: seq<Instant>, allowance: nat, p: string)
    requires Admitted(row, history, allowance) && MonthsAscend(history)
    ensures Count(history, p) <= allowance
  {
    CountWithinVisits(row, history, allowance, p);
    AscendingVisitsOnce(history, p);
    TimesAtMostOne(allowance, Visits(history, p));
  }

  /** `times` charges captured at one instant. */
  function Burst(at: Instant, times: nat): seq<Instant> {
    seq(times, _ => at)
  }

  /** The room there is when charges captured at `at` begin. */
  function RoomAt(row: Usage, at: Instant, allowance: nat): nat {
    var used := Roll(row, at).used;
    if used < allowance then allowance - used else 0
  }

  /** Neighbouring entries lie in different months. */
  predicate Alternates(entries: seq<Instant>) {
    forall k :: 0 < k < |entries| ==> PeriodOf(entries[k - 1]) != PeriodOf(entries[k])
  }

  lemma BurstGrows(before: seq<Instant>, at: Instant, times: nat)
    requires times > 0
    ensures var h := before + Burst(at, times);
            h != [] && Front(h) == before + Burst(at, times - 1) && Last(h) == at
  {
    var h := before + Burst(at, times);
    assert h == (before + Burst(at, times - 1)) + [at];
  }

  lemma BurstOfNone(before: seq<Instant>, at: Instant)
    ensures before + Burst(at, 0) == before
  {}

  /** A burst is admitted as far as there is room, which it then uses up. */
  lemma {:induction false} BurstIsAdmitted(row: Usage, before: seq<Instant>, at: Instant, times: nat, allowance: nat)
    requires Admitted(row, before, allowance)
    requires Roll(Replay(row, before), at).used + times <= allowance
    ensures Admitted(row, before + Burst(at, times), allowance)
    ensures Roll(Replay(row, before + Burst(at, times)), at).used == Roll(Replay(row, before), at).used + times
    ensures times > 0 ==> Replay(row, before + Burst(at, times)).period == PeriodOf(at)
  {
    BurstOfNone(before, at);
    if times > 0 {
      BurstIsAdmitted(row, before, at, times - 1, allowance);
      BurstGrows(before, at, times);
    }
  }

  lemma {:induction false} BurstCounts(before: seq<Instant>, at: Instant, times: nat, p: string)
    ensures Count(before + Burst(at, times), p) == Count(before, p) + if PeriodOf(at) == p then times else 0
  {
    BurstOfNone(before, at);
    if times > 0 {
      BurstCounts(before, at, times - 1, p);
      BurstGrows(before, at, times);
    }
  }

  /** The months a history moves through, in order. */
  function Months(history: seq<Instant>): seq<string> {
    if history == [] then []
    else
      var before := Months(Front(history));
      if before != [] && before[|before| - 1] == PeriodOf(Last(history)) then before else before + [PeriodOf(Last(history))]
  }

  function Periods(entries: seq<Instant>): seq<string> {
    if entries == [] then [] else Periods(Front(entries)) + [PeriodOf(Last(entries))]
  }

  /** The history moves through exactly the listed months, in their order. */
  ghost predicate Enters(history: seq<Instant>, entries: seq<Instant>) {
    Months(history) == Periods(entries)
  }

  function Occurrences(months: seq<string>, p: string): nat {
    if months == [] then 0
    else Occurrences(months[..|months| - 1], p) + if months[|months| - 1] == p then 1 else 0
  }

  lemma OccurrencesGrow(months: seq<string>, m: string, p: string)
    ensures Occurrences(months + [m], p) == Occurrences(months, p) + if m == p then 1 else 0
  {
    assert (months + [m])[..|months|] == months;
  }

  lemma {:induction false} LastMonth(history: seq<Instant>)
    ensures history == [] <==> Months(history) == []
    ensures history != [] ==> Months(history)[|Months(history)| - 1] == PeriodOf(Last(history))
  {
    if history != [] { LastMonth(Front(history)); }
  }

  /** A month is visited as often as it occurs among the months moved through. */
  lemma {:induction false} VisitsAreOccurrences(history: seq<Instant>, p: string)
    ensures Visits(history, p) == Occurrences(Months(history), p)
  {
    if history != [] {
      var front := Front(history);
      VisitsAreOccurrences(front, p);
      LastMonth(front);
      if front != [] { assert Last(front) == history[|history| - 2]; }
      OccurrencesGrow(Months(front), PeriodOf(Last(history)), p);
    }
  }

  lemma {:induction false} FirstPeriod(entries: seq<Instant>)
    requires entries != []
    ensures Periods(entries) != [] && Periods(entries)[0] == PeriodOf(entries[0])
  {
    if |entries| > 1 { FirstPeriod(Front(entries)); }
  }

  lemma {:induction false} EntriesAreOccurrences(entries: seq<Instant>, p: string)
    ensures Count(entries, p) == Occurrences(Periods(entries), p)
  {
    if entries != [] {
      EntriesAreOccurrences(Front(entries), p);
      OccurrencesGrow(Periods(Front(entries)), PeriodOf(Last(entries)), p);
    }
  }

  lemma MonthAgain(history: seq<Instant>, at: Instant)
    requires history != [] && Last(history) == at
    ensures Months(history + [at]) == Months(history)
  {
    assert Front(history + [at]) == history && Last(history + [at]) == at;
    LastMonth(history);
  }

  lemma MonthNew(history: seq<Instant>, at: Instant)
    requires history != [] ==> PeriodOf(Last(history)) != PeriodOf(at)
    ensures Months(history + [at]) == Months(history) + [PeriodOf(at)]
  {
    assert Front(history + [at]) == history && Last(history + [at]) == at;
    LastMonth(history);
  }

  lemma {:induction false} BurstMonths(before: seq<Instant>, at: Instant, times: nat)
    requires times > 0 && (before != [] ==> PeriodOf(Last(before)) != PeriodOf(at))
    ensures Months(before + Burst(at, times)) == Months(before) + [PeriodOf(at)]
  {
    if times == 1 {
      assert before + Burst(at, 1) == before + [at];
      MonthNew(before, at);
    } else {
      var h := before + Burst(at, times - 1);
      assert before + Burst(at, times) == h + [at];
      BurstMonths(before, at, times - 1);
      BurstGrows(before, at, times - 1);
      MonthAgain(h, at);
    }
  }

  /** The first charge could be admitted: the row has room in the month the list begins with. */
  predicate CanBegin(row: Usage, entries: seq<Instant>, allowance: nat) {
    entries == [] || Roll(row, entries[0]).used < allowance
  }

  /** There is room for the next listed month: for the whole allowance, unless it is the first. */
  lemma RoomAfter(row: Usage, front: seq<Instant>, next: Instant, before: seq<Instant>, allowance: nat)
    requires front == [] ==> before == [] && Roll(row, next).used < allowance
    requires front != [] ==> before != [] && PeriodOf(Last(before)) != PeriodOf(next) && allowance > 0
    ensures var room := RoomAt(Replay(row, before), next, allowance);
            room > 0 && Roll(Replay(row, before), next).used + room == allowance
            && (front != [] ==> room == allowance)
  {
    if front != [] { ReplayPeriod(row, before); }
  }

  /** One more month, saturated. */
  lemma SaturateNext(row: Usage, before: seq<Instant>, at: Instant, room: nat, allowance: nat, p: string)
    returns (h: seq<Instant>)
    requires Admitted(row, before, allowance) && room > 0
    requires Roll(Replay(row, before), at).used + room == allowance
    requires before != [] ==> PeriodOf(Last(before)) != PeriodOf(at)
    ensures Admitted(row, h, allowance) && Months(h) == Months(before) + [PeriodOf(at)] && h != [] && Last(h) == at
    ensures Count(h, p) == Count(before, p) + if PeriodOf(at) == p then room else 0
  {
    h := before + Burst(at, room);
    BurstIsAdmitted(row, before, at, room, allowance);
    BurstGrows(before, at, room);
    BurstMonths(before, at, room);
    BurstCounts(before, at, room, p);
  }

  /** How often a month is listed after the first place. */
  function Again(entries: seq<Instant>, p: string): nat {
    if |entries| <= 1 then 0 else Again(Front(entries), p) + if PeriodOf(Last(entries)) == p then 1 else 0
  }

  lemma {:induction false} CountIsFirstAndAgain(entries: seq<Instant>, p: string)
    requires entries != []
    ensures Count(entries, p) == Again(entries, p) + if PeriodOf(entries[0]) == p then 1 else 0
  {
    if |entries| > 1 { CountIsFirstAndAgain(Front(entries), p); }
  }

  /** The next listed month after the ones before it. */
  lemma SaturateStep(row: Usage, front: seq<Instant>, at: Instant, before: seq<Instant>, allowance: nat, p: string)
    returns (h: seq<Instant>)
    requires Admitted(row, before, allowance) && Enters(before, front)
    requires if front == [] then before == [] && Roll(row, at).used < allowance
             else before != [] && PeriodOf(Last(before)) != PeriodOf(at) && allowance > 0
    ensures Admitted(row, h, allowance) && Months(h) == Periods(front) + [PeriodOf(at)] && h != [] && Last(h) == at
    ensures Count(h, p) >= Count(before, p) + if PeriodOf(at) != p then 0 else if front == [] then 1 else allowance
  {
    RoomAfter(row, front, at, before, allowance);
    h := SaturateNext(row, before, at, RoomAt(Replay(row, before), at, allowance), allowance, p);
  }

  /** The listed months can be charged one after another until each has no room left. Every one but the
      first then gets the whole allowance, and the first at least one charge. */
  lemma {:induction false} Saturate(row: Usage, entries: seq<Instant>, allowance: nat, p: string) returns (h: seq<Instant>)
    requires Alternates(entries) && CanBegin(row, entries, allowance)
    ensures Admitted(row, h, allowance) && Enters(h, entries)
    ensures if entries == [] then h == [] else h != [] && Last(h) == Last(entries)
    ensures entries != [] ==> Count(h, p) >= AtLeast(entries, allowance, p)
  {
    if entries == [] {
      h := [];
    } else {
      var front := Front(entries);
      var before := Saturate(row, front, allowance, p);
      if front != [] { assert Last(front) == entries[|entries| - 2]; }
      h := SaturateStep(row, front, Last(entries), before, allowance, p);
      AtLeastGrows(entries, allowance, p);
    }
  }

  /** What saturation gives a month. */
  function AtLeast(entries: seq<Instant>, allowance: nat, p: string): nat
    requires entries != []
  {
    allowance * Again(entries, p) + if PeriodOf(entries[0]) == p then 1 else 0
  }

  lemma AtLeastGrows(entries: seq<Instant>, allowance: nat, p: string)
    requires entries != []
    ensures AtLeast(entries, allowance, p)
            == (if |entries| == 1 then 0 else AtLeast(Front(entries), allowance, p))
               + if PeriodOf(Last(entries)) != p then 0 else if |entries| == 1 then 1 else allowance
  {
    if |entries| > 1 { TimesNext(allowance, Again(Front(entries), p)); }
  }

  lemma {:induction false} FirstAdmitted(row: Usage, history: seq<Instant>, allowance: nat)
    requires Admitted(row, history, allowance) && history != []
    ensures Roll(row, history[0]).used < allowance
    ensures Months(history) != [] && Months(history)[0] == PeriodOf(history[0])
  {
    if |history| > 1 { FirstAdmitted(row, Front(history), allowance); }
  }

  /** Whoever enters the listed months without going over the allowance found room for the first. */
  lemma EnteringBegins(row: Usage, history: seq<Instant>, entries: seq<Instant>, allowance: nat)
    requires Admitted(row, history, allowance) && Enters(history, entries)
    ensures CanBegin(row, entries, allowance)
  {
    if entries != [] {
      FirstPeriod(entries);
      LastMonth(history);
      FirstAdmitted(row, history, allowance);
    }
  }

  predicate NoMonthTwice(entries: seq<Instant>) {
    forall i, j :: 0 <= i < j < |entries| ==> PeriodOf(entries[i]) != PeriodOf(entries[j])
  }

  lemma {:induction false} CountsOnce(entries: seq<Instant>, p: string)
    requires NoMonthTwice(entries)
    ensures Count(entries, p) <= 1
    ensures (forall k :: 0 <= k < |entries| ==> PeriodOf(entries[k]) != p) ==> Count(entries, p) == 0
  {
    if entries != [] {
      CountsOnce(Front(entries), p);
    }
  }

  lemma {:induction false} Counted(entries: seq<Instant>, i: nat)
    requires i < |entries|
    ensures Count(entries, PeriodOf(entries[i])) >= 1
  {
    if i < |entries| - 1 { Counted(Front(entries), i); }
  }

  lemma {:induction false} CountsTwice(entries: seq<Instant>, i: nat, j: nat)
    requires i < j < |entries| && PeriodOf(entries[i]) == PeriodOf(entries[j])
    ensures Count(entries, PeriodOf(entries[i])) >= 2
  {
    if j < |entries| - 1 {
      CountsTwice(Front(entries), i, j);
    } else {
      Counted(Front(entries), i);
    }
  }

  /** A month listed twice can be overspent. */
  lemma TwiceOverspends(row: Usage, entries: seq<Instant>, allowance: nat, p: string) returns (h: seq<Instant>)
    requires Alternates(entries) && CanBegin(row, entries, allowance) && Count(entries, p) > 1 && allowance > 0
    ensures Admitted(row, h, allowance) && Enters(h, entries) && Count(h, p) > allowance
  {
    h := Saturate(row, entries, allowance, p);
    CountIsFirstAndAgain(entries, p);
    if PeriodOf(entries[0]) == p {
      TimesAtLeastOne(allowance, Again(entries, p));
    } else {
      TimesAtLeastTwo(allowance, Again(entries, p));
    }
  }

  lemma TimesAtLeastOne(a: nat, n: nat)
    requires n >= 1
    ensures a * n >= a
  {
    TimesNext(a, n - 1);
  }

  /** Months that are listed once are each kept within the allowance. */
  lemma OnceKeeps(row: Usage, entries: seq<Instant>, allowance: nat, history: seq<Instant>, p: string)
    requires NoMonthTwice(entries) && Admitted(row, history, allowance) && Enters(history, entries)
    ensures Count(history, p) <= allowance
  {
    CountWithinVisits(row, history, allowance, p);
    VisitsAreOccurrences(history, p);
    EntriesAreOccurrences(entries, p);
    CountsOnce(entries, p);
    TimesAtMostOne(allowance, Visits(history, p));
  }

  /** Months of which one is listed twice can be entered so that it is overspent. */
  lemma Overspend(row: Usage, entries: seq<Instant>, allowance: nat) returns (h: seq<Instant>, p: string)
    requires Alternates(entries) && !NoMonthTwice(entries) && CanBegin(row, entries, allowance)
    ensures Admitted(row, h, allowance) && Enters(h, entries) && Count(h, p) > allowance
  {
    var i, j :| 0 <= i < j < |entries| && PeriodOf(entries[i]) == PeriodOf(entries[j]);
    p := PeriodOf(entries[i]);
    CountsTwice(entries, i, j);
    h := TwiceOverspends(row, entries, allowance, p);
  }

  /** Exactly when a month's bound is met, for any row, allowance and list of months that follow one another:
      every admitted history that moves through these months keeps each of them within the allowance if and
      only if no month is listed twice, or the row has no room to begin at all. */
  lemma MonthlyBoundExactly(row: Usage, entries: seq<Instant>, allowance: nat)
    requires Alternates(entries)
    ensures (forall history, p :: Admitted(row, history, allowance) && Enters(history, entries)
                                  ==> Count(history, p) <= allowance)
            <==> NoMonthTwice(entries) || !CanBegin(row, entries, allowance)
  {
    if NoMonthTwice(entries) {
      forall history, p | Admitted(row, history, allowance) && Enters(history, entries)
        ensures Count(history, p) <= allowance
      {
        OnceKeeps(row, entries, allowance, history, p);
      }
    } else if CanBegin(row, entries, allowance) {
      var h, p := Overspend(row, entries, allowance);
    } else {
      forall history | Admitted(row, history, allowance) && Enters(history, entries) ensures false {
        EnteringBegins(row, history, entries, allowance);
      }
    }
  }
}
