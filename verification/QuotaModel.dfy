/** Allowances as pure functions: the effective grants, one charge, and the entitlement a sync reports. */
module QuotaModel {
  import opened Wrappers

  /** A UTC instant, split at the month: the period is a function of year and month alone. */
  datatype Moment = Moment(year: nat, month: nat, micros: nat)

  /** The microseconds of the longest month. */
  const MONTH_MICROS: nat := 31 * 86_400 * 1_000_000

  type Instant = m: Moment | 1000 <= m.year <= 9999 && 1 <= m.month <= 12 && m.micros < MONTH_MICROS
    witness Moment(2026, 8, 0)

  /** A single number that grows with time. */
  function Stamp(m: Instant): int {
    (m.year * 12 + m.month) * MONTH_MICROS + m.micros
  }

  predicate AtOrBefore(a: Instant, b: Instant) {
    || a.year < b.year
    || (a.year == b.year && (a.month < b.month || (a.month == b.month && a.micros <= b.micros)))
  }

  const DIGITS: string := "0123456789"

  /** `strftime("%Y-%m")`. */
  function PeriodOf(m: Instant): string {
    [DIGITS[m.year / 1000], DIGITS[m.year / 100 % 10], DIGITS[m.year / 10 % 10], DIGITS[m.year % 10], '-',
     DIGITS[m.month / 10], DIGITS[m.month % 10]]
  }

  type GrantId = nat
  type UserId = nat
  type TierId = string

  datatype GrantSource = Subscription | AnonymousDevice | RegisteredAccount | Manual

  datatype GrantStatus = ActiveGrant | RevokedGrant | ExpiredGrant

  datatype Grant = Grant(
    user: UserId,
    tier: TierId,
    source: GrantSource,
    status: GrantStatus,
    startsAt: Instant,
    endsAt: Option<Instant>)

  datatype Usage = Usage(period: string, used: nat, updatedAt: Instant)

  datatype Store = Store(grants: map<GrantId, Grant>, usage: map<GrantId, Usage>, tiers: map<TierId, nat>)

  datatype QuotaError =
    | NoEffectiveGrant
    | AllowanceExhausted
    | MultipleEffectiveGrants(count: nat)
    | MissingUsageRow(grant: GrantId)
    | UnknownTier(tier: TierId)

  predicate Effective(g: Grant, user: UserId, at: Instant) {
    && g.user == user
    && g.status == ActiveGrant
    && AtOrBefore(g.startsAt, at)
    && (g.endsAt.None? || !AtOrBefore(g.endsAt.value, at))
  }

  predicate Ascends(ids: seq<GrantId>) {
    forall i, j :: 0 <= i < j < |ids| ==> ids[i] < ids[j]
  }

  lemma HasMinimum(ids: set<GrantId>)
    requires ids != {}
    ensures exists m :: m in ids && forall x :: x in ids ==> m <= x
  {
    var m :| m in ids;
    if x :| x in ids && x < m {
      assert x in ids - {m};
      HasMinimum(ids - {m});
      var least :| least in ids - {m} && forall x :: x in ids - {m} ==> least <= x;
      assert forall x :: x in ids ==> x == m || x in ids - {m};
      assert least in ids && forall x :: x in ids ==> least <= x;
    }
  }

  function Least(ids: set<GrantId>): (m: GrantId)
    requires ids != {}
    ensures m in ids && forall x :: x in ids ==> m <= x
  {
    HasMinimum(ids);
    var m :| m in ids && forall x :: x in ids ==> m <= x;
    m
  }

  /** The members of a set of ids in ascending order. */
  function InOrder(ids: set<GrantId>): (r: seq<GrantId>)
    ensures Ascends(r)
    ensures forall x :: x in r <==> x in ids
  {
    if ids == {} then [] else [Least(ids)] + InOrder(ids - {Least(ids)})
  }

  /** `_effective_grants_statement`: every effective grant, ascending by id, with no limit. */
  function EffectiveGrants(s: Store, user: UserId, at: Instant): (r: seq<GrantId>)
    ensures Ascends(r)
    ensures forall g :: g in r <==> g in s.grants && Effective(s.grants[g], user, at)
  {
    InOrder(set g | g in s.grants && Effective(s.grants[g], user, at))
  }

  /** The in-memory rollover: a count from another period is dropped. */
  function Roll(u: Usage, at: Instant): Usage {
    if u.period != PeriodOf(at) then u.(used := 0, period := PeriodOf(at)) else u
  }

  /** The increment of an admitted charge. */
  function Spend(u: Usage, at: Instant): Usage {
    var rolled := Roll(u, at);
    rolled.(used := rolled.used + 1, updatedAt := at)
  }

  /** One charge, evaluated atomically on a store. */
  function ChargeOutcome(s: Store, user: UserId, at: Instant): Result<Store, QuotaError> {
    var grants := EffectiveGrants(s, user, at);
    if |grants| == 0 then Failure(NoEffectiveGrant)
    else if |grants| > 1 then Failure(MultipleEffectiveGrants(|grants|))
    else
      var g := grants[0];
      if g !in s.usage then Failure(MissingUsageRow(g))
      else if s.grants[g].tier !in s.tiers then Failure(UnknownTier(s.grants[g].tier))
      else if s.tiers[s.grants[g].tier] <= Roll(s.usage[g], at).used then Failure(AllowanceExhausted)
      else Success(s.(usage := s.usage[g := Spend(s.usage[g], at)]))
  }

  datatype Entitlement =
    | NoEntitlement(period: string)
    | ActiveEntitlement(source: GrantSource, tier: TierId, monthlyCredits: nat, period: string, monthlyUsed: nat)

  /** What a sync reports when nothing moves under it. */
  function ReadEntitlement(s: Store, user: UserId, at: Instant): Result<Entitlement, QuotaError> {
    var grants := EffectiveGrants(s, user, at);
    if |grants| == 0 then Success(NoEntitlement(PeriodOf(at)))
    else if |grants| > 1 then Failure(MultipleEffectiveGrants(|grants|))
    else
      var g := grants[0];
      if g !in s.usage then Failure(MissingUsageRow(g))
      else if s.grants[g].tier !in s.tiers then Failure(UnknownTier(s.grants[g].tier))
      else Success(ReportOf(s.grants[g], s.usage[g], s.tiers[s.grants[g].tier], at))
  }

  function ReportOf(g: Grant, u: Usage, allowance: nat, at: Instant): Entitlement {
    ActiveEntitlement(g.source, g.tier, allowance, PeriodOf(at), if u.period != PeriodOf(at) then 0 else u.used)
  }

  lemma DigitIsItsValue(i: nat, j: nat)
    requires i < 10 && j < 10 && DIGITS[i] == DIGITS[j]
    ensures i == j
  {}

  lemma Decimal(y: nat)
    requires y < 10_000
    ensures y == 1000 * (y / 1000) + 100 * (y / 100 % 10) + 10 * (y / 10 % 10) + y % 10
  {
    assert y == 10 * (y / 10) + y % 10;
    assert y / 10 == 10 * (y / 10 / 10) + y / 10 % 10;
    assert y / 10 / 10 == y / 100;
    assert y / 100 == 10 * (y / 100 / 10) + y / 100 % 10;
    assert y / 100 / 10 == y / 1000;
  }

  /** Two instants have one period exactly when they lie in one calendar month. */
  lemma PeriodIsTheMonth(a: Instant, b: Instant)
    ensures PeriodOf(a) == PeriodOf(b) <==> a.year == b.year && a.month == b.month
  {
    if PeriodOf(a) == PeriodOf(b) {
      var p, q := PeriodOf(a), PeriodOf(b);
      assert p[0] == q[0] && p[1] == q[1] && p[2] == q[2] && p[3] == q[3] && p[5] == q[5] && p[6] == q[6];
      DigitIsItsValue(a.year / 1000, b.year / 1000);
      DigitIsItsValue(a.year / 100 % 10, b.year / 100 % 10);
      DigitIsItsValue(a.year / 10 % 10, b.year / 10 % 10);
      DigitIsItsValue(a.year % 10, b.year % 10);
      DigitIsItsValue(a.month / 10, b.month / 10);
      DigitIsItsValue(a.month % 10, b.month % 10);
      Decimal(a.year);
      Decimal(b.year);
    }
  }

  /** On any store and instant the lock-free read and the charge agree: the same integrity errors, `none`
      for the no-grant refusal, and a charge goes through exactly when the report is active with room
      left, after which the report shows one unit more of the same allowance. */
  lemma SyncAgreesWithCharge(s: Store, user: UserId, at: Instant)
    ensures forall e :: e != NoEffectiveGrant && e != AllowanceExhausted ==>
              (ChargeOutcome(s, user, at) == Failure(e) <==> ReadEntitlement(s, user, at) == Failure(e))
    ensures ChargeOutcome(s, user, at) == Failure(NoEffectiveGrant)
            <==> ReadEntitlement(s, user, at) == Success(NoEntitlement(PeriodOf(at)))
    ensures var report := ReadEntitlement(s, user, at);
            ChargeOutcome(s, user, at).Success?
            <==> report.Success? && report.value.ActiveEntitlement? && report.value.monthlyUsed < report.value.monthlyCredits
    ensures ChargeOutcome(s, user, at).Success? ==>
              ReadEntitlement(ChargeOutcome(s, user, at).value, user, at)
              == Success(ReadEntitlement(s, user, at).value
                         .(monthlyUsed := ReadEntitlement(s, user, at).value.monthlyUsed + 1))
  {
    var grants := EffectiveGrants(s, user, at);
    if ChargeOutcome(s, user, at).Success? {
      var after := ChargeOutcome(s, user, at).value;
      assert after.grants == s.grants && after.tiers == s.tiers;
      assert EffectiveGrants(after, user, at) == grants;
    }
  }

  /** The comparison is that of the instants on one line. */
  lemma OrderIsOfStamps(a: Instant, b: Instant)
    ensures AtOrBefore(a, b) <==> Stamp(a) <= Stamp(b)
  {}

  /** The number a decimal digit stands for. */
  function DigitValue(c: char): int {
    c as int - '0' as int
  }

  lemma DigitIsWritten(i: nat)
    requires i < 10
    ensures DigitValue(DIGITS[i]) == i
  {}

  /** A period is written year, hyphen, month, in four and two decimal digits. */
  lemma PeriodIsWritten(m: Instant)
    ensures var p := PeriodOf(m);
            && |p| == 7 && p[4] == '-'
            && 1000 * DigitValue(p[0]) + 100 * DigitValue(p[1]) + 10 * DigitValue(p[2]) + DigitValue(p[3]) == m.year
            && 10 * DigitValue(p[5]) + DigitValue(p[6]) == m.month
            && forall k :: 0 <= k < 7 && k != 4 ==> 0 <= DigitValue(p[k]) <= 9
  {
    DigitIsWritten(m.year / 1000);
    DigitIsWritten(m.year / 100 % 10);
    DigitIsWritten(m.year / 10 % 10);
    DigitIsWritten(m.year % 10);
    DigitIsWritten(m.month / 10);
    DigitIsWritten(m.month % 10);
    Decimal(m.year);
  }

  // ----- What may be charged, read off the rows -----

  /** The grant is the user's, its status is active, it has started by `at`, that moment included, and it has
      not ended by `at`, that moment excluded. */
  ghost predicate Chargeable(s: Store, g: GrantId, user: UserId, at: Instant) {
    && g in s.grants && s.grants[g].user == user && s.grants[g].status == ActiveGrant
    && Stamp(s.grants[g].startsAt) <= Stamp(at)
    && (s.grants[g].endsAt.Some? ==> Stamp(at) < Stamp(s.grants[g].endsAt.value))
  }

  lemma EffectiveIsChargeable(s: Store, g: GrantId, user: UserId, at: Instant)
    ensures g in EffectiveGrants(s, user, at) <==> Chargeable(s, g, user, at)
  {
    if g in s.grants {
      OrderIsOfStamps(s.grants[g].startsAt, at);
      if s.grants[g].endsAt.Some? { OrderIsOfStamps(s.grants[g].endsAt.value, at); }
    }
  }

  /** `g` is the one grant that may be charged. */
  ghost predicate Only(s: Store, g: GrantId, user: UserId, at: Instant) {
    Chargeable(s, g, user, at) && forall x: GrantId :: Chargeable(s, x, user, at) ==> x == g
  }

  /** How many grants there are to charge decides between the empty, the single and the longer list. */
  lemma GrantsAreChargeable(s: Store, user: UserId, at: Instant)
    ensures var grants := EffectiveGrants(s, user, at);
            && (forall g: GrantId :: g in grants <==> Chargeable(s, g, user, at))
            && (|grants| == 0 <==> forall g: GrantId :: !Chargeable(s, g, user, at))
            && (forall g: GrantId :: grants == [g] <==> Only(s, g, user, at))
            && (|grants| > 1 <==> exists g: GrantId, h: GrantId :: Chargeable(s, g, user, at) && Chargeable(s, h, user, at) && g != h)
  {
    var grants := EffectiveGrants(s, user, at);
    forall g: GrantId ensures g in grants <==> Chargeable(s, g, user, at) {
      EffectiveIsChargeable(s, g, user, at);
    }
    if |grants| > 0 { assert grants[0] in grants; }
    if |grants| > 1 { assert grants[1] in grants && grants[0] < grants[1]; }
    forall g: GrantId ensures grants == [g] <==> Only(s, g, user, at) {
      if grants == [g] { assert g in grants; }
    }
  }

  ghost function ChargeableTo(s: Store, user: UserId, at: Instant): set<GrantId> {
    set g | g in s.grants && Chargeable(s, g, user, at)
  }

  function Listed(ids: seq<GrantId>): (r: set<GrantId>)
    ensures forall x :: x in r <==> x in ids
  {
    if ids == [] then {} else Listed(ids[..|ids| - 1]) + {ids[|ids| - 1]}
  }

  lemma {:induction false} AscendingCount(ids: seq<GrantId>)
    requires Ascends(ids)
    ensures |Listed(ids)| == |ids|
  {
    if ids != [] {
      AscendingCount(ids[..|ids| - 1]);
    }
  }

  lemma CountChargeable(s: Store, user: UserId, at: Instant)
    ensures |EffectiveGrants(s, user, at)| == |ChargeableTo(s, user, at)|
  {
    GrantsAreChargeable(s, user, at);
    AscendingCount(EffectiveGrants(s, user, at));
    assert ChargeableTo(s, user, at) == Listed(EffectiveGrants(s, user, at));
  }

  /** The room there is on a grant at `at`: its tier's credits, less what its row has used this month. */
  ghost function RoomLeft(s: Store, g: GrantId, at: Instant): int
    requires g in s.grants && g in s.usage && s.grants[g].tier in s.tiers
  {
    s.tiers[s.grants[g].tier] - if s.usage[g].period == PeriodOf(at) then s.usage[g].used else 0
  }

  /** An atomic charge, read off the rows: refused for want of a grant, for having several, for a missing row,
      for an unknown tier and for want of room, each exactly then; and otherwise the one row of the one grant
      holds this month, one use more and the charge's instant, and nothing else is different. */
  lemma ChargeIsSpelledOut(s: Store, user: UserId, at: Instant)
    ensures var r := ChargeOutcome(s, user, at);
            && (r == Failure(NoEffectiveGrant) <==> forall g: GrantId :: !Chargeable(s, g, user, at))
            && (r.Failure? && r.error.MultipleEffectiveGrants?
                <==> exists g: GrantId, h: GrantId :: Chargeable(s, g, user, at) && Chargeable(s, h, user, at) && g != h)
            && (r.Failure? && r.error.MultipleEffectiveGrants? ==> r.error.count == |ChargeableTo(s, user, at)|)
            && forall g: GrantId :: Only(s, g, user, at) ==>
                 if g !in s.usage then r == Failure(MissingUsageRow(g))
                 else if s.grants[g].tier !in s.tiers then r == Failure(UnknownTier(s.grants[g].tier))
                 else if RoomLeft(s, g, at) <= 0 then r == Failure(AllowanceExhausted)
                 else r == Success(s.(usage := s.usage[g := Usage(PeriodOf(at),
                                                                  s.tiers[s.grants[g].tier] - RoomLeft(s, g, at) + 1,
                                                                  at)]))
  {
    GrantsAreChargeable(s, user, at);
    CountChargeable(s, user, at);
  }

  /** A report, read off the rows: none exactly when no grant may be charged, and otherwise the one grant's own
      source and tier, that tier's credits, this month, and what its row has used of it. */
  lemma ReportIsSpelledOut(s: Store, user: UserId, at: Instant)
    ensures var r := ReadEntitlement(s, user, at);
            && (r.Success? && r.value.NoEntitlement? <==> forall g: GrantId :: !Chargeable(s, g, user, at))
            && (r.Success? && r.value.NoEntitlement? ==> r.value.period == PeriodOf(at))
            && (r.Failure? && r.error.MultipleEffectiveGrants?
                <==> exists g: GrantId, h: GrantId :: Chargeable(s, g, user, at) && Chargeable(s, h, user, at) && g != h)
            && forall g: GrantId :: Only(s, g, user, at) ==>
                 if g !in s.usage then r == Failure(MissingUsageRow(g))
                 else if s.grants[g].tier !in s.tiers then r == Failure(UnknownTier(s.grants[g].tier))
                 else
                   && r.Success? && r.value.ActiveEntitlement?
                   && r.value.source == s.grants[g].source && r.value.tier == s.grants[g].tier
                   && r.value.monthlyCredits == s.tiers[s.grants[g].tier] && r.value.period == PeriodOf(at)
                   && r.value.monthlyUsed == r.value.monthlyCredits - RoomLeft(s, g, at)
  {
    GrantsAreChargeable(s, user, at);
  }
}
