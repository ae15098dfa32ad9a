/** Token verification with a negative key-id cache shared by concurrent callers. */
module JwtVerifier {
  import opened Wrappers
  import opened KeyCache

  datatype BoundedReason = BadSignature | IssuerMismatch | AudienceMismatch | ExpiredToken | EmptySubject

  datatype VerifiedClaims = VerifiedClaims(issuer: string, subject: string)

  datatype Verdict = Verdict(claims: Option<VerifiedClaims>, reason: Option<BoundedReason>)

  function Rejection(reason: BoundedReason): Verdict {
    Verdict(None, Some(reason))
  }

  /** The `kid` of an unverified header. */
  datatype Kid = AbsentKid | NotText | Text(value: string)

  datatype Header = Unreadable | Readable(kid: Kid)

  datatype TokenError =
    | InvalidIssuer
    | InvalidAudience
    | ExpiredSignature
    | ImmatureSignature
    | MissingRequiredClaim(claim: string)
    | KeyClientError(definitiveMiss: bool)
    | OtherTokenError

  /** `sub` is present in an accepted payload and may be empty. */
  datatype Payload = Payload(iss: string, sub: Option<string>)

  /** What the key set and the token check answer for one token. */
  datatype Fetch = Accepted(payload: Payload) | Failed(error: TokenError) | Broke

  function BoundedReasonFor(e: TokenError): BoundedReason {
    match e
    case InvalidIssuer => IssuerMismatch
    case InvalidAudience => AudienceMismatch
    case ExpiredSignature => ExpiredToken
    case ImmatureSignature => ExpiredToken
    case MissingRequiredClaim(claim) => if claim == "sub" then EmptySubject else BadSignature
    case KeyClientError(_) => BadSignature
    case OtherTokenError => BadSignature
  }

  function ClaimsFromPayload(payload: Payload): Verdict {
    if payload.sub.None? || payload.sub.value == "" then Rejection(EmptySubject)
    else Verdict(Some(VerifiedClaims(payload.iss, payload.sub.value)), None)
  }

  const ABSENT_KID := ""

  function CacheKeyFor(header: Header): Option<string> {
    match header
    case Unreadable => None
    case Readable(Text(kid)) => Some(if kid == "" then ABSENT_KID else kid)
    case Readable(_) => Some(ABSENT_KID)
  }

  /** The answer of a verifier without a cache. */
  function Uncached(fetch: Fetch): Verdict {
    match fetch
    case Accepted(payload) => ClaimsFromPayload(payload)
    case Failed(e) => Rejection(BoundedReasonFor(e))
    case Broke => Rejection(BadSignature)
  }

  const DEFINITIVE_MISS := Failed(KeyClientError(true))

  /** The answer, spelled out. An accepted payload yields its own issuer and subject, unless it has no
      subject; every failure yields no claims and one reason. */
  ghost predicate Answers(fetch: Fetch, v: Verdict) {
    match fetch
    case Accepted(payload) =>
      if payload.sub.Some? && payload.sub.value != "" then
        v.claims.Some? && v.claims.value.issuer == payload.iss && v.claims.value.subject == payload.sub.value && v.reason.None?
      else v.claims.None? && v.reason == Some(EmptySubject)
    case Failed(e) =>
      && v.claims.None? && v.reason.Some?
      && (v.reason.value == IssuerMismatch <==> e.InvalidIssuer?)
      && (v.reason.value == AudienceMismatch <==> e.InvalidAudience?)
      && (v.reason.value == ExpiredToken <==> e.ExpiredSignature? || e.ImmatureSignature?)
      && (v.reason.value == EmptySubject <==> e == MissingRequiredClaim("sub"))
      && (v.reason.value == BadSignature
          <==> e.KeyClientError? || e.OtherTokenError? || (e.MissingRequiredClaim? && e.claim != "sub"))
    case Broke => v.claims.None? && v.reason == Some(BadSignature)
  }

  /** Exactly one of claims and reason, and exactly the answer spelled out. */
  lemma UncachedIsTotal(fetch: Fetch)
    ensures Answers(fetch, Uncached(fetch))
    ensures Uncached(fetch).claims.Some? <==> Uncached(fetch).reason.None?
    ensures Uncached(DEFINITIVE_MISS) == Rejection(BadSignature)
  {}

  /** Two headers share a cache key exactly when both are readable and either both have the same key id, or
      neither has one that is a text with anything in it. */
  lemma KeysTellHeadersApart(a: Header, b: Header)
    ensures CacheKeyFor(a).None? <==> a.Unreadable?
    ensures CacheKeyFor(a).Some? && CacheKeyFor(a) == CacheKeyFor(b)
            <==> a.Readable? && b.Readable? && (a.kid == b.kid || (Idless(a.kid) && Idless(b.kid)))
  {}

  predicate Idless(kid: Kid) {
    kid.AbsentKid? || kid.NotText? || kid.value == ""
  }

  /** What was read and answered where a record was made. */
  datatype Evidence = Evidence(header: Header, fetch: Fetch)

  ghost predicate Supported(h: seq<Miss>, evidence: seq<Evidence>) {
    && |evidence| == |h|
    && forall i :: 0 <= i < |h| ==>
         CacheKeyFor(evidence[i].header) == Some(h[i].key) && evidence[i].fetch == DEFINITIVE_MISS
  }

  lemma SupportedGrows(h: seq<Miss>, evidence: seq<Evidence>, m: Miss, seen: Evidence)
    requires Supported(h, evidence) && CacheKeyFor(seen.header) == Some(m.key) && seen.fetch == DEFINITIVE_MISS
    ensures Supported(h + [m], evidence + [seen])
  {}

  /** A record of `key` no older than `ttl` at `at`, made on a definitive miss. */
  ghost predicate MissedRecently(h: seq<Miss>, evidence: seq<Evidence>, key: string, at: real, ttl: real) {
    exists i :: 0 <= i < |h| && i < |evidence|
                && h[i].key == key && at - ttl < h[i].at && evidence[i].fetch == DEFINITIVE_MISS
  }

  ghost predicate Extends<T>(earlier: seq<T>, later: seq<T>) {
    |earlier| <= |later| && later[..|earlier|] == earlier
  }

  lemma MembersGrow(keys: seq<string>, i: nat)
    requires i < |keys|
    ensures Members(keys[..i + 1]) == Members(keys[..i]) + {keys[i]}
  {
    assert keys[..i + 1] == keys[..i] + [keys[i]];
  }

  class JwtVerifier {
    const ttl: real
    const cacheSize: nat
    var unknownKids: Items
    var clock: real
    ghost var history: seq<Miss>
    ghost var evidence: seq<Evidence>

    ghost predicate Valid()
      reads this
    {
      Refines(unknownKids, history, clock, ttl, cacheSize) && Supported(history, evidence)
    }

    constructor (unknownKidTtlSeconds: real, unknownKidCacheSize: nat, monotonic: real)
      ensures Valid() && ttl == unknownKidTtlSeconds && cacheSize == unknownKidCacheSize
      ensures history == [] && unknownKids == []
    {
      ttl, cacheSize, clock := unknownKidTtlSeconds, unknownKidCacheSize, monotonic;
      unknownKids, history, evidence := [], [], [];
    }

    /** `time.monotonic()`, which never runs backwards. */
    method Monotonic() returns (now: real)
      requires Valid()
      modifies this`clock
      ensures Valid() && clock == now && old(clock) <= now
    {
      now := *;
      if now < clock {
        now := clock;
      }
      TimePasses(unknownKids, history, clock, now, ttl, cacheSize);
      clock := now;
    }

    method IsKnownUnknown(key: string) returns (known: bool)
      requires Valid()
      modifies this`unknownKids, this`clock
      ensures Valid() && old(clock) <= clock
      ensures known <==> Known(history, key, clock, ttl, cacheSize)
      ensures unknownKids
              == if Get(old(unknownKids), key).Some? && !known then Without(old(unknownKids), {key}) else old(unknownKids)
    {
      var deadline := Get(unknownKids, key);
      var now := Monotonic();
      LookupIsKnown(unknownKids, history, clock, key, now, ttl, cacheSize);
      LookupKeepsRefines(unknownKids, history, clock, key, now, ttl, cacheSize);
      if deadline.None? {
        return false;
      }
      if deadline.value <= now {
        unknownKids := Without(unknownKids, {key});
        return false;
      }
      known := true;
    }

    /** `now` is read once; the expired go, the key goes last, the front is evicted down to the bound. */
    method RecordUnknown(key: string, ghost seen: Evidence)
      requires Valid() && CacheKeyFor(seen.header) == Some(key) && seen.fetch == DEFINITIVE_MISS
      modifies this
      ensures Valid() && old(clock) <= clock
      ensures history == old(history) + [Miss(key, clock)] && evidence == old(evidence) + [seen]
      ensures unknownKids == Recorded(old(unknownKids), key, clock, ttl, cacheSize)
    {
      var now := Monotonic();
      RecordKeepsRefines(unknownKids, history, clock, Miss(key, now), ttl, cacheSize);
      SupportedGrows(history, evidence, Miss(key, now), seen);
      if ttl > 0.0 {
        Remember(key, now);
      }
      history, evidence := history + [Miss(key, now)], evidence + [seen];
    }

    method Remember(key: string, now: real)
      requires Distinct(unknownKids) && ttl > 0.0
      modifies this`unknownKids
      ensures unknownKids == Recorded(old(unknownKids), key, now, ttl, cacheSize)
    {
      Sweep(now);
      PutThenMove(unknownKids, key, now + ttl);
      unknownKids := Put(unknownKids, key, now + ttl);
      unknownKids := MoveToEnd(unknownKids, key);
      Evict();
    }

    /** Deletes every expired key, one by one. */
    method Sweep(now: real)
      requires Distinct(unknownKids)
      modifies this`unknownKids
      ensures unknownKids == Live(old(unknownKids), now)
    {
      var expired := ExpiredKeys(unknownKids, now);
      SweepLeavesLive(unknownKids, now);
      DeleteNothing(unknownKids, Members([]));
      var i := 0;
      assert expired[..i] == [];
      while i < |expired|
        invariant 0 <= i <= |expired|
        invariant unknownKids == Without(old(unknownKids), Members(expired[..i]))
      {
        DeleteOneMore(old(unknownKids), Members(expired[..i]), expired[i]);
        MembersGrow(expired, i);
        unknownKids := Without(unknownKids, {expired[i]});
        i := i + 1;
      }
      assert expired[..i] == expired;
    }

    /** Pops the front until the bound holds. */
    method Evict()
      modifies this`unknownKids
      ensures unknownKids == Newest(old(unknownKids), cacheSize)
    {
      while |unknownKids| > cacheSize
        invariant Newest(unknownKids, cacheSize) == Newest(old(unknownKids), cacheSize)
      {
        NewestOfTail(unknownKids, cacheSize);
        unknownKids := unknownKids[1..];
      }
    }

    /** Any number of cache accesses of other callers. */
    method OthersRun()
      requires Valid()
      modifies this
      ensures Valid() && old(clock) <= clock
      ensures Extends(old(history), history) && Extends(old(evidence), evidence)
    {
      var n: nat := *;
      while n > 0
        invariant Valid() && old(clock) <= clock
        invariant Extends(old(history), history) && Extends(old(evidence), evidence)
      {
        var header: Header, records: bool := *, *;
        var key := CacheKeyFor(header);
        if key.Some? && records {
          RecordUnknown(key.value, Evidence(header, DEFINITIVE_MISS));
        } else if key.Some? {
          var _ := IsKnownUnknown(key.value);
        }
        n := n - 1;
      }
    }

    /** The first critical section. A key found here had a definitive miss less than a time-to-live ago. */
    method LookUp(header: Header) returns (hit: bool)
      requires Valid()
      modifies this
      ensures Valid() && old(clock) <= clock
      ensures Extends(old(history), history) && Extends(old(evidence), evidence)
      ensures hit <==> CacheKeyFor(header).Some? && Known(history, CacheKeyFor(header).value, clock, ttl, cacheSize)
      ensures hit ==> MissedRecently(history, evidence, CacheKeyFor(header).value, clock, ttl)
    {
      OthersRun();
      var key := CacheKeyFor(header);
      if key.None? {
        return false;
      }
      hit := IsKnownUnknown(key.value);
      if hit {
        KnownHasRecentMiss(history, key.value, clock, ttl, cacheSize);
      }
    }

    /** The answer of the fetched path, which records a key if and only if its miss is definitive. */
    method Settle(header: Header, fetch: Fetch) returns (v: Verdict)
      requires Valid()
      modifies this
      ensures Valid() && old(clock) <= clock && v == Uncached(fetch) && Answers(fetch, v)
      ensures Extends(old(evidence), evidence)
      ensures history == old(history) + RecordOf(header, fetch, clock)
    {
      UncachedIsTotal(fetch);
      match fetch {
        case Failed(KeyClientError(definitive)) =>
          var key := CacheKeyFor(header);
          if key.Some? && definitive {
            RecordUnknown(key.value, Evidence(header, fetch));
          }
          v := Rejection(BoundedReasonFor(fetch.error));
        case Failed(e) =>
          v := Rejection(BoundedReasonFor(e));
        case Broke =>
          v := Rejection(BadSignature);
        case Accepted(payload) =>
          v := ClaimsFromPayload(payload);
      }
    }

    /** Total: either the uncached answer, or, for a key with a definitive miss less than a time-to-live
        ago, the very answer of that miss. `looked` and `seen` are the clock and the history at the lookup,
        `before` the history its own record, if it saw a definitive miss itself, is appended to. */
    method Verify(header: Header, fetch: Fetch)
      returns (v: Verdict, ghost hit: bool, ghost looked: real, ghost seen: seq<Miss>, ghost before: seq<Miss>)
      requires Valid()
      modifies this
      ensures Valid() && old(clock) <= looked <= clock
      ensures hit <==> CacheKeyFor(header).Some? && Known(seen, CacheKeyFor(header).value, looked, ttl, cacheSize)
      ensures hit ==> MissedRecently(history, evidence, CacheKeyFor(header).value, looked, ttl)
      ensures if hit then v == Uncached(DEFINITIVE_MISS) && v == Verdict(None, Some(BadSignature))
              else v == Uncached(fetch) && Answers(fetch, v)
      ensures v.claims.Some? <==> v.reason.None?
      ensures v.claims.Some? ==> fetch.Accepted? && v.claims.value.issuer == fetch.payload.iss
                                 && Some(v.claims.value.subject) == fetch.payload.sub
      ensures Extends(old(history), seen) && Extends(seen, before) && Extends(old(evidence), evidence)
      ensures history == before + if hit then [] else RecordOf(header, fetch, clock)
    {
      UncachedIsTotal(fetch);
      var found := LookUp(header);
      hit := found;
      looked, seen, before := clock, history, history;
      if found {
        return Rejection(BadSignature), true, looked, seen, before;
      }
      OthersRun();
      before := history;
      v := Settle(header, fetch);
    }
  }

  /** The record one fetched answer makes: an outage, or a failure of any other kind, makes none. */
  ghost function RecordOf(header: Header, fetch: Fetch, at: real): seq<Miss> {
    if CacheKeyFor(header).Some? && fetch == DEFINITIVE_MISS then [Miss(CacheKeyFor(header).value, at)] else []
  }
}
