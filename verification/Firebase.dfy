/** The provider read: classification of one `getUser` reply and the bounded retry around it. */
module Firebase {
  import opened Wrappers

  /** The client-visible rejections the account-creation path can raise. */
  datatype AppError =
    | ChallengeNotFound
    | ChallengeIdentityMismatch
    | ChallengeConsumed
    | ChallengeExpired
    | ChallengeOperationMismatch
    | HistoricalIdentity
    | BlockedUser
    | IdentityAlreadyLinked
    | IdentityUnresolvable
    | PreAuthIdentityNotAllowed
    | UserNotFound
    | NotLinked
    | Unavailable

  datatype Provider = Anonymous | Google | Apple

  /** What one completed read established. */
  datatype Facts = Facts(provider: Provider, providerUid: Option<string>, email: Option<string>)

  datatype Record = Record(entries: seq<(string, string)>, email: Option<string>, emailVerified: bool)

  /** Everything the Admin SDK can answer with; `NoApp` is the issuer no app was configured for. */
  datatype AdminReply =
    | Found(record: Record)
    | NoSuchUser
    | MalformedData
    | CredentialFailure
    | Outage
    | NoApp

  datatype ReadOutcome = Established(facts: Facts) | Retryable | Rejected(error: AppError)

  const LOOKUP_ATTEMPTS: nat := 3

  function Recognized(providerId: string): Option<Provider> {
    if providerId == "google.com" then Some(Google)
    else if providerId == "apple.com" then Some(Apple)
    else None
  }

  function ResolveProvider(entries: seq<(string, string)>): Result<(Provider, Option<string>), AppError> {
    if |entries| == 0 then Success((Anonymous, None))
    else if |entries| != 1 then Failure(NotLinked)
    else
      var (providerId, uid) := entries[0];
      match Recognized(providerId)
      case None => Failure(NotLinked)
      case Some(provider) => if uid == "" then Failure(NotLinked) else Success((provider, Some(uid)))
  }

  /** The characters Python's `str.strip` removes. */
  predicate IsSpace(c: char) {
    || '\t' <= c <= '\r'
    || '\U{1C}' <= c <= ' '
    || c == '\U{85}' || c == '\U{A0}' || c == '\U{1680}'
    || '\U{2000}' <= c <= '\U{200A}'
    || c == '\U{2028}' || c == '\U{2029}' || c == '\U{202F}' || c == '\U{205F}' || c == '\U{3000}'
  }

  predicate IsBlank(text: string) {
    forall i :: 0 <= i < |text| ==> IsSpace(text[i])
  }

  function VerifiedEmail(email: Option<string>, verified: bool): Option<string> {
    if email.None? || IsBlank(email.value) then None
    else if !verified then None
    else email
  }

  function Read(reply: AdminReply): ReadOutcome {
    match reply
    case NoApp => Rejected(Unavailable)
    case NoSuchUser => Rejected(UserNotFound)
    case MalformedData => Retryable
    case CredentialFailure => Retryable
    case Outage => Retryable
    case Found(record) =>
      match ResolveProvider(record.entries)
      case Failure(error) => Rejected(error)
      case Success((provider, uid)) =>
        Established(Facts(provider, uid, VerifiedEmail(record.email, record.emailVerified)))
  }

  /** The `external_identities` CHECK: the uid is NULL exactly for anonymous, and never empty. */
  predicate ProviderRule(provider: Provider, uid: Option<string>) {
    match uid
    case None => provider == Anonymous
    case Some(u) => provider != Anonymous && u != ""
  }

  /** The code points `str.strip` removes, as Unicode's white space and the four separators have them. */
  const STRIPPED: set<int> :=
    {9, 10, 11, 12, 13, 28, 29, 30, 31, 32, 133, 160, 5760, 8192, 8193, 8194, 8195, 8196, 8197, 8198, 8199, 8200,
     8201, 8202, 8232, 8233, 8239, 8287, 12288}

  lemma SpaceIsStripped(c: char)
    ensures IsSpace(c) <==> c as int in STRIPPED
  {}

  /** An address is blank exactly when every character of it is stripped. */
  lemma BlankIsStripped(text: string)
    ensures IsBlank(text) <==> forall i :: 0 <= i < |text| ==> text[i] as int in STRIPPED
  {
    forall i | 0 <= i < |text| ensures IsSpace(text[i]) <==> text[i] as int in STRIPPED {
      SpaceIsStripped(text[i]);
    }
  }

  /** What each accepted shape establishes, and that it satisfies the table's CHECK: an empty list is an
      anonymous account with no uid, one Google or Apple entry that provider with the entry's own uid, and
      the address is the record's exactly when it is verified and some character of it is not stripped. */
  lemma EstablishedFacts(reply: AdminReply)
    ensures Read(reply).Established? <==>
              && reply.Found?
              && (|| reply.record.entries == []
                  || (&& |reply.record.entries| == 1
                      && reply.record.entries[0].0 in {"google.com", "apple.com"}
                      && reply.record.entries[0].1 != ""))
    ensures Read(reply).Established? ==>
              var facts, record := Read(reply).facts, reply.record;
              && ProviderRule(facts.provider, facts.providerUid)
              && (record.entries == [] ==> facts.provider == Anonymous && facts.providerUid == None)
              && (record.entries != [] ==>
                    && facts.providerUid == Some(record.entries[0].1)
                    && (facts.provider == Google <==> record.entries[0].0 == "google.com")
                    && (facts.provider == Apple <==> record.entries[0].0 == "apple.com"))
              && (facts.email.Some? <==>
                    record.emailVerified && record.email.Some?
                    && exists i :: 0 <= i < |record.email.value| && record.email.value[i] as int !in STRIPPED)
              && (facts.email.Some? ==> facts.email == record.email)
  {
    if reply.Found? {
      if reply.record.email.Some? { BlankIsStripped(reply.record.email.value); }
      if |reply.record.entries| == 1 {
        var (providerId, uid) := reply.record.entries[0];
        assert Recognized(providerId).Some? <==> providerId in {"google.com", "apple.com"};
      }
    }
  }

  /** Every other reply: an issuer without an app is unavailable, a missing user is not found, any other shape
      of the list is not linked, and what is left, and nothing else, may be read again. */
  lemma RejectedReplies(reply: AdminReply)
    ensures reply.NoApp? <==> Read(reply) == Rejected(Unavailable)
    ensures reply.NoSuchUser? <==> Read(reply) == Rejected(UserNotFound)
    ensures reply.Found? && !Read(reply).Established? <==> Read(reply) == Rejected(NotLinked)
    ensures reply.MalformedData? || reply.CredentialFailure? || reply.Outage? <==> Read(reply).Retryable?
  {
    EstablishedFacts(reply);
  }

  /** The answer of the bounded provider read, `failures` retryable replies in. */
  function LookupOutcome(replies: seq<AdminReply>, failures: nat): Result<Facts, AppError>
    requires failures < LOOKUP_ATTEMPTS <= |replies|
    decreases LOOKUP_ATTEMPTS - failures
  {
    match Read(replies[failures])
    case Established(facts) => Success(facts)
    case Rejected(error) => Failure(error)
    case Retryable =>
      if failures + 1 < LOOKUP_ATTEMPTS then LookupOutcome(replies, failures + 1) else Failure(Unavailable)
  }

  /** Calls the adapter until it answers something other than a retryable failure, at most three times. */
  method LookupWithRetry(replies: seq<AdminReply>) returns (result: Result<Facts, AppError>, calls: nat)
    requires |replies| >= LOOKUP_ATTEMPTS
    ensures result == LookupOutcome(replies, 0)
    ensures 1 <= calls <= 3
    ensures forall k :: 0 <= k < calls - 1 ==> Read(replies[k]).Retryable?
    ensures Read(replies[calls - 1]).Retryable? ==> calls == 3 && result == Failure(Unavailable)
    ensures Read(replies[calls - 1]).Rejected? ==> result == Failure(Read(replies[calls - 1]).error)
    ensures Read(replies[calls - 1]).Established? ==> result == Success(Read(replies[calls - 1]).facts)
  {
    calls := 0;
    while calls < LOOKUP_ATTEMPTS
      invariant 0 <= calls <= LOOKUP_ATTEMPTS
      invariant forall k :: 0 <= k < calls ==> Read(replies[k]).Retryable?
      invariant LookupOutcome(replies, 0) == if calls < LOOKUP_ATTEMPTS then LookupOutcome(replies, calls) else Failure(Unavailable)
    {
      var outcome := Read(replies[calls]);
      calls := calls + 1;
      match outcome {
        case Established(facts) => return Success(facts), calls;
        case Rejected(error) => return Failure(error), calls;
        case Retryable =>
      }
    }
    result := Failure(Unavailable);
  }
}
