# Verified model of the gateway's hard core

Four state machines of the gateway, written in Dafny and proved over every interleaving of any number of
requests, with a crash or an unexpected exception possible at every step.

1. **Account creation** (`Firebase`, `AuthTables`, `AuthMachine`, `AuthInvariant`, `AuthSteps`,
   `AuthTheorems`, `AuthRuns`, `AuthService`). A completion claims a single-use challenge in one transaction,
   reads the identity provider, and inserts the account and spends the challenge in a second transaction. The
   only arbiters are two conditional UPDATEs and the UNIQUE indexes. `AuthMachine` has committed tables, one
   set of pending writes and one program counter per attempt, row locks and in-flight index entries, under
   READ COMMITTED. `AuthService` is the same protocol as structured code: each statement lets everybody else
   run first, may raise, and is one step of the machine. `AuthRuns` proves that an attempt run alone ends as
   the sequential reading of the code says, success included.
2. **Quota** (`QuotaModel`, `QuotaHistory`, `QuotaMachine`, `QuotaInvariant`, `QuotaTheorems`, `QuotaRuns`,
   `QuotaService`). A charge locks the effective grants in ascending order, then the usage row, rolls the
   month over, compares, increments and commits; a sync reads the same rows without locks.
3. **Admission, breaker, retry and chats** (`Breaker`, `Gate`, `Retry`, `ChatMachine`, `ChatInvariant`,
   `ChatTheorems`, `ChatStorage`, `ChatOwners`, `ChatProgress`, `ChatRuns`, `ChatLimits`, `ChatService`). The
   breaker, the gate and the retry loop are each proved on their own, and then composed with the quota machine:
   the state of `ChatMachine` contains a whole `QuotaMachine` state, and every charge is one of its
   transactions.
4. **Negative key-id cache** (`KeyCache`, `JwtVerifier`). The ordered dictionary with its sweep, move to end
   and front eviction, specified by the history of what was recorded. The key is the `kid` header parameter of
   section 4.1.4 of RFC 7515.

Modelling choices. Identifiers drawn by an attempt are `Minted(attempt, slot)`, so nobody else holds them;
challenge handles are fresh. Instants are integers (authentication), calendar moments (quota) and reals (the
monotonic clock). Every class whose methods suspend has an `OthersRun` method that takes any number of steps
of other requests, and the contract of each later method is proved in spite of it. A wait that never ends is
treated as an exception. `State.issued`, `State.owner`, `State.log`, the attempts' `claimed` and `calls` and
the breaker's and cache's logs are history: no step reads them to decide anything.

The composed machine takes its gate steps from the functions the gate's own methods are proved against, and
`ChatTheorems.AttemptsAreTheRetryLoop` ties its attempts to the loop `Retry.Ainvoke` is proved to be.

Two promises hold only under a condition, and both sides are proved over runs. A month's spending stays within
the allowance in every run whose commits move through a given list of months if and only if no month is listed
twice, or the row has no room to begin (`QuotaRuns.RunsKeepMonthsExactly`); and since the instant is captured
before the request queues, a run that enters a month twice exists although its instants were captured in clock
order (`QuotaRuns.LateCommitOverspendsAMonth`). The limits on chats and on answers are checked before a request
queues and used when it stores: they hold in every run with at most `m` such requests in flight together if and
only if `m` is at most one, and two whose checks overlap go over them (`ChatLimits.ChatsLimitExactly`,
`ChatLimits.AnswersLimitExactly`).

## Model

| member | source | states |
|---|---|---|
| Firebase.EstablishedFacts | src/nativespeaker/api/auth/firebase.py:110-131 | exactly the empty provider list and one google.com or apple.com entry with a non-empty uid are accepted; provider and uid are that entry's, NULL exactly for anonymous; the address is the record's exactly when verified and some character of it is none of the code points `str.strip` removes |
| Firebase.BlankIsStripped | src/nativespeaker/api/auth/firebase.py:110-131 | an address is blank exactly when every character of it is a code point that `str.strip` removes |
| Firebase.RejectedReplies | src/nativespeaker/api/auth/firebase.py:63-97 | an issuer without an app is unavailable, a missing user is not found, every other shape of the list is not linked, and exactly malformed data, credential failures and outages may be read again |
| Firebase.LookupWithRetry | src/nativespeaker/api/auth/firebase.py:134-147 | at most three reads, all but the last retryable, the first other answer returned, and exhaustion answered as unavailable |
| AuthTables.BindingAdmitsItsPresenter | src/nativespeaker/api/crud/challenges.py:32-105 | a challenge admits exactly the presenter it was issued to, is claimable exactly before its deadline and once, consumable exactly once claimed, and once spent answers already used to any presenter of a pair |
| AuthInvariant.RelyKeepsAttempt | src/nativespeaker/api/services/auth.py:66-93 | what an attempt relies on between two of its statements survives every step of everybody else |
| AuthSteps.ActionKept | src/nativespeaker/api/services/auth.py:42-135 | every statement of an attempt keeps the protocol's invariant and, to every other attempt, what it relies on |
| AuthTheorems.EventKept | src/nativespeaker/api/services/auth.py:42-135 | every event of the system, administration and issuing included, keeps the invariant and moves rows only forward |
| AuthTheorems.RunInv | src/nativespeaker/api/services/auth.py:42-135 | the invariant holds in every state of every run |
| AuthTheorems.RunLater | src/nativespeaker/api/crud/challenges.py:64-88 | along a run no row is deleted, no committed claim changes hands and no request changes |
| AuthTheorems.ClaimIsSingleUse | src/nativespeaker/api/crud/challenges.py:64-75 | two attempts on one challenge that ever got past the claim commit, or ever called the provider, are the same attempt, at any two moments; at most three provider calls |
| AuthTheorems.NoPartialAccount | src/nativespeaker/api/services/auth.py:66-93 | each attempt has all its rows or none, and all exactly when it succeeded with a create_user challenge issued to its own unlinked pair, claimed before created_at + 300 s and consumed with its subject cleared; the rows are, column by column, the established facts: address, registration instant unless anonymous, the caller's pair, provider and uid, one token per store; the answer is that provider |
| AuthTheorems.AccountsMapToChallenges | src/nativespeaker/api/services/auth.py:66-93 | every user this path made belongs to a whole earned account, and accounts map injectively to challenges |
| AuthTheorems.OnlyCommitsWrite | src/nativespeaker/api/services/auth.py:66-67 | no statement but the two commits changes a table, and the claim commit changes challenges only |
| AuthTheorems.AccountAppearsAtOnce | src/nativespeaker/api/services/auth.py:91-135 | the event that makes any row of an account visible is the spend commit; it makes all of them visible, column by column, with an active user and an active identity, and consumes the claimed challenge |
| AuthTheorems.WinnersAreDisjoint | src/nativespeaker/api/crud/identities.py:63-98 | two successful attempts of one issuer have different subjects and, unless anonymous, different provider accounts |
| AuthTheorems.LosersReallyConflict | src/nativespeaker/api/crud/identities.py:97-98 | an already-linked, historical or blocked answer means a committed identity row of the same issuer has the caller's subject or its provider account |
| AuthTheorems.SharedKeyStands | src/nativespeaker/api/crud/identities.py:63-98 | two identity rows share an entry of a unique index exactly when issuer and subject agree, or issuer, provider and a uid that is not NULL |
| AuthTheorems.LosersHaveAWinner | src/nativespeaker/api/crud/identities.py:63-98 | where nothing held the pair or the provider account from the start, such a loser lost to another attempt that earned a whole account under a key the loser wanted |
| AuthTheorems.ClaimLossIsTruthful | src/nativespeaker/api/services/auth.py:56-64 | expired means the instant was not before the deadline; already used means another attempt's committed claim; neither claimed nor called the provider |
| AuthTheorems.ConsumeAlwaysMatches | src/nativespeaker/api/services/auth.py:124-135 | in every reachable state the consume matches its row, so the did-not-match branch is dead |
| AuthTheorems.ChallengeLifeCycle | src/nativespeaker/api/crud/challenges.py:32-88 | exactly one binding arm; consumed only after claimed; claimed only in time and by a recorded attempt; a pre-auth subject cleared exactly when consumed |
| AuthTheorems.LinkedChallengeNeverCreates | src/nativespeaker/api/crud/challenges.py:90-105 | a challenge issued to a linked identity never yields any row of an account |
| AuthTheorems.ResolvedCallerStaysPlausible | src/nativespeaker/api/crud/identities.py:27-51 | the identity a request resolved to is still there at every later moment |
| AuthTheorems.ResolvesTo | src/nativespeaker/api/crud/identities.py:27-51 | with the constraints, the admission matrix is a function of the pair's one row and its user |
| AuthTheorems.ResolveMatrix | src/nativespeaker/api/crud/identities.py:27-51 | the whole matrix: without a row a pre-auth caller where that is allowed and its refusal where not; else unresolvable, historical, blocked or the linked caller, in that order |
| AuthTheorems.SuccessIsNeverForgotten | src/nativespeaker/api/crud/identities.py:27-51 | after a success the pair resolves, at every later moment, to its own row, or to retired or blocked; never to unlinked |
| AuthRuns.SoloClaim | src/nativespeaker/api/services/auth.py:56-67 | alone, a claimable row is claimed and committed, and another one gives the refresh's answer and changes nothing |
| AuthRuns.SoloRead | src/nativespeaker/api/auth/firebase.py:139-147 | alone, the reads end with the facts or the rejection of the bounded retry |
| AuthRuns.SoloCreate | src/nativespeaker/api/services/auth.py:95-122 | alone, the account is pending in full or the rejection is that of the existing row or of the taken provider account |
| AuthRuns.SoloSpend | src/nativespeaker/api/services/auth.py:124-135 | alone, the spend after a complete insert or a rollback ends with the outcome it was for |
| AuthRuns.SoloComplete | src/nativespeaker/api/services/auth.py:42-93 | alone, a completion ends with the verdict of the sequential reading, in its order of precedence, with all rows on success and none otherwise; without a claim it leaves every table as it was, and after a claim a rejection leaves nothing but the challenge claimed, consumed and its subject cleared |
| AuthService.Session.Locate | src/nativespeaker/api/crud/challenges.py:59-62 | the row committed under the handle at that moment, with the pre-claim verdict on exactly it, or death |
| AuthService.Session.Claim | src/nativespeaker/api/crud/challenges.py:64-75 | wins if and only if the committed row is unclaimed and not past its deadline at the attempt's instant, or dies |
| AuthService.Session.Refresh | src/nativespeaker/api/services/auth.py:60-64 | the claim instant committed in the row decides between expired and already used, or death |
| AuthService.Session.ReadFacts | src/nativespeaker/api/auth/firebase.py:139-147 | the replies read through, one to three, all but the last retryable; facts or rejection are the last one's, unavailable after a third retryable one; the attempt's call count grows by their number |
| AuthService.Session.CreateUser | src/nativespeaker/api/services/auth.py:95-112 | a complete pending account, column by column, or the rejection of an identity row |
| AuthService.Session.RejectExistingIdentity | src/nativespeaker/api/services/auth.py:114-122 | never returns normally: historical by the state read before, else blocked or already linked by the user as committed at that moment |
| AuthService.Session.InsertAccount | src/nativespeaker/api/crud/identities.py:63-98 | user, identity and one token per store pending, with the address, registration instant, pair, provider, uid and states the source gives them; or already linked and nothing else |
| AuthService.Session.MintTokens | src/nativespeaker/api/crud/identities.py:88-95 | the loop leaves exactly one token per store pending |
| AuthService.Session.ConsumeAndCommit | src/nativespeaker/api/services/auth.py:124-135 | never diverges; a failing spend leaves a rejection as it was and a success dead |
| AuthService.Session.Complete | src/nativespeaker/api/services/auth.py:42-93 | a returned provider is the one the replies read through established, and means an account with exactly its columns and its spent challenge is committed; a rejection is that of a check, of the replies or of an identity row, and leaves no row; the diverged branch is never taken |
| QuotaModel.EffectiveGrants | src/nativespeaker/api/crud/grants.py:11-23 | the effective grants, ascending by id; `GrantsAreChargeable` says which they are |
| QuotaModel.GrantsAreChargeable | src/nativespeaker/api/crud/grants.py:11-23 | a grant is listed exactly when it is the user's, active, started by the instant (that moment included) and not ended by it (that moment excluded); none, one or several are listed exactly when that many are |
| QuotaModel.PeriodIsTheMonth | src/nativespeaker/api/services/quota.py:55 | two instants have one period string exactly when they lie in one calendar month |
| QuotaModel.OrderIsOfStamps | src/nativespeaker/api/crud/grants.py:15-20 | the comparison of instants is that of one number a moment |
| QuotaModel.PeriodIsWritten | src/nativespeaker/api/services/quota.py:55 | the period is the year in four decimal digits, a hyphen and the month in two |
| QuotaModel.SyncAgreesWithCharge | src/nativespeaker/api/services/sync.py:24-63 | same integrity errors; none for the no-grant refusal; the charge succeeds exactly when the report is active with room left, and the next report shows one unit more |
| QuotaModel.ChargeIsSpelledOut | src/nativespeaker/api/services/quota.py:27-82 | no grant, several, no row, no tier and no room are each refused exactly then; otherwise the one row of the one grant holds the month, one use more and the instant, and nothing else differs |
| QuotaModel.ReportIsSpelledOut | src/nativespeaker/api/services/sync.py:24-63 | the report is none exactly when no grant may be charged, and else the one grant's own source and tier, that tier's credits, the month, and the row's uses of this month |
| QuotaHistory.UsedIsCommitsSinceRollover | src/nativespeaker/api/services/quota.py:57-77 | the stored count is its epoch's starting count plus the commits since its last rollover, for every history |
| QuotaHistory.EpochStartRolls | src/nativespeaker/api/services/quota.py:57-60 | the epoch starts with a charge that rolled over, or with the history when none did |
| QuotaHistory.NothingRollsAfter | src/nativespeaker/api/services/quota.py:57-60 | nothing rolls over after the start of the epoch |
| QuotaHistory.CommitsWithinEpochs | src/nativespeaker/api/services/quota.py:57-77 | admitted commits never exceed the allowance times the rollovers plus one |
| QuotaHistory.CountWithinVisits | src/nativespeaker/api/services/quota.py:57-77 | the commits of one month never exceed the allowance times the times the row entered it |
| QuotaHistory.VisitsAreOccurrences | src/nativespeaker/api/services/quota.py:57-60 | a month is entered as often as it occurs among the months the history moves through |
| QuotaHistory.MonthlyBound | src/nativespeaker/api/services/quota.py:57-77 | while captured months do not go back, no month exceeds the allowance |
| QuotaHistory.MonthlyBoundExactly | src/nativespeaker/api/services/quota.py:57-77 | for any row, allowance and list of months that follow one another: every admitted history that moves through them keeps each month within the allowance if and only if no month is listed twice or the row has no room to begin |
| QuotaInvariant.EventKeeps | src/nativespeaker/api/services/quota.py:27-82 | every step of a charge or a sync keeps the lock, row and history invariant, and what other transactions rely on |
| QuotaTheorems.ChargesAreSerializable | src/nativespeaker/api/services/quota.py:27-82 | the committed rows are the log replayed as one atomic charge after another |
| QuotaTheorems.CommitsAreAtomicCharges | src/nativespeaker/api/services/quota.py:75-79 | a commit is exactly the atomic charge on the rows committed at that moment |
| QuotaTheorems.RefusalsWriteNothing | src/nativespeaker/api/services/quota.py:35-82 | a refusal is the atomic charge's refusal at that moment and changes nothing, even after an in-memory rollover |
| QuotaTheorems.ChargesAreOnTheOneGrant | src/nativespeaker/api/crud/grants.py:15-20 | every charge ever committed is on a grant of its own user that is active, had started by its instant and had not ended by it, and that was the only one |
| QuotaTheorems.UsageIsItsHistory | src/nativespeaker/api/services/quota.py:57-79 | each stored row is the replay of the charges committed on its grant; its count is its epoch's starting count plus the commits since; its period and instant are those of the last commit |
| QuotaTheorems.SpendingIsBounded | src/nativespeaker/api/services/quota.py:57-79 | in every reachable state the commits on a grant never exceed its allowance times its rollovers plus one |
| QuotaTheorems.MonthlySpendingIsBounded | src/nativespeaker/api/services/quota.py:57-79 | in every reachable state the commits of one month never exceed the allowance times the times the row entered it, nor the allowance while captured months do not go back |
| QuotaTheorems.WaitsUpward | src/nativespeaker/api/crud/grants.py:37-53 | a transaction waits only for a lock ranked above every lock it holds |
| QuotaTheorems.NoWaitCycle | src/nativespeaker/api/crud/grants.py:37-53 | no chain of waiting transactions closes |
| QuotaTheorems.SomeoneCanStep | src/nativespeaker/api/crud/grants.py:37-53 | while any transaction has not ended, some transaction can step |
| QuotaTheorems.SyncNeverWaits | src/nativespeaker/api/services/sync.py:29-53 | a sync can always step, and its step changes no row and takes no lock |
| QuotaTheorems.SyncIsAtomic | src/nativespeaker/api/services/sync.py:24-63 | the answer of the three reads is the atomic answer on the store that was committed when the usage row was read, at a moment in the middle of the sync |
| QuotaTheorems.SyncReportsTheGrant | src/nativespeaker/api/services/sync.py:24-63 | an active report gives source, tier, credits, month and uses of the one chargeable grant, as the rows had them when it read the usage row |
| QuotaRuns.SoloCharge | src/nativespeaker/api/services/quota.py:27-82 | alone, a charge terminates by steps of its own with exactly the atomic outcome, all locks released |
| QuotaRuns.Realise | src/nativespeaker/api/services/quota.py:27-82 | whatever order instants are captured in, every admitted commit order of some of them is the log of a reachable state |
| QuotaRuns.RunsKeepMonthsExactly | src/nativespeaker/api/services/quota.py:55-79 | over runs on one grant: every run that moves through these months keeps each within the allowance if and only if no month is listed twice or there is no room to begin |
| QuotaRuns.LateCommitOverspendsAMonth | src/nativespeaker/api/app/dependencies.py:86-87 | a reachable state in which one credit a month paid for two charges of one month, with instants captured in clock order |
| QuotaService.QuotaService.LockEffectiveGrants | src/nativespeaker/api/crud/grants.py:37-42 | the effective grants, all locked |
| QuotaService.QuotaService.Charge | src/nativespeaker/api/services/quota.py:27-82 | success means the atomic charge of the rows committed just before, on the one grant that may be charged; it is refused for want of a grant exactly when the user has none that may be, and for want of room only when the one grant has none; anything but success writes nothing |
| Breaker.AfterIsTheLog | src/nativespeaker/api/resilience.py:40-71 | the two fields are a reading of the log: failures since the last success or expired check, up to the threshold; open exactly at the threshold, since the failure that reached it |
| Breaker.RefusalIsInTheWindow | src/nativespeaker/api/resilience.py:48-58 | refused exactly inside the window that failure opened, never extended; the advice lies in [1, reset] and is the time left rounded down to whole seconds, but at least one |
| Breaker.AdmittedIsClosed | src/nativespeaker/api/resilience.py:48-56 | a check that is not refused leaves the breaker closed |
| Breaker.CircuitBreaker.BeforeCall | src/nativespeaker/api/resilience.py:48-58 | refuses exactly while the window its log describes is open |
| Breaker.CircuitBreaker.RecordSuccess | src/nativespeaker/api/resilience.py:60-63 | closes the breaker and logs one success |
| Breaker.CircuitBreaker.RecordFailure | src/nativespeaker/api/resilience.py:65-71 | counts while closed, opens at the threshold, changes nothing while open |
| Gate.LLMExecutionGate.constructor | src/nativespeaker/api/resilience.py:75-81 | all tokens free and distinct, all permits free |
| Gate.LLMExecutionGate.GetNowait | src/nativespeaker/api/resilience.py:84-88 | refused exactly when every token is held; its effect on what is free is the one the request machine takes |
| Gate.LLMExecutionGate.PutNowait | src/nativespeaker/api/resilience.py:91-95 | the token always goes back in: the full-queue branch is dead |
| Gate.LLMExecutionGate.Hold | src/nativespeaker/api/resilience.py:97-102 | refused exactly when every token is held; the body runs whenever a permit is free, and always with its token among the at most pool-size running ones; on every other exit path the very token taken is free again |
| Retry.SleepsAreBounded | src/nativespeaker/api/resilience.py:158-168 | the sleeps never shrink, are positive and at most the next wait, and total at most one cap per retry |
| Retry.BackoffDoubles | src/nativespeaker/api/resilience.py:158-164 | the first wait is the base, each next one twice as long, and none longer than the cap |
| Retry.SleepsAreCounted | src/nativespeaker/api/resilience.py:115-118 | one sleep per retry, or none at all when base or cap is zero |
| Retry.SleepsAddUp | src/nativespeaker/api/resilience.py:158-164 | while the cap is not reached the sleeps of n retries add up to one base less than the base times 2 to the n |
| Retry.SleepsWithin | src/nativespeaker/api/resilience.py:158-168 | the sleeps of any number of retries stay within the budget of the retries allowed |
| Retry.StopsOnce | src/nativespeaker/api/resilience.py:158-169 | whatever the outcomes, the loop stops, and at exactly one attempt |
| Retry.TriageIsSpelledOut | src/nativespeaker/api/resilience.py:15-37 | a value, a passing exception, any other exception, a bypass and a cancellation are each answered as themselves, and only a passing exception asks for another attempt |
| Retry.StopsIsSpelledOut | src/nativespeaker/api/resilience.py:104-107 | the loop stops at an attempt exactly when every earlier one raised a passing exception and it did not or was the last allowed; passing is a timeout, a retryable class, or one of seven statuses, the exception's own before its response's |
| Retry.Attempt | src/nativespeaker/api/resilience.py:143-156 | one breaker event for a value or a provider failure, none for a bypass or a cancellation, beside everybody else's; transient exactly for an exception that passes by its classes or its status, permanent for any other |
| Retry.Ainvoke | src/nativespeaker/api/resilience.py:140-169 | another attempt follows exactly a timeout, a retryable class or a passing status while any is left; answers transient, permanent, the value or the bypass as the last attempt ended; records its own events in order, and sleeps exactly the backoffs |
| ChatInvariant.EventKeeps | src/nativespeaker/api/services/chats.py:76-123 | every event keeps the gate sums, the charge accounts, the breaker's reading of its log and each request's own balance |
| ChatTheorems.CallsArePaidFirst | src/nativespeaker/api/services/chats.py:92-94 | a provider call goes out only after the request's own, unshared charge is committed, and within the attempts allowed |
| ChatTheorems.AccountsBalance | src/nativespeaker/api/services/chats.py:76-123 | committed charges equal paid requests; provider calls are at most the attempts allowed per charge; stored answers are at most the charges |
| ChatTheorems.RefusalsCostNothing | src/nativespeaker/api/services/chats.py:81-93 | a request refused by a check, the breaker, the gate or the quota has no charge, no provider call and no breaker record |
| ChatTheorems.RecordsArePaid | src/nativespeaker/api/resilience.py:143-156 | at any moment a request's breaker records are exactly what its attempts so far record, at most one a provider call, and only a paid request has any |
| ChatTheorems.AttemptsAreTheRetryLoop | src/nativespeaker/api/resilience.py:140-169 | whatever is interleaved, a request that went through its calls made another exactly after each passing exception while any was left, ended well exactly when the last returned a validated analysis or follow-up, and left exactly its attempts' records on the breaker |
| ChatTheorems.OnlyChecksAndAttemptsMoveTheBreaker | src/nativespeaker/api/services/chats.py:92-94 | nothing but a check and the end of an attempt moves the breaker |
| ChatTheorems.QuotaRefusalIsTrue | src/nativespeaker/api/services/chats.py:93 | a quota refusal is the atomic refusal at that moment and leaves rows and breaker as they were |
| ChatTheorems.ChargedIsCommitted | src/nativespeaker/api/services/chats.py:93 | a request counts as charged exactly with the atomic charge committed |
| ChatTheorems.GateIsConserved | src/nativespeaker/api/resilience.py:74-102 | free plus held slots are pool plus queue; permits plus running bodies are the pool; over every run |
| ChatTheorems.QueueFullExactly | src/nativespeaker/api/resilience.py:84-88 | a request finds the queue full exactly when every slot is held |
| ChatTheorems.WaitsOnlyForThePool | src/nativespeaker/api/resilience.py:101-102 | a request waits for a permit exactly while the pool is full |
| ChatTheorems.TokenGoesBack | src/nativespeaker/api/resilience.py:91-95 | in every reachable state the queue has room for the token a request returns |
| ChatTheorems.EndedHoldNothing | src/nativespeaker/api/resilience.py:133-138 | once every request has ended, on whatever path, all slots and permits are free |
| ChatTheorems.BreakerRefusesInItsWindow | src/nativespeaker/api/resilience.py:133-136 | every refusal of a run falls inside the window of the log, and its advice is the time left of it in whole seconds, at least one |
| ChatStorage.OnlyPersistWrites | src/nativespeaker/api/services/chats.py:96-100 | only persistence writes messages: one question and one answer, at the end of one chat |
| ChatStorage.AnswersAreStored | src/nativespeaker/api/services/chats.py:96-123 | every answer found in a chat was there at the start or stored by its own paid request |
| ChatOwners.AnswersAreCounted | src/nativespeaker/api/services/chats.py:110 | the answers counted against the limit are the messages of the model's role |
| ChatOwners.ChatsOnlyGrow | src/nativespeaker/api/crud/chats.py:49-54 | at every step of every run, a stored chat keeps its owner and its messages in order, and goes only by its owner's deletion |
| ChatOwners.CheckAnswers | src/nativespeaker/api/services/chats.py:81-110 | an absent or foreign chat ends InvalidChat, a non-empty language outside the supported ones UnsupportedLanguage, a full history ChatHistoryLimit, in this order and for nothing else |
| ChatOwners.OnlyOwnersWork | src/nativespeaker/api/crud/chats.py:17-24 | in every reachable state a request past its checks works on a chat whose stored owner, if it is stored, is its user |
| ChatOwners.OnlyOwnersWrite | src/nativespeaker/api/services/chats.py:96-123 | over every run, a request that ends well appends to a chat of its own user's: a message to the chat it names, stored under that user at that very moment, and a creation to a chat nobody had |
| ChatStorage.ChatsWithin | src/nativespeaker/api/services/chats.py:84-98 | over any run with at most m creations of a user in flight together, the user's chats, those about to be stored included, stay within the limit plus m - 1 |
| ChatStorage.AnswersWithin | src/nativespeaker/api/services/chats.py:106-121 | over any run with at most m requests on a chat in flight together, its answers, those about to be stored included, stay within the limit plus m - 1 |
| ChatLimits.TwoCreationsExceed | src/nativespeaker/api/services/chats.py:84-98 | for every configuration a run of two creations whose checks overlap that ends above the limit on chats |
| ChatLimits.TwoMessagesExceed | src/nativespeaker/api/services/chats.py:106-121 | for every configuration a run of two messages to one chat whose checks overlap that ends above the limit on answers |
| ChatLimits.ChatsLimitExactly | src/nativespeaker/api/services/chats.py:84-98 | every run with at most m creations of a user in flight together that starts within the limit ends within it, if and only if m is at most one |
| ChatLimits.AnswersLimitExactly | src/nativespeaker/api/services/chats.py:106-121 | every run with at most m requests on a chat in flight together that starts within the limit on answers ends within it, if and only if m is at most one |
| ChatTheorems.CallsWithin | src/nativespeaker/api/services/chats.py:92-94 | for any kind of charge, the provider calls it pays for are at most the attempts allowed per committed charge |
| ChatTheorems.ProviderBudget | src/nativespeaker/api/services/chats.py:92-94 | the provider calls a grant pays for are at most attempts times allowance times epochs |
| ChatTheorems.MonthlyProviderBudget | src/nativespeaker/api/services/chats.py:92-94 | while captured months do not go back, those of one month are at most attempts times allowance |
| ChatProgress.ChargingIsOpen | src/nativespeaker/api/services/quota.py:27-82 | a charging request has an open transaction that no other request has, and can be given up |
| ChatProgress.SomethingGetsOn | src/nativespeaker/api/services/chats.py:76-123 | while any request has not ended, some request or sync has an enabled step that is no failure, cancellation or arrival |
| ChatRuns.SoloAnswered | src/nativespeaker/api/services/chats.py:92-123 | alone from its check on, a request whose charge goes through and whose answer validates ends well: one atomic charge, the loop's attempts, its question and answer stored, the gate as it was |
| ChatRuns.SoloServe | src/nativespeaker/api/services/chats.py:76-123 | alone, a request ends as the sequential reading says, in the order of its refusals and spelled out over the stored chats and the last outcome, with one charge and its messages stored when it ends well |
| ChatService.ChatService.Admission | src/nativespeaker/api/resilience.py:133-138 | admitted inside the gate, or ended holding nothing, by the breaker, the full queue or a cancellation |
| ChatService.ChatService.Leave | src/nativespeaker/api/resilience.py:91-102 | permit and slot go back whatever happened inside |
| ChatService.ChatService.Charge | src/nativespeaker/api/services/chats.py:93 | charged with the request's own committed charge, or on the way out uncharged, refused by the quota or aborted |
| ChatService.ChatService.AskLlm | src/nativespeaker/api/services/chats.py:47-74 | ends after at most the attempts allowed, paid for, with a validated answer or an exception, and never as an admission or quota refusal |
| ChatService.ChatService.Serve | src/nativespeaker/api/services/chats.py:76-123 | ends holding nothing; a refusal cost nothing, and one of the checks is true of the chats as they were read; an answer was paid for, within the attempts allowed, and stored after its question in a chat that was the user's own, or a new one |
| KeyCache.SweepLeavesLive | src/nativespeaker/api/auth/jwt_verifier.py:132-133 | deleting the expired keys one by one leaves exactly the live items, in order |
| KeyCache.PutThenMove | src/nativespeaker/api/auth/jwt_verifier.py:134-135 | assignment and move to end put the key last with its new deadline and leave the others in order |
| KeyCache.UnboundedIsHistory | src/nativespeaker/api/auth/jwt_verifier.py:126-135 | without expiry and eviction the dictionary is its history: deadline of the latest record, and after a key exactly the keys recorded since |
| KeyCache.EvictOnceOrTwice | src/nativespeaker/api/auth/jwt_verifier.py:136-137 | earlier evictions make no difference to what a later one leaves |
| KeyCache.LiveOfNewest | src/nativespeaker/api/auth/jwt_verifier.py:132-137 | in deadline order, expiry and eviction commute |
| KeyCache.RecordKeepsRefines | src/nativespeaker/api/auth/jwt_verifier.py:126-137 | a record keeps the bound, distinct keys, deadline order and the refinement of the longer history |
| KeyCache.LookupKeepsRefines | src/nativespeaker/api/auth/jwt_verifier.py:115-124 | a lookup that drops an expired item still refines the same history |
| KeyCache.LookupIsKnown | src/nativespeaker/api/auth/jwt_verifier.py:115-124 | a live item is found exactly when the key's latest record is younger than the ttl and fewer than cache-size distinct other keys were recorded since |
| KeyCache.RefusedForAtMostTtl | src/nativespeaker/api/auth/jwt_verifier.py:115-124 | a key whose every record is at least a ttl old is not known |
| KeyCache.JustRecordedIsKnown | src/nativespeaker/api/auth/jwt_verifier.py:126-137 | a new record is known until its deadline, and not at all with a bound of zero or a ttl of zero |
| KeyCache.OtherRecordForgets | src/nativespeaker/api/auth/jwt_verifier.py:126-137 | another key's record forgets a key exactly when it is the last of cache-size distinct others |
| JwtVerifier.UncachedIsTotal | src/nativespeaker/api/auth/jwt_verifier.py:55-75 | exactly one of claims and reason; claims exactly for an accepted payload with a non-empty subject, and then issuer and subject are the payload's; the reason of every error class |
| JwtVerifier.KeysTellHeadersApart | src/nativespeaker/api/auth/jwt_verifier.py:107-113 | two headers share a cache key exactly when both are readable and have the same key id, or neither has a text with anything in it |
| JwtVerifier.JwtVerifier.IsKnownUnknown | src/nativespeaker/api/auth/jwt_verifier.py:115-124 | answers exactly what the history says, and drops only an expired item |
| JwtVerifier.JwtVerifier.RecordUnknown | src/nativespeaker/api/auth/jwt_verifier.py:126-137 | the loops leave exactly the specified items and the history one record longer |
| JwtVerifier.JwtVerifier.Sweep | src/nativespeaker/api/auth/jwt_verifier.py:132-133 | the deletion loop leaves the live items |
| JwtVerifier.JwtVerifier.Evict | src/nativespeaker/api/auth/jwt_verifier.py:136-137 | the pop loop leaves the newest items within the bound |
| JwtVerifier.JwtVerifier.LookUp | src/nativespeaker/api/auth/jwt_verifier.py:140-144 | a hit means a definitive miss of that key less than a ttl ago |
| JwtVerifier.JwtVerifier.Settle | src/nativespeaker/api/auth/jwt_verifier.py:146-167 | the answer spelled out by payload or error class, and a record exactly on a definitive miss of a readable key |
| JwtVerifier.JwtVerifier.Verify | src/nativespeaker/api/auth/jwt_verifier.py:139-167 | total; claims are the accepted payload's own issuer and subject, and the reason that of the error class; a hit gives the definitive miss's own answer; the cache never accepts; an outage never poisons a key |

## Left out

- `created_at` and `updated_at` of users, identities and purchase tokens: each is the attempt's instant and nothing reads them.
- FastAPI routing, pydantic bodies, logging, lifespan and configuration loading: plumbing; the numeric lower bounds of the resilience settings are the preconditions of `ValidConfig`, `ValidLimits` and `ValidPolicy`.
- JWT cryptography, key-set fetching and the claim checks of sections 4.1 and 7.2 of RFC 7519: one outcome per token (accepted payload, definitive key miss, other failure). A payload's subject is text or absent, since the library accepts nothing else.
- The identity provider's SDK and the language model: one outcome per call, chosen by the environment.
- Connection pools and driver errors: any statement may raise at any time, which is one event of each machine.
- Commit acknowledgement: a commit that reaches the database but whose acknowledgement is lost counts as done in the machine, although the client would see an exception.
- Database deadlock detection: two inserts waiting for each other's index entries end as a statement that raises.
- Generation of handles, UUIDs and purchase tokens: fresh by construction, so a collision with a stored token value is not a case.
- Writers of grants and tiers: none of the modelled operations writes them, so they are fixed along a quota run.
- Challenges issued before the modelled run: a run starts with no challenge and any consistent accounts.
- Fairness of the semaphore and of lock queues: any waiter may be next, which covers the order the runtime picks.
- Exact status codes and messages of errors: errors are an enumeration; the transient statuses of provider failures are kept.
- Listing and deleting chats, examples, the health routes and the profile route: one-statement reads or deletes; deletion appears as an event beside the requests.
- Message contents, titles, prompts and history sent to the model: opaque; a message is its role.
- Cancellation in a retry sleep: in `Retry.Ainvoke` it is an attempt that ends cancelled; in `ChatMachine` it is an event of its own.
