# GraftAI scheduling backend: verified models

GraftAI schedules meetings. These Dafny modules model the parts of its backend that carry protocols, state machines
or loops worth a proof, and prove what they promise over every input, run or interleaving.

| file | what it models |
|---|---|
| Common.dfy | options, half-open intervals, insertion-ordered dictionaries, quotients |
| ExpiringMap.dfy | keys with a time to live; the in-memory cache and its lock |
| RateLimit.dfy | the fixed-window limiter |
| RateRaces.dfy | the same with its Redis calls as separate steps |
| RefreshRotation.dfy, RefreshRotationProofs.dfy | refresh-token rotation as a state machine, one step per await, and its safety |
| RefreshRotationExact.dfy | when exactly a run of it is safe, whatever its timing |
| RefreshRotationOnce.dfy | how many pairs one token is ever good for |
| RefreshRotationRuns.dfy | runs: what is granted, replayed and refused, and why the timing matters |
| RefreshEndpoint.dfy | the endpoint in sequence with its waiting loop, refining that state machine |
| Revocation.dfy | token versions: when revocation is final, and how long a pair is accepted |
| ProviderFailover.dfy, ProviderFailoverProofs.dfy | circuit breakers and recursive failover |
| LLMRouter.dfy | the breaker in front of the primary language model |
| ExecutionOrder.dfy, ExecutionOrderProofs.dfy | the dependency scheduler of decided actions |
| AgentDispatch.dfy | dispatch queue, pending futures, workers and timeouts |
| AgentOrchestration.dfy | dispatch and worker in sequence, refining that state machine |
| Bookings.dfy | organizer bookings under row locks, reschedules, updates and cancels |
| BookingTransaction.dfy | create_booking in sequence, refining that state machine |
| ResourceBookings.dfy | resource bookings and their three-clause overlap test |
| ResourceRaces.dfy | the same for concurrent requests |
| SecretManager.dfy | secret cache in front of a priority search |
| SecretReads.dfy | get_secret in sequence, refining that state machine |
| ThresholdMonitor.dfy | consecutive-violation alerts |
| DataImport.dfy | batched upsert import |
| Replicas.dfy | primary failover and weighted read balancing |
| FreeSlots.dfy | the free-slot loop of the calendar |
| Base64Url.dfy | Base64urlUInt |

`dafny verify dfyconfig.toml` checks everything.

Components that others interleave with (refresh, agent dispatch, bookings, secrets) are state machines `Next` over
events, with classes whose methods are single steps tied to `Next`; safety is an invariant carried over every list of
events. What the backend cannot know is a parameter: the clock, health checks, provider and agent outcomes, random
draws, whether a token decodes, whether a database takes a row.

## Findings

Where the code does not do what its names or comments suggest, the model follows the code and a lemma says exactly
what holds.

- A token gets at most one pair while its blacklist entry lives if each holder rotates within its 10 s lock and writes
  the blacklist entry within the 300 s of the replay entry (OnePairPerBlacklisting). A holder that stalls past either
  can break it (StallingHolderMintsASecondPair, LateBlacklistMintsASecondPair); a run is safe exactly when every
  rotation happens while its token is not blacklisted and no request is about to blacklist it
  (SafeExactlyWhenMintsAreFree). With the token's own expiry it is one pair ever, unless the token was blacklisted in
  the second it was signed (OnePairEver, TwoPairsOfOneToken).
- Refresh tokens are signed in whole seconds without a nonce. A refresh within the second of the token's own signing
  gives back the same token, and 300 s later the client is refused (SameSecondSignsTheSameToken,
  SameSecondRefreshStrandsTheClient). Two sign-ins of one user in one second share a refresh token, and refreshing it
  on one device strands the other (RefreshingOneDeviceStrandsTheOther).
- A revocation writes the version it read when its request was authenticated, plus an increment. Two that overlap can
  lower the version and revive a revoked session (LostUpdateRevivesASession). Revocations are final exactly when each
  writes a version above all those signed for its user (FinalExactlyWhenOutdating); a test under the row lock that
  ensures it is that the version written is above the one found (RisesExactly, RisingRevocationsAreFinal).
- A replayed pair may already be revoked, and a fresh pair may be revoked from the start, although the answer is 200
  (RevokedPairIsReplayed, FreshPairIsRefused). A pair is accepted exactly until the first revocation after its minter
  looked the user up (RefreshedPairLastsUntilRevoked).
- The limiter lets up to 2 * limit - 1 calls into one window length, and a limit of zero still admits one call per
  window (UnderTwiceTheQuotaIsReached, WindowAdmitsExactlyTheQuota). That is for calls one at a time: calls that
  interleave can all be admitted at once (AnyNumberIsAdmittedAtOnce), and an increment of an expired key leaves a
  counter without a deadline, which at its limit refuses for good (LateIncrementLocksTheKey, NeverAgain).
  WriteIsAtomicExactly says when a call is as good as alone.
- A failing provider that passes its health checks is failed over only by the failure that opens its circuit
  (FailsOverOnlyWhenTheCircuitOpens says exactly when; FirstFailureReachesTheCaller shows a caller that sees it).
- A cancelled booking still blocks create_booking on its time (CancelledBookingsStillBlockCreation,
  CancelledTimeIsRefused).
- A cancelled booking can come back: reschedule_booking and update_booking do not look at the old status
  (RevivedExactly). They make no conflict check either, and a public reschedule makes its own outside the row lock;
  NextKeepsExactly says exactly when such a step does no harm, RescheduleInsideWindowOverlaps shows a run where it does.
- The default cache-hit-rate thresholds alert on good rates and never on bad ones (CacheHitRateAlertsOnGoodRates).
- After a failover the lookup can still return the failed primary (FailoverReturnsTheFailedPrimary says exactly when,
  FailoverMayKeepTheFailedPrimary shows a run).
- A provider registered late can make cached secrets stale (LateRegistrationStalesTheCache;
  LateRegistrationStalesExactly says when). So can a secret set while a read is under way (SetDuringReadStalesTheCache;
  FinishKeepsExactly says when).
- book_resource takes no lock: two requests can both pass its query (BothRequestsPass; StepKeepsExactly says when an
  insert does harm).

## Model

| member | source | states |
|---|---|---|
| FallbackCache.Cache.Cleanup | backend/core/redis.py:30-34 | removes every entry whose deadline has passed and nothing else |
| FallbackCache.Cache.FallbackStore | backend/core/redis.py:36-39 | the key holds the value, with a deadline only when the expiry is positive; other keys are untouched |
| FallbackCache.Cache.FallbackRetrieve | backend/core/redis.py:41-44 | returns what an expiring map holds live under the key, and sweeps |
| FallbackCache.Cache.FallbackExists | backend/core/redis.py:49-51 | true exactly when the key is live |
| FallbackCache.Cache.CacheSet | backend/core/redis.py:78-85 | is the atomic write step on the dictionary |
| FallbackCache.Cache.CacheGet | backend/core/redis.py:104-116 | is the atomic read step: what lives under the key, an empty stored string reading as missing |
| FallbackCache.Cache.CacheExists | backend/core/redis.py:146-151 | is the atomic existence step |
| FallbackCache.Cache.CacheDelete | backend/core/redis.py:118-124 | is the atomic delete step |
| FallbackCache.Cache.CacheSetIfNotExists | backend/core/redis.py:87-102 | creates the entry and answers true exactly when the key is not live |
| FallbackCache.Cache.CacheDeleteIfValue | backend/core/redis.py:126-144 | deletes and answers true exactly when the live value is the expected one |
| FallbackCache.StepKeepsAgreement | backend/core/redis.py:30-51 | each call gives the reply a never-cleaned log of writes would give, and dictionary and log keep agreeing at all later times |
| FallbackCache.RefinesExpiringMap | backend/core/redis.py:30-51 | over every chronological run all replies are those of the log of writes: cleanup is never observable |
| FallbackCache.HeldThroughout | backend/core/redis.py:87-144 | while an entry is held no attempt by anyone else to take or give back the lock succeeds |
| FallbackCache.LockExcludes | backend/core/redis.py:87-144 | set-if-absent plus delete-if-value is a lock: exclusive until release or deadline, and free again exactly from the deadline on |
| RateLimit.Limiter.CheckRateLimit | backend/core/redis.py:165-175 | counts the call in its window, admits it or not, and leaves other keys alone |
| RateLimit.WindowAdmitsExactlyTheQuota | backend/core/redis.py:165-175 | of the calls in one window exactly the first max(limit, 1) are admitted |
| RateLimit.UnderTwiceTheQuota | backend/core/redis.py:165-175 | any half-open interval of one window length sees at most 2 * limit - 1 admissions |
| RateLimit.UnderTwiceTheQuotaIsReached | backend/core/redis.py:165-175 | for every limit and window a run that reaches that bound |
| RateRaces.Redis.Get | backend/core/redis.py:165-172 | one step: refuses exactly when the counter lives at the limit |
| RateRaces.Redis.SetEx | backend/core/redis.py:168 | one step: a counter of one with the window as its deadline |
| RateRaces.Redis.Incr | backend/core/redis.py:173 | one step: one more under the same deadline, or a counter without deadline when the key has expired |
| RateRaces.WriteIsAtomicExactly | backend/core/redis.py:165-175 | a write does what the whole call would do then exactly when setex finds the key missing, incr finds it living below the limit |
| RateRaces.InTurnKeepsTheBound | backend/core/redis.py:165-175 | calls whose writes are such keep the bound 2 * limit - 1 in every interleaving |
| RateRaces.AnyNumberIsAdmittedAtOnce | backend/core/redis.py:165-175 | for every limit and number a run that admits that many calls at one time |
| RateRaces.LateIncrementLocksTheKey | backend/core/redis.py:173 | a run that leaves a counter at its limit without a deadline |
| RateRaces.NeverAgain | backend/core/redis.py:170-172 | such a counter refuses every new call in all later states |
| RefreshRotationProofs.NextKeepsInv | backend/auth/routes.py:257-339 | every step of every request, account change and clock tick keeps the protocol invariant, while rotations happen under an unexpired lock and blacklist writes within 300 s |
| RefreshRotationProofs.InvHolds | backend/auth/routes.py:257-339 | the invariant holds over whole runs |
| RefreshRotationProofs.OneFreshHolder | backend/auth/routes.py:269-285 | two unexpired holds of one lock are the same hold |
| RefreshRotationProofs.NoReplayAllSealed | backend/auth/routes.py:286-290 | when no replay entry lives, every earlier pair of the token has its blacklist entry written |
| RefreshRotationProofs.CheckingKeepsInv | backend/auth/routes.py:292-305 | a fresh holder that finds no blacklist entry has every earlier pair's entry behind it |
| RefreshRotationProofs.RotatingKeepsInv | backend/auth/routes.py:314-319 | minting a pair and writing the replay entry keeps the invariant |
| RefreshRotationProofs.BlacklistingKeepsInv | backend/auth/routes.py:325-326 | writing the blacklist entry keeps the invariant, whether or not the lock still lives |
| RefreshRotationProofs.OnePairPerBlacklisting | backend/auth/routes.py:258-327 | in every interleaving a second pair is minted from a token only once the blacklist entry of the first has lapsed |
| RefreshRotationProofs.AnswersCarryThePair | backend/auth/routes.py:258-333 | every 200 answer between minting and lapse carries that pair |
| RefreshRotationProofs.LateRequestsGetNoPair | backend/auth/routes.py:258-305 | a request started 300 s or more after the rotation gets no pair before the lapse |
| RefreshRotationRuns.UndisturbedRefreshIsGranted | backend/auth/routes.py:238-339 | an undisturbed refresh of an accepted token mints one pair of the current version, answers it and frees the lock; the new token is undisturbed in turn exactly when its text differs from the old one and was undisturbed before |
| RefreshRotationRuns.RotationDisturbsOneToken | backend/auth/routes.py:319-326 | a rotation disturbs the refreshing of its own token and of no other text |
| Revocation.SameSecondSignsTheSameToken | backend/services/auth_service.py:49-55 | over every run in which revocations outdate, a refresh signs the same text again exactly within the second in which the token was signed |
| RefreshRotationRuns.RefreshingOneDeviceStrandsTheOther | backend/services/auth_service.py:49-55 | a run in which two sign-ins of one second share a refresh token and refreshing it on one device locks the other out |
| RefreshRotationRuns.SameSecondRefreshStrandsTheClient | backend/services/auth_service.py:49-55 | a run in which a client gets its own token back and is refused 300 s later |
| RefreshRotationRuns.UsedTokenIsRefused | backend/auth/routes.py:291-305 | a blacklisted token without replay entry is answered as used, and the lock is free again |
| RefreshRotationRuns.RefusedIsToldWhy | backend/auth/routes.py:306-314 | an undisturbed token that is undecodable, expired, of no user or outdated is answered exactly that in this order; nothing is issued, and the lock is free again |
| RefreshRotationRuns.RepeatedRefreshReplays | backend/auth/routes.py:258-262 | within 300 s of the rotation a repeated request is answered with the same pair, which is accepted exactly when the user exists at no newer version |
| RefreshRotationRuns.RevokedPairIsReplayed | backend/auth/routes.py:258-262 | a run in which a 200 answer carries a pair already revoked |
| RefreshRotationRuns.FreshPairIsRefused | backend/auth/routes.py:311-319 | a run in which a revocation between the look at the user and the rotation makes the new pair refused from the start |
| RefreshRotationRuns.StallingHolderMintsASecondPair | backend/auth/routes.py:269-326 | a run in which a holder that rotates after its lock expired mints a second pair |
| RefreshRotationRuns.LateBlacklistMintsASecondPair | backend/auth/routes.py:318-326 | a run in which a blacklist write later than 300 s lets a second pair be minted |
| RefreshRotationExact.MintKeepsApartExactly | backend/auth/routes.py:314-326 | a rotation keeps pairs apart exactly when the token is not blacklisted and no request is about to blacklist it |
| RefreshRotationExact.LookupTells | backend/auth/routes.py:292-326 | that look-up tells exactly whether the blacklist entries of all earlier pairs are written and lapsed |
| RefreshRotationExact.SafeExactlyWhenMintsAreFree | backend/auth/routes.py:258-327 | over every run, on time or not, second pairs come only after the lapse exactly when every rotation happens while its token is not blacklisted and no request is about to blacklist it |
| RefreshRotationOnce.OnePairEver | backend/auth/routes.py:291-327 | with the token's own expiry, a second pair is possible at all only if the token was blacklisted in the very second it was signed |
| RefreshRotationOnce.NeverThreePairs | backend/auth/routes.py:291-327 | no token is ever good for three pairs |
| RefreshRotationRuns.TwoPairsOfOneToken | backend/auth/routes.py:291-327 | a run in which a token blacklisted in its first second is good for a second pair seven days later |
| RefreshEndpoint.Backend.ReadRotation | backend/auth/routes.py:258-262 | one cache read is one protocol step; it answers the pair exactly when the entry lives, and else goes where the code goes |
| RefreshEndpoint.Backend.TakeLock | backend/auth/routes.py:269 | one protocol step; the lock is acquired exactly when it is free, else the request waits |
| RefreshEndpoint.Backend.ReadBlacklist | backend/auth/routes.py:291-299 | one protocol step; replay exactly when the entry lives, else on to the user |
| RefreshEndpoint.Backend.LoadUser | backend/auth/routes.py:306-314 | one protocol step; refuses undecodable and expired tokens as such, then unknown users, then outdated tokens as revoked, and nothing else |
| RefreshEndpoint.Backend.SignPair | backend/auth/routes.py:315-317 | one protocol step; the new tokens are signed for the version that was read |
| RefreshEndpoint.Backend.Rotate | backend/auth/routes.py:318-319 | one protocol step; exactly one new pair is issued |
| RefreshEndpoint.Backend.BlacklistToken | backend/auth/routes.py:326-333 | one protocol step; answers the minted pair |
| RefreshEndpoint.Backend.ReleaseLock | backend/auth/routes.py:334-337 | one protocol step; the recorded answer is returned |
| RefreshEndpoint.Backend.WaitForRotation | backend/auth/routes.py:276-284 | at most eight looks; it ends with a replayed pair, or busy no earlier than the eighth interval |
| RefreshEndpoint.Backend.RefreshLocked | backend/auth/routes.py:285-333 | what the lock holder does is a run of the protocol that ends with an answer to release, never busy |
| RefreshEndpoint.Backend.MintPair | backend/auth/routes.py:315-333 | signing and the two writes of a rotation, with others at work in between, end with the new pair as the answer to release |
| RefreshEndpoint.Backend.RefreshAsHolder | backend/auth/routes.py:285-339 | try and finally of the lock holder are a run of the protocol that ends answered, never busy |
| RefreshEndpoint.Backend.Refresh | backend/auth/routes.py:238-339 | whatever others do at its awaits, the endpoint as written is a run of the protocol and its reply is the recorded answer |
| Revocation.FinalExactlyWhenOutdating | backend/api/auth.py:31-37 | over every run, tokens issued before a revocation stay refused exactly when every revocation writes a version above all those signed for its user so far |
| Revocation.RevocationIsFinal | backend/auth/schemes.py:44-46 | then no earlier token, and no pair obtained from one by refreshing or replaying, is ever accepted again |
| Revocation.RisesExactly | backend/api/auth.py:31-37 | a revocation ends every session, one signed in at the last moment included, exactly when the version it writes is above the one it finds |
| Revocation.RisingRevocationsAreFinal | backend/api/auth.py:31-37 | over every run, revocations that pass that test are final |
| Revocation.LostUpdateRevivesASession | backend/api/auth.py:67 | a run in which an overlapping revocation lowers the version and a revoked token is accepted again |
| Revocation.SignInLastsUntilRevoked | backend/auth/schemes.py:44-46 | while revocations outdate, a signed-in token is accepted in a later state exactly when no revocation or removal of its user lies in between |
| Revocation.RefreshedPairLastsUntilRevoked | backend/auth/routes.py:306-316 | while revocations outdate, a refreshed pair is accepted in a later state exactly when no revocation or removal of its user came after its minter looked the user up |
| Revocation.MintsWhatItRead | backend/auth/routes.py:311-316 | whatever a request mints bears the version it read, through every interleaving |
| Revocation.VersionMoves | backend/api/auth.py:31-37 | the version changes exactly when a revocation of the user commits, to the version it read plus the increment |
| Revocation.DescendantsAreNoNewer | backend/auth/routes.py:311-316 | a pair refreshed any number of times belongs to the same user and bears no newer version |
| Revocation.NextKeepsLineage | backend/auth/routes.py:309-319 | minting copies the version it read, in every interleaving |
| ProviderFailover.ProviderManager.RegisterProvider | backend/architecture/vendor_agnostic.py:181-193 | inserts by priority behind equals, resets circuit and metrics, and sets the primary when flagged or first |
| ProviderFailover.ProviderManager.GetBestProvider | backend/architecture/vendor_agnostic.py:195-207 | returns the first available provider in priority order, whose health check has then succeeded |
| ProviderFailover.ProviderManager.FirstAvailable | backend/architecture/vendor_agnostic.py:204-207 | the loop probes providers in order and stops at the first available one |
| ProviderFailover.ProviderManager.GetPrimary | backend/architecture/vendor_agnostic.py:199-203 | a forced primary is returned only when available |
| ProviderFailover.ProviderManager.IsProviderAvailable | backend/architecture/vendor_agnostic.py:209-230 | opens to half-open after the timeout, records failed health checks, closes on a healthy half-open check; available only after a health check that succeeded |
| ProviderFailover.HealthDecides | backend/architecture/vendor_agnostic.py:209-230 | for every oracle: available exactly when not resting and healthy at that check; an unhealthy or raising check counts one failure in circuit and metrics and opens at the threshold |
| ProviderFailover.ChosenExactly | backend/architecture/vendor_agnostic.py:195-222 | whoever get_provider returns was healthy when asked, and everybody asked before was resting or failed its check, each state following from the one before; nobody is returned only when all were |
| ProviderFailover.OutcomesAreAccounted | backend/architecture/vendor_agnostic.py:242-264 | a value returned was answered by a provider to a call after a health check it passed, through every failover; so was a reported failure thrown |
| ProviderFailover.ProviderManager.CallProvider | backend/architecture/vendor_agnostic.py:250-258 | one call is made; request and success or failure are counted, a failure in the circuit too |
| ProviderFailover.ProviderManager.RecordProviderFailure | backend/architecture/vendor_agnostic.py:232-240 | counts the failure and opens the circuit at the threshold |
| ProviderFailover.ProviderManager.CallBestProvider | backend/architecture/vendor_agnostic.py:242-258 | request, call and its success or failure record |
| ProviderFailover.ProviderManager.Attempt | backend/architecture/vendor_agnostic.py:242-264 | the recursion does what its specification does, failovers counted |
| ProviderFailover.ProviderManager.ExecuteWithProvider | backend/architecture/vendor_agnostic.py:242-264 | the whole call does what its specification does and keeps the registry consistent; its outcome is what a healthy provider answered |
| ProviderFailover.InsertionKeepsPriorityOrder | backend/architecture/vendor_agnostic.py:186-187 | registration keeps the list sorted by priority |
| ProviderFailover.AvailabilityKeepsValid | backend/architecture/vendor_agnostic.py:209-230 | a closed circuit always has fewer failures than its threshold, any other at least as many; an available provider's circuit is closed |
| ProviderFailover.ExecutionKeepsValid | backend/architecture/vendor_agnostic.py:242-264 | the same circuit invariant over a whole call with its failovers |
| ProviderFailoverProofs.FailoversArePaidFor | backend/architecture/vendor_agnostic.py:242-264 | failovers plus the room left are bounded by the room at the start plus what re-closed circuits refill |
| ProviderFailoverProofs.CalmFailoverTerminates | backend/architecture/vendor_agnostic.py:242-264 | while no open circuit reaches its timeout, failovers are bounded by the room at the start and more fuel changes nothing: the recursion ends |
| ProviderFailoverProofs.FailureSpendsRoom | backend/architecture/vendor_agnostic.py:232-240 | each failed call strictly lowers the total room |
| ProviderFailoverProofs.FailsOverOnlyWhenTheCircuitOpens | backend/architecture/vendor_agnostic.py:258-264 | for a healthy-looking first provider whose call throws: failed over exactly when this failure opens the circuit, the timeout does not pass at once and a later provider is available; otherwise the caller sees the failure |
| ProviderFailoverProofs.FirstFailureReachesTheCaller | backend/architecture/vendor_agnostic.py:258-264 | two providers registered, the first throwing: the caller gets the failure although the second is available |
| ProviderFailoverProofs.FreshFailureIsNotFailedOver | backend/architecture/vendor_agnostic.py:258-264 | from fresh circuits that call makes no failover and leaves the second circuit closed |
| LLMRouter.Router.Complete | backend/ai/providers.py:156-183 | asks the primary exactly when the circuit is closed or has rested longer than the recovery timeout; a success closes it and resets the count, a failure counts; falls back |
| LLMRouter.OpenIffThresholdReached | backend/ai/providers.py:159-183 | over every run the circuit is open exactly when the failure count has reached the threshold |
| LLMRouter.CallsWithinAllowance | backend/ai/providers.py:156-183 | from any regular breaker state the calls to a dead primary in a window stay within an explicit allowance |
| LLMRouter.DeadPrimaryIsSpared | backend/ai/providers.py:156-183 | a primary that always fails is called at most threshold * (floor(W / recovery) + 1) times in any window of length W |
| ExecutionOrder.DetermineExecutionOrder | backend/ai/decision_engine.py:312-348 | the nested loops end and return the ids of the specified schedule; up to the fallback every dependency runs first, and every action left to it has one that is unknown or not among those |
| ExecutionOrder.ReadyExactly | backend/ai/decision_engine.py:322-333 | an action is ready exactly when, for each dependency, the action of that id has run, or, if no action has that id, all actions with that tool, of which there is one |
| ExecutionOrder.DependenciesRunFirst | backend/ai/decision_engine.py:322-347 | in every schedule each action before the fallback comes after all its dependencies, and every other action has one that is unknown or not placed |
| ExecutionOrder.OnePass | backend/ai/decision_engine.py:334-342 | one pass places each candidate as soon as it is ready and reports whether it placed any |
| ExecutionOrder.AppendBlocked | backend/ai/decision_engine.py:343-347 | what is blocked goes last in candidate order |
| ExecutionOrder.ActionIdInjective | backend/ai/decision_engine.py:315-320 | different actions have different ids |
| ExecutionOrder.FindIdIsExact | backend/ai/decision_engine.py:326-331 | a dependency name resolves to an id exactly when it is that id |
| ExecutionOrder.WithToolIsExact | backend/ai/decision_engine.py:326-331 | otherwise it resolves to all actions with that tool |
| ExecutionOrder.SortedIds | backend/ai/decision_engine.py:319-321 | the candidates are all actions, each once, sorted by priority, then immediate ones first, then position |
| ExecutionOrderProofs.PlacedIsLeastClosed | backend/ai/decision_engine.py:332-342 | the part before the fallback is the least set closed under readiness, each action after all it depends on |
| ExecutionOrderProofs.NothingBlockedIffOrderable | backend/ai/decision_engine.py:332-347 | the fallback is empty exactly when some order of all actions respects every dependency |
| ExecutionOrderProofs.ScheduleIsPermutation | backend/ai/decision_engine.py:332-348 | the schedule is a permutation of the actions; the blocked tail is sorted by priority |
| ExecutionOrderProofs.OrderIsPermutationOfIds | backend/ai/decision_engine.py:312-348 | the returned list has each id exactly once |
| ExecutionOrderProofs.DependencyFreeKeepCandidateOrder | backend/ai/decision_engine.py:332-342 | two actions without dependencies run in candidate order |
| ExecutionOrderProofs.ReadyCandidatesAreTheSchedule | backend/ai/decision_engine.py:332-348 | if the priority sort already respects dependencies, it is the schedule |
| ExecutionOrderProofs.DecideActions | backend/ai/decision_engine.py:286-310 | the decided actions, as a function of the analysis |
| ExecutionOrderProofs.ApplyRules | backend/ai/decision_engine.py:304-308 | the rules that apply are appended in order |
| ExecutionOrderProofs.CandidatesFollowUrgency | backend/ai/decision_engine.py:319-320 | candidates go critical, high, medium, low, immediate ones first within a priority, then by position |
| ExecutionOrderProofs.PlanContents | backend/ai/decision_engine.py:293-310 | one invitation for each attendee, right after the event; VIP, risk and rule actions exactly when the analysis calls for them; the pattern analysis last |
| ExecutionOrderProofs.PlanIsDecided | backend/ai/decision_engine.py:286-310 | every decided list starts with the event and depends on nothing else |
| ExecutionOrderProofs.DecidedActionsFollowPriority | backend/ai/decision_engine.py:312-348 | for such a list the schedule is exactly the priority sort, the event first |
| ExecutionOrderProofs.PlansFollowPriority | backend/ai/decision_engine.py:286-348 | whatever the analysis, the decided actions run in priority order, the event first |
| Bookings.Database.LockOrganizerRow | backend/api/bookings.py:335 | takes the organizer's row lock |
| Bookings.Database.QueryConflict | backend/api/bookings.py:336-339 | refuses exactly when some row of this organizer starts before the new end and ends after the new start, and then ends the transaction |
| Bookings.Database.InsertAndCommit | backend/api/bookings.py:351-364 | inserts unless the unique index forbids it, and releases the lock |
| Bookings.Database.CancelBooking | backend/api/bookings.py:439-449 | cancels the organizer's own booking, else changes nothing |
| Bookings.Database.RescheduleBooking | backend/api/bookings.py:451-477 | moves the organizer's own booking without a conflict check, unless the unique index refuses |
| Bookings.Database.UpdateBooking | backend/api/bookings.py:423-437 | stores any status on the organizer's own booking |
| Bookings.Database.ReschedulePublicBooking | backend/api/public.py:402-454 | replies as each branch of the endpoint and moves the booking only when no test refuses |
| Bookings.Database.CancelPublicBooking | backend/api/public.py:483-512 | with a valid token cancels once; a second time changes nothing |
| BookingTransaction.Server.CreateBooking | backend/api/bookings.py:335-364 | lock, query, insert and commit in sequence, others at work at each await, are a run of the state machine; the booking stands exactly when the reply says so; undisturbed it is refused exactly when a booking of this organizer overlaps |
| Bookings.NextKeepsExactly | backend/api/bookings.py:335-364 | a step keeps disjointness, lock ownership and standing checks exactly when it gives no active booking a time that is taken or checked |
| Bookings.ReplacingKeepsExactly | backend/api/public.py:437-448 | one booking may take a time exactly when no other active booking has it and no transaction has checked it |
| Bookings.ActiveBookingsNeverOverlap | backend/api/bookings.py:335-364 | however transactions interleave, two active bookings of one organizer never overlap, as long as steps outside the row lock are harmless in that sense |
| Bookings.RevivedExactly | backend/api/bookings.py:451-477 | a cancelled booking comes back exactly when its organizer reschedules it to free times of the unique index or gives it another status; no other step changes it |
| Bookings.CancelledUntilRevived | backend/api/public.py:407-408 | through every run without such a step a cancelled booking stays as it is |
| Bookings.CancelledBookingsStillBlockCreation | backend/api/bookings.py:336-339 | cancelling any booking does not change whether creation is refused; an overlapping one of the organizer refuses it still |
| Bookings.CreationRefusedExactly | backend/api/bookings.py:336-339 | creation is refused exactly when a row of the organizer, whatever its status, overlaps the new times |
| Bookings.OtherRowsNeverDecide | backend/api/bookings.py:336-339 | tables that agree on the ids and times of the rows of one organizer give its creation the same answer |
| Bookings.OrganizersDoNotCompete | backend/api/bookings.py:335-364 | for any two organizers and any time a run of two overlapping transactions after which both bookings stand |
| Bookings.CancelledTimeIsRefused | backend/api/bookings.py:336-339 | a run in which a booking is made and cancelled and its time is then refused, with no active booking left |
| Bookings.CancellingFreesTheSlotForReschedule | backend/api/public.py:402-448 | a reschedule succeeds exactly when the booking is there and not cancelled, token, organizer, zone, slot list and events agree, the time is to come, no other active booking overlaps and none has the same times |
| Bookings.RescheduleInsideWindowOverlaps | backend/api/public.py:437-448 | a run in which a reschedule between another transaction's check and commit makes two active bookings overlap |
| AgentDispatch.AgentController.StartDispatch | backend/ai/orchestrator.py:111-133 | one step of the protocol: registers the future and the dispatch |
| AgentDispatch.AgentController.PutRequest | backend/ai/orchestrator.py:134 | one step of the protocol: queues the request |
| AgentDispatch.AgentController.FireTimer | backend/ai/orchestrator.py:136-140 | one step of the protocol: a timeout cancels an unset future |
| AgentDispatch.AgentController.ResumeDispatch | backend/ai/orchestrator.py:136-142 | one step of the protocol: returns the response or the timeout answer and clears the table entry |
| AgentDispatch.AgentController.TakeRequest | backend/ai/orchestrator.py:144-149 | one step of the protocol: the loop takes the oldest request and starts a worker |
| AgentDispatch.AgentController.BeginProcessing | backend/ai/orchestrator.py:155-166 | one step of the protocol: a worker runs its agent if that is registered and ready, else answers which failed |
| AgentDispatch.AgentController.EndProcessing | backend/ai/orchestrator.py:167-176 | one step of the protocol: a worker ends with the agent's answer |
| AgentDispatch.AgentController.SetResult | backend/ai/orchestrator.py:174-176 | one step of the protocol: sets the future only if it is still in the table and not done |
| AgentDispatch.NextKeepsInv | backend/ai/orchestrator.py:111-176 | every step of dispatches, workers and timers keeps the invariant |
| AgentDispatch.OnlyReadyAgentsRun | backend/ai/orchestrator.py:155-176 | a request reaches its agent exactly when that is registered and ready; otherwise its waiting dispatch is told which of the two failed, and nothing else changes |
| AgentDispatch.AnswersAreFutures | backend/ai/orchestrator.py:136-142 | a dispatch returns the response set, or that it timed out when its future was cancelled or its timer won |
| AgentDispatch.OlderRequestsStartFirst | backend/ai/orchestrator.py:144-149 | over every run no request overtakes one queued before it |
| AgentOrchestration.EventLoop.Dispatch | backend/ai/orchestrator.py:111-142 | dispatch in sequence, others at work at each await, is a run of the protocol; its answer is what its future was set to, or timed out, or at once that no agent is registered; its table entry is gone |
| AgentOrchestration.EventLoop.ProcessRequest | backend/ai/orchestrator.py:155-176 | the worker in sequence ends, and a dispatch that still waits for it has its future done: with the answer of an agent that is registered and ready, else with which of the two failed |
| AgentOrchestration.EventLoop.TakeTurn | backend/ai/orchestrator.py:146-149 | one turn of the loop takes a request exactly when there is one |
| AgentDispatch.DispatchIsSafe | backend/ai/orchestrator.py:131-142 | in every interleaving the table holds exactly the dispatches not yet returned, and each returned response bears its own id |
| AgentDispatch.NoRequestIsLost | backend/ai/orchestrator.py:134-149 | while a future is unset its request is queued or being worked on |
| AgentDispatch.FuturesAreFinal | backend/ai/orchestrator.py:174-176 | a future is completed at most once |
| AgentDispatch.LateResponsesChangeNothing | backend/ai/orchestrator.py:174-176 | a worker that ends after its dispatch was answered changes nothing |
| AgentDispatch.TimelyResponsesAreDelivered | backend/ai/orchestrator.py:136-176 | one that ends in time sets exactly its dispatch's future, which then returns that response |
| ResourceBookings.Database.BookResource | backend/api/resource_routes.py:199-230 | names the first test that fails, and else stores the row with status and cost |
| ResourceBookings.Database.CancelResourceBooking | backend/api/resource_routes.py:240-251 | cancels the caller's own live booking, else changes nothing |
| ResourceBookings.ThreeClausesExactly | backend/api/resource_routes.py:206 | for a nonempty request the three clauses are half-open overlap or an empty or inverted stored interval inside it |
| ResourceBookings.ThreeClausesIsOverlap | backend/api/resource_routes.py:206 | on nonempty intervals the three clauses are half-open overlap, symmetric, and say that some instant is in both |
| ResourceBookings.NextKeepsInv | backend/api/resource_routes.py:199-251 | booking, cancelling and changing a resource keep live bookings disjoint and nonempty |
| ResourceBookings.LiveBookingsAreDisjoint | backend/api/resource_routes.py:206-229 | over every sequential run no instant belongs to two live bookings of one resource |
| ResourceBookings.GrantedIffFree | backend/api/resource_routes.py:206-221 | in every reachable state an acceptable request is granted exactly when it overlaps no live booking of the resource |
| ResourceBookings.CancellingFreesTheTime | backend/api/resource_routes.py:241-251 | a booked time is refused, and granted again once the booking is cancelled |
| ResourceRaces.StepKeepsExactly | backend/api/resource_routes.py:206-227 | with query and insert apart, a step keeps live bookings disjoint exactly when it inserts no row that a live booking has come to clash with |
| ResourceRaces.SafeInsertsStayDisjoint | backend/api/resource_routes.py:206-227 | over every run of concurrent requests with such inserts no instant belongs to two live bookings |
| ResourceRaces.BothRequestsPass | backend/api/resource_routes.py:206-227 | a run in which two requests are approved before either is inserted and both hold the room |
| SecretManager.Manager.RegisterProvider | backend/core/secret_manager.py:408-413 | registers and places the entry as a stable descending sort does |
| SecretManager.Manager.StartGet | backend/core/secret_manager.py:420-428 | answers from the cache, else begins a read of the providers by priority |
| SecretManager.Manager.AskProvider | backend/core/secret_manager.py:429-434 | asks the next provider |
| SecretManager.Manager.FinishGet | backend/core/secret_manager.py:434-443 | returns what was found and caches it |
| SecretReads.Client.GetSecret | backend/core/secret_manager.py:420-443 | in sequence, others at work at each await, a read is a run of the state machine; if nobody changes a provider meanwhile its answer is that of the cache or the search |
| SecretManager.Manager.SetSecret | backend/core/secret_manager.py:445-457 | stores in the given provider and drops the cached value, or changes nothing |
| SecretManager.Manager.DeleteSecret | backend/core/secret_manager.py:459-475 | deletes from the first provider that can, in registration order, and drops the cached value |
| SecretManager.Manager.RotateSecret | backend/core/secret_manager.py:490-506 | rotates in the first provider that can and drops the cached value |
| SecretManager.Manager.ClearSecrets | backend/core/secret_manager.py:557-559 | empties the cache only |
| SecretManager.InsertionIsStable | backend/core/secret_manager.py:411-412 | the priority list stays sorted and a new entry goes behind all of its priority |
| SecretManager.Search | backend/core/secret_manager.py:429-443 | nothing is found exactly when no listed provider has a value |
| SecretManager.FirstHolderDecides | backend/core/secret_manager.py:429-441 | the first provider with a value decides |
| SecretManager.CacheKeyInjective | backend/core/secret_manager.py:422 | different names never share a cache key |
| SecretManager.RegistrationKeepsExactly | backend/core/secret_manager.py:408-413 | a registration keeps a cached read current exactly when the provider has the same value, or none and its type did not matter, or another provider with a value ranks before it |
| SecretManager.LateRegistrationStalesExactly | backend/core/secret_manager.py:408-413 | a new type stales a cached read exactly when it has another value and no provider of its priority or above has any |
| SecretManager.AddKeepsCoherence | backend/core/secret_manager.py:408-413 | a registration keeps all cached values current exactly when it does so for each |
| SecretManager.FinishKeepsExactly | backend/core/secret_manager.py:434-437 | what a read caches is current exactly when the search still finds it |
| SecretManager.NextKeepsExactly | backend/core/secret_manager.py:408-506 | a step keeps every cached value current exactly when it is harmless: a registration as above, or the caching of what the search still finds |
| SecretManager.QuietReadsAreHarmless | backend/core/secret_manager.py:420-443 | a read during which no provider changes gives what the search finds, and caching that is harmless |
| SecretManager.SetDuringReadStalesTheCache | backend/core/secret_manager.py:434-457 | a run in which a secret set during a read leaves the old value cached |
| SecretManager.CachedReadsAreFresh | backend/core/secret_manager.py:420-443 | over every run of harmless steps, a cached read equals the uncached priority search |
| SecretManager.SetIsReadBack | backend/core/secret_manager.py:445-457 | after an accepted set a read gives the new value, unless a better-ranked provider answers, and then what it gave before |
| SecretManager.SettingEmptyUnsets | backend/core/secret_manager.py:328-342 | after setting an environment variable to the empty string a read gives what the other providers have |
| SecretManager.DeletedIsGone | backend/core/secret_manager.py:459-475 | an accepted deletion takes the secret from one provider and its cached value from the cache and touches nothing else; none is accepted exactly when no candidate can delete |
| SecretManager.RotatedIsStored | backend/core/secret_manager.py:490-506 | an accepted rotation leaves its value in one AWS provider that had the secret and touches nothing else |
| SecretManager.LateRegistrationStalesTheCache | backend/core/secret_manager.py:408-413 | a run after which registering one more provider makes a cached read stale |
| ThresholdMonitor.Monitor.CheckThresholds | backend/architecture/scalability_monitor.py:135-160 | counters and alert after one sample; with rising thresholds it violates exactly from the warning upwards, and an alert tells of this sample and the highest threshold it reaches |
| ThresholdMonitor.ViolationKeyInjective | backend/architecture/scalability_monitor.py:140 | two metrics or sources never share a counter key |
| ThresholdMonitor.StepIsLocal | backend/architecture/scalability_monitor.py:135-160 | a sample moves only its own counter and alerts only for itself |
| ThresholdMonitor.RunProjects | backend/architecture/scalability_monitor.py:135-160 | in any mix of samples one key behaves as if it were alone |
| ThresholdMonitor.CounterOverRuns | backend/architecture/scalability_monitor.py:153-159 | one counter raises floor(length / n) alerts for each maximal run of violations and keeps the last run modulo n |
| ThresholdMonitor.AlertsMatchRuns | backend/architecture/scalability_monitor.py:135-160 | for every sample sequence the alerts of a key are what its maximal runs owe, and its count is the remainder of the current run |
| ThresholdMonitor.SeverityIsTheHighestReached | backend/architecture/scalability_monitor.py:143-151 | with rising thresholds the severity is that of the highest one reached |
| ThresholdMonitor.CacheHitRateAlertsOnGoodRates | backend/architecture/scalability_monitor.py:133 | under the default thresholds a cache hit rate violates exactly from 0.3 upwards and always as an emergency |
| DataImport.Importer.ImportBatch | backend/architecture/data_portability.py:243-249 | applies the batch in order, and fails exactly when a record lacks a field or the database refuses it |
| DataImport.Importer.ImportData | backend/architecture/data_portability.py:196-210 | all or nothing for every batch size: accepted exactly when every record has every field and the database takes it; then each field is that of the last record of its id, else nothing changed |
| DataImport.ColumnsAreTheLastRecords | backend/architecture/data_portability.py:243-249 | a row that records name has the value of the last such record in every field and keeps its other columns; every other row stays |
| DataImport.LastWith | backend/architecture/data_portability.py:243-249 | the last record bearing an id |
| DataImport.UpsertsOverride | backend/architecture/data_portability.py:243-249 | upserting in order equals overriding by the last record of each id, other columns kept |
| DataImport.UpsertedConcat | backend/architecture/data_portability.py:201-205 | batches compose |
| DataImport.UpsertRow | backend/architecture/data_portability.py:247 | what one INSERT ... ON CONFLICT does to each row |
| Replicas.Manager.CreateReplicaPool | backend/core/database_replicas.py:96-112 | registers the pool as healthy, or only marks the name unhealthy |
| Replicas.Manager.RemoveReplica | backend/core/database_replicas.py:284-296 | forgets every trace of a pool |
| Replicas.Manager.GetPrimarySession | backend/core/database_replicas.py:114-130 | returns the first healthy primary in registration order, or none when there is none |
| Replicas.Manager.GetReadSession | backend/core/database_replicas.py:132-142 | selects by weight among the healthy readable pools in registration order, and goes to the primary when there is none |
| Replicas.PromotedIsUsable | backend/core/database_replicas.py:262-277 | the promoted pool is the first healthy one other than the failed; it is then a healthy primary open to reads and writes, and no other pool changes |
| Replicas.Manager.SelectWeightedReplica | backend/core/database_replicas.py:144-157 | picks the index whose accumulated weight first reaches the draw |
| Replicas.Manager.FailoverToReplica | backend/core/database_replicas.py:262-277 | promotes the first other healthy pool, and succeeds exactly when there is one |
| Replicas.NextKeepsInv | backend/core/database_replicas.py:96-112 | a healthy name always has a configuration and a session maker, through creation, removal, health checks and failover |
| Replicas.FailoverFindsAPrimary | backend/core/database_replicas.py:262-277 | after any run a failover succeeds if another pool is healthy, and then the lookup finds a healthy primary |
| Replicas.FailoverReturnsTheFailedPrimary | backend/core/database_replicas.py:262-277 | the lookup still returns the failed primary exactly when it did before and that one was registered before the promoted pool |
| Replicas.FailoverMayKeepTheFailedPrimary | backend/core/database_replicas.py:262-277 | a run of two pool creations after which a failover leaves writes with the failed primary |
| Replicas.FirstPrimaryIsPrimaryOf | backend/core/database_replicas.py:116-128 | the two-stage lookup is the first healthy primary |
| Replicas.ShareIsWeight | backend/core/database_replicas.py:151-157 | the draws selecting a pool are exactly the interval of its weight, and the trailing return is never reached |
| FreeSlots.GetFreeSlots | backend/api/calendar.py:173-223 | refuses durations outside 1 to 480, else returns exactly the slots that fit, each available exactly when it overlaps no busy interval |
| FreeSlots.SlotCountIs | backend/api/calendar.py:210-214 | the number of slots is the floor of the work minutes over the duration |
| FreeSlots.SlotsFillTheWorkHours | backend/api/calendar.py:210-214 | slot k exists exactly when it ends within work hours |
| FreeSlots.SlotsAreDisjoint | backend/api/calendar.py:210-212 | slots are consecutive and share no instant |
| FreeSlots.BusyExactly | backend/api/calendar.py:218-219 | a busy interval takes a slot exactly when they share an instant, or it is empty or inverted strictly inside |
| Base64Url.MinimalOctets | backend/auth/routes.py:529 | the octet length is the least that does not overflow; the octets give the number back and do not start with zero |
| Base64Url.UIntRoundTrip | backend/auth/routes.py:527-530 | for every natural number reading the text gives it back; no padding, no foreign character, minimal octets (section 2 of RFC 7518) |
| Base64Url.ZeroIsOneOctet | backend/auth/routes.py:529 | zero is one zero octet |
| Base64Url.MinimalTextsAreEncodings | backend/auth/routes.py:527-530 | the minimal texts are exactly the encodings of the numbers they read as |
| Base64Url.StripEncode | backend/auth/routes.py:530 | stripping leaves exactly the unpadded text |
| Base64Url.DecodeUnpadded | backend/auth/routes.py:530 | decoding undoes base64url for every octet string (section 5 of RFC 4648) |
| Base64Url.UnpaddedDecode | backend/auth/routes.py:530 | encoding undoes decoding for every canonical text |

## Left out

- Refresh: the missing-token answer, the branches that continue without a cache outside production, and cookies; the cache answers every call.
- Refresh: there is one signing key and one token lifetime, so a token's text is its user, version and second; key rotation only makes more texts differ.
- Refresh: lock owners are request numbers, so the source's process id and object id are taken as distinct; the token lifetime is 1 to 30 days.
- Refresh: access and refresh token of one rotation are one pair; the blacklist of single access tokens on logout is not modelled.
- Revocation: signing in reads the version and signs in one step; a revocation's read is that of its authentication, which its later select is taken not to refresh.
- FallbackCache: values are strings; JSON encoding, and the Redis server with its own expiry, are not modelled.
- RateLimit.Limiter.CheckRateLimit: is one atomic step; RateRaces has its steps apart, with their exact difference.
- ProviderFailover.ProviderManager.Attempt: has the fuel parameter of ExecuteWithProvider.
- ProviderFailover.ProviderManager.ExecuteWithProvider: has a fuel parameter, because the source's recursion has no bound of its own; CalmFailoverTerminates shows when fuel never runs out, and FailoversArePaidFor bounds it otherwise.
- ProviderFailoverProofs.FailsOverOnlyWhenTheCircuitOpens: is about a first provider that passes its health checks; the bound for all is FailoversArePaidFor.
- Provider failover runs one call at a time: calls that interleave at awaits, latency averages and manual switching are not modelled.
- LLMRouter.DeadPrimaryIsSpared: is about sequential calls; concurrent calls can each pass the breaker before the first failure.
- Decision engine: the analysis and the rule tables are parameters, and action bodies, parameters and explanations are dropped.
- AgentDispatch: dispatch while the controller is stopped, worker errors outside the agent's own result, and logging.
- Bookings: create_public_booking, input checks, team routing, the slot claim in the cache, the idempotency path, and how slot lists, calendar events and action tokens come about are not part of this model; other fields update_booking sets do not matter to it.
- BookingTransaction.Server.CreateBooking: bounds its wait for the row lock by a number of turns, where the database bounds it by time if at all.
- Bookings: commits are atomic and see the committed table; serialization failures appear only as aborted transactions.
- ResourceBookings.LiveBookingsAreDisjoint: is about sequential requests, because book_resource takes no lock; ResourceRaces is about concurrent ones.
- ResourceBookings.Database.BookResource: titles, descriptions and booking links are dropped; costs are reals without rounding.
- SecretManager: an update of a provider and the dropping of the cached value are one step, though the manager awaits the provider in between.
- SecretManager: provider outages during a read, explicit providers and versions on get, the Redis tier, encryption and the audit log; environment names are exact, not upper-cased.
- ThresholdMonitor: values are reals; alert texts and recommendations are dropped.
- DataImport: column types, export, validation and rollback_import, which deletes rows without restoring them; a schema without an id or with nothing but an id is taken as refused.
- Replicas: weights and draws are reals, so the probability of a pool is the length of its interval; pools, metrics and the health-check loop are reduced to their effect on health.
- FreeSlots: time zones and daylight saving; the event query is replaced by the list of busy intervals.
- Base64Url: key loading and the rest of the key set document.
- HTTP, database and cache transport, mail, billing, configuration and calls to language models.
