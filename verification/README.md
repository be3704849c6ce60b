# Hub-router: a verified model

hub-router is an in-memory broker. Online clients submit requests and poll for their results by
long-polling; local workers pull requests from keyed queues and push results back. This project models its
stateful core in Dafny and proves what the core promises over every interleaving and every history.

`dafny verify dfyconfig.toml` checks the whole project.

## What is modelled, and how

| files | source | form |
|---|---|---|
| StoreSpec, MemoryStore | internal/store/memory.go | every lock region as a function of the store, and a class whose methods (one for each lock region, plus the whole `Put`, and the whole `Get` with the Put that may come while it blocks) are proved to have those effects |
| Protocol, ProtocolInvariants, ProtocolTheorems, ProtocolMarks, ProtocolHistory, ProtocolProgress | internal/store/memory.go | a state machine: each lock region, channel send and select arm is one atomic step of an unbounded number of Gets, Puts, sweeps and registrations; it applies the same functions the class is proved against |
| Hub, HubInvariants, HubTheorems, HubProjection, HubRaces, HubPolls, HubProgress, HubSequential, EndToEnd | internal/handler, pkg/client/online.go | the protocol composed with the handlers in their order of queue and store calls, with workers, and with `WaitResult` loops |
| TokenBucket, RateLimits, RateLimiter | internal/middleware/ratelimit.go | the bucket over real time, the limiter over all IPs with eviction, and the class |
| LockoutSpec, LockoutTheorems, LockoutEviction, AuthLockout | internal/middleware/lockout.go | the record and `Wrap`, histories of attempts, the tracker over all IPs with eviction, and the class |
| QueueSpec, MemoryQueue, KeyedQueue | internal/queue | what a Dequeue removes while the clock moves on, and the two classes |
| KeyedMachine, KeyedTheorems, KeyedFate, KeyedCounters, KeyedSequential, KeyedProgress | internal/queue | a state machine of interleaved Enqueues and Dequeues: each lock region, channel operation, clock reading and counter update is one step |
| Handlers | internal/handler | the handlers as methods over the queue and store classes; HubSequential shows that the machine's steps add up to them |
| WorkerLoop, WorkerExit | pkg/client/local.go | `Run` as a state machine with one goroutine for each dispatched request |

A theorem about a machine holds in every state of every run from the initial state: any number of
operations, any ids, any order of steps. Clock readings are parameters that do not go back.

## Where the code and its description differ

The model follows the code.

- `Put` accepts every id and never reports an unknown one (internal/store/memory.go:56-76), so the 404 that
  docs/api-reference.md:272 describes for pushing a result cannot happen.
- docs/architecture.md:123 says that `Put` signals all waiters of an id. The store holds one channel for an id: a later
  `Get` overwrites an earlier one's (internal/store/memory.go:100), and the deferred cleanup of a Get deletes
  by id, whatever channel is there (internal/store/memory.go:103-107). `OverwrittenWaiterSleeps` and
  `UnregisteredWaiterSleeps` give runs in which a Get sleeps although its result has been stored;
  `WokenIffRegistered` says exactly when a Put wakes a sleeping Get. Over whole runs, `AwakeIffCaptured` says that a Get in
  its select is awake exactly when some Put found its channel registered, and `RegisteredIffUndisturbed` that its
  channel is still registered exactly when no other Get of the id has registered and none has cleaned up since.
  `LoneGetWokenByEveryPut` and `LoneGetNeverSleepsOnAResult` follow for an id with one Get at a time.
- A result received on the channel stays in the map, so one Put can be delivered twice (`DeliveredTwice`), and never
  three times (`DeliveryBound`).
- docs/api-reference.md:473 says that a poll of an id that is unknown, expired or already delivered is answered 404, and
  docs/configuration.md:53 that the next poll is, once the request's TTL has passed. The exact condition is
  another (`MissingIffHandedOut`): a poll of an id whose handler has registered it ends in 404 if and only if, before its first
  lock region, a result has been put since the registration and the last such result has been taken from the map,
  by a Get that returned it or by the sweeper. (For any id whatever, `FirstRegionDecides` gives the condition of
  each answer from the id's history.) From a delivered result on, `AfterDelivery` says which of 404 and 204 a later poll is
  told: 404 exactly when the id is not pending. So the two claims fail whenever there has been no such result, or the last one is still in the map:
  - A result delivered by the channel is still in the map, and the next poll is told 200 again, 404 only after that
    (`DeliveredAgainRun`, `ThenMissingRun`; exactly when, in `StoredIffHandedOutAgain`).
  - A result put before HandleSubmit registers the id leaves the mark behind: once it has been taken, every later poll
    is told 204 until the retries run out (`OvertakenRun`, `PollsTimeOutWhilePending`, `WaitExhaustsWhilePending`).
  - A request that is dropped because its TTL has passed leaves its id pending for good: no result for it is ever put, and no
    poll of it is ever answered 404 (`DroppedRun`, `DroppedNeverPut`, `DroppedNeverMissing`). The same holds of a request pulled and never answered.
- internal/handler/online.go:120-122 promises that HandleSync's own Get never meets an unknown id, since it registers
  first. It does, and answers 500 (`SyncErrorOccurs`), exactly when at its first lock region the sweeper has taken the
  result and none has been put since (`SyncMissesIffSwept`).
- An id of HandleSync can be unknown at its 202 (`AcceptedUnknown`), exactly when its result has been swept and
  no other has been put since (`UnknownWhenAcceptedIffSwept`).
- docs/configuration.md:75 calls the lockout window sliding and says older failures are not counted. The code
  compares only the gap to the previous failure (internal/middleware/lockout.go:67-74). `OldFailuresCount` is an input on which
  a failure older than the window is counted; `RecordRefinesHistory` says exactly what is counted.
- Bucket eviction can be observed when rps * cleanupAfter < burst (`EvictionSeen`); `EvictionUnobservableIff` gives
  the exact condition, for the answers of Allow and the hints of its denials. `RetryAfterSeconds` asked of an
  idle IP, which the middleware never does, can tell an evicted bucket from a kept one (`IdleHintForgets`), exactly when
  there is a rate (`IdleHintUnobservableIff`).
- With no worker configured `LocalClient.Run` blocks at its first dispatch and never returns (`NoWorkersNoProgress`).
- When burst is below one, no wait satisfies the limiter, whatever the Retry-After hint says (`RetryHintHopeless`), and
  without a rate the hint of a minute is never enough (`RetryHintWithoutRate`); internal/server/server.go:39 keeps the
  limiter off in that case.

The 429 hints are the delay-seconds of Retry-After in section 10.2.3 of RFC 9110.

## Model

| member | source | states |
|---|---|---|
| MemoryStores.WaiterChan.TrySend | internal/store/memory.go:69-74 | a send fills an empty channel and is dropped by a full one |
| MemoryStores.MemoryStore.RegisterPending | internal/store/memory.go:49-53 | the id becomes pending; nothing else changes |
| MemoryStores.MemoryStore.PutLocked | internal/store/memory.go:57-67 | the lock region stores the result with its expiry, unmarks the id, and returns the registered channel as it was before |
| MemoryStores.MemoryStore.Put | internal/store/memory.go:56-76 | run alone, the registered waiter holds a message afterwards (the earlier one if there was one) and no other channel changes |
| MemoryStores.MemoryStore.GetFirst | internal/store/memory.go:84-101 | a hit removes the entry, an unknown id changes nothing, otherwise a new empty channel replaces whatever was registered |
| MemoryStores.MemoryStore.GetRecheck | internal/store/memory.go:109-117 | the second look takes the entry if it has come |
| MemoryStores.MemoryStore.GetCleanup | internal/store/memory.go:103-107 | the registration of the id is deleted, whoever's it is |
| MemoryStores.MemoryStore.Get | internal/store/memory.go:82-126 | with nothing between its steps but the Put of its id that may come while it blocks: a stored result is taken, an unknown id changes nothing, a result put while it blocks is received and stays in the map, otherwise it ends by timeout; pending ids stay and no waiter is left |
| MemoryStores.MemoryStore.Delete | internal/store/memory.go:129-135 | result and pending mark of the id are gone, all else stays |
| MemoryStores.MemoryStore.ActiveWaiters | internal/store/memory.go:138-143 | the number of registered channels |
| MemoryStores.MemoryStore.SweepExpired | internal/store/memory.go:172-181 | the deleting loop removes exactly the expired results |
| ProtocolInvariants.InvAlways | internal/store/memory.go:49-181 | in every reachable state: waiters belong to live Gets of their id, entries and messages carry their id, outcomes are results that were put, a map copy is handed out at most once, a channel that was sent to stays full while its Get waits |
| ProtocolTheorems.ResultsNeverCrossIds | internal/store/memory.go:59-74 | a Get only ever returns a result pushed for its own id by a Put that stored it |
| ProtocolTheorems.ActiveWaitersBounded | internal/store/memory.go:98-107 | every registered waiter is owned by a Get of that id in flight on the slow path, so ActiveWaiters is at most their number and no waiter leaks |
| ProtocolTheorems.LeavesOnlyWhenRemoved | internal/store/memory.go:56-135 | a stored entry leaves the map in a step if and only if the step is a map take, a newer Put, a delete, or a sweep after its expiry |
| ProtocolTheorems.NoLostResult | internal/store/memory.go:56-135 | no lost result: what a Put wrote is still stored, or one later step of those four kinds removed it; for a take, the Get that took it returns exactly it; timeouts and receives never remove it |
| ProtocolTheorems.DeliveryBound | internal/store/memory.go:63-75 | a Put reaches at most two Gets: one by the map, one by the channel it captured |
| ProtocolTheorems.DeliveredTwice | internal/store/memory.go:109-122 | a run that reaches the bound of two |
| ProtocolTheorems.FirstMessageStays | internal/store/memory.go:69-74 | a send to a full channel is dropped: a message stays until its Get receives exactly that one |
| ProtocolTheorems.NoLostWakeup | internal/store/memory.go:56-126 | if a Put's lock region found g's channel registered, g is never asleep in its select later: its channel holds a message or a send to it is in flight |
| ProtocolTheorems.WokenIffRegistered | internal/store/memory.go:67-75 | a Put wakes a sleeping Get if and only if the registered channel is that Get's own |
| ProtocolTheorems.AwakeIffCaptured | internal/store/memory.go:56-126 | over whole runs, a Get in its select has a message or a send in flight if and only if an earlier Put found its channel registered |
| ProtocolTheorems.RegisteredIffUndisturbed | internal/store/memory.go:98-107 | a waiting Get's channel is the registered one if and only if, since its first lock region, no other Get of the id has registered and none has run its cleanup |
| ProtocolTheorems.LoneGetNeverSleepsOnAResult | internal/store/memory.go:100-125 | with one Get of the id at a time, a Get is never asleep while a result for its id is stored, whenever the Put came |
| ProtocolTheorems.LoneGetWokenByEveryPut | internal/store/memory.go:56-126 | with one Get of the id at a time, every Put of the id after the registration wakes it |
| ProtocolProgress.GetCanReturn | internal/store/memory.go:82-126 | from every reachable state every Get can return by at most four steps of its own |
| ProtocolProgress.AwakeGetCanReceive | internal/store/memory.go:69-125 | a Get in its select that is awake can receive its message in at most two steps |
| ProtocolProgress.PutCanReturn | internal/store/memory.go:56-76 | from every reachable state every Put can return by at most two steps of its own: it never blocks |
| ProtocolTheorems.OverwrittenWaiterSleeps | internal/store/memory.go:98-101 | a run in which a second Get overwrites the first one's channel and the first sleeps on a stored result |
| ProtocolTheorems.UnregisteredWaiterSleeps | internal/store/memory.go:103-107 | a run in which one Get's cleanup unregisters another's channel and the other sleeps on a stored result |
| ProtocolMarks.PendingForever | internal/store/memory.go:49-76 | without a Put or a delete of the id a pending mark never goes, and a result that is gone stays gone |
| ProtocolMarks.NeverNotFound | internal/store/memory.go:84-96 | while an id stays pending no Get of it is answered ErrNotFound |
| ProtocolMarks.PendingGetTimesOut | internal/store/memory.go:82-126 | a Get that begins while the id is pending and not stored can only time out until another Put |
| ProtocolMarks.UnknownGetMisses | internal/store/memory.go:82-96 | a Get that begins while the id is neither pending nor stored can only be answered ErrNotFound until it is registered or put |
| ProtocolMarks.WaitingNeverMisses | internal/store/memory.go:92-126 | a Get past its first lock region is never answered ErrNotFound |
| ProtocolHistory.PendingIff | internal/store/memory.go:49-64 | in every run an id is pending if and only if it was registered and has been neither put nor deleted since |
| ProtocolHistory.StoredIff | internal/store/memory.go:56-135 | in every run an id is stored if and only if it was put and has been neither put again nor deleted nor taken since |
| ProtocolHistory.StoredIsPut | internal/store/memory.go:56-135 | ... and what is stored is what that Put wrote |
| ProtocolHistory.FirstRegionDecides | internal/store/memory.go:82-101 | for any id in any run, the exact condition, from the id's history, of each outcome of a Get's first lock region: which result, ErrNotFound, or to wait |
| Hub.WaitResult | pkg/client/online.go:95-138 | all answers before the last poll were 204; it gives up if and only if the first MaxRetries+1 answers (none for a negative number) are 204, and then after exactly so many polls; otherwise the last answer, 200, 404 or a failure, is what it reports |
| HubInvariants.InvAlways | internal/handler/online.go:36-171 | in every reachable state: pending, queued and pulled ids have handlers, handlers before their enqueue are not queued, an unpublished id has no Get but its own HandleSync's, ids of HandleSync are never pending and stored at once, clients are as their answers say |
| HubTheorems.ForgottenOnlyWhenTaken | internal/store/memory.go:49-181 | an id stops being known only by a Get that returns its result from the map, a sweep of its expired result, or a delete |
| HubTheorems.SyncNeverPendingAndStored | internal/handler/online.go:120-134 | because HandleSync registers before it enqueues, its id is never pending and stored at once |
| HubTheorems.PendingAndStoredOnlyBySubmit | internal/handler/online.go:63-72 | an id becomes pending and stored at once if and only if HandleSubmit registers it after the worker's result was stored |
| HubTheorems.SubmitOvertakenByWorker | internal/handler/online.go:63-72 | a run in which that happens |
| HubPolls.OvertakenRun | internal/handler/online.go:63-72 | a run in which the overtaken id's result has been taken and the id is still pending |
| HubPolls.PollsTimeOutWhilePending | internal/handler/online.go:176-212 | from a state in which a published id is pending and not stored, until a Put, it stays so and every later Get is unanswered or has timed out: 204, never 404 |
| HubPolls.WaitExhaustsWhilePending | pkg/client/online.go:95-138 | a WaitResult that begins then is polling or has run out of retries |
| HubPolls.AfterDelivery | internal/handler/online.go:176-212 | once the result of a published id is gone and until another Put, a poll that begins later is answered 404 if and only if the id is not pending, and 204 otherwise |
| HubPolls.UnknownIffHandedOut | internal/store/memory.go:49-181 | a registered id is neither pending nor stored if and only if it has been put since its registration and the last such result has been taken from the map or swept |
| HubPolls.MissingIffHandedOut | internal/handler/online.go:176-212 | a poll of a registered id ends in 404 if and only if that holds at its first lock region |
| HubPolls.StoredIffHandedOutAgain | internal/store/memory.go:84-90 | a poll is answered 200 at once if and only if the last Put's result has not been taken from the map, delivered by a channel or not, and with that result |
| HubPolls.DeliveredAgainRun | internal/store/memory.go:84-122 | a run in which HandleSync answers 200 by the channel and the next poll is told 200 again |
| HubPolls.ThenMissingRun | internal/store/memory.go:84-96 | ... and the poll after that is answered 404 |
| HubPolls.DroppedRun | internal/queue/memory.go:45-48 | a run to an accepted id that is pending with its request dropped as expired |
| HubPolls.DroppedNeverPut | internal/queue/memory.go:45-48 | no result is ever put for an id whose request was dropped as expired |
| HubPolls.DroppedNeverMissing | internal/handler/online.go:176-212 | no poll of such an id is ever answered 404 |
| HubPolls.RegisteredOnce | internal/handler/online.go:72-123 | an id is registered at most once |
| HubTheorems.SyncErrorOnlyAfterSweep | internal/handler/online.go:147-151 | the Get of HandleSync reports an unknown id only if the stored result was swept before |
| HubRaces.SyncErrorOccurs | internal/handler/online.go:147-151 | a run to that 500: the result is put and swept before the Get's first lock region |
| HubRaces.SyncMissesIffSwept | internal/handler/online.go:120-151 | HandleSync's Get meets an unknown id if and only if, at its first lock region, the result has been swept and none put since |
| HubTheorems.KnownWhenAccepted | internal/handler/online.go:63-170 | at the moment of a 202 the id is known, or its result had been swept |
| HubRaces.UnknownWhenAcceptedIffSwept | internal/handler/online.go:63-170 | at its 202 an id of HandleSubmit is known; an id of HandleSync is unknown if and only if its result has been swept and no Put has stored one since |
| HubRaces.AcceptedUnknown | internal/handler/online.go:147-170 | a run to a 202 for an unknown id: timeout in the select, Put, sweep, answer |
| HubRaces.KnownFoundOrSwept | internal/handler/online.go:120-151 | until its answer a HandleSync's id is known, or its own Get has found the result, or it has been swept with no Put since |
| HubTheorems.KnownFrom | internal/handler/online.go:161-170 | a known accepted id stays known until a named step takes its stored result |
| HubTheorems.AcceptedIdPersists | internal/handler/online.go:63-170 | for both orders of register and enqueue: after the 202 the id stays pending or stored until a Get takes the result from the map or an expired result is swept |
| EndToEnd.ClientNeverMisses | pkg/client/online.go:95-138 | for an id polled by one WaitResult loop and not reached by the sweeper: until the loop has its result, the id stays obtainable and no poll is, or is about to be, answered 404 |
| EndToEnd.PutBeforePollIsDelivered | pkg/client/online.go:95-138 | if a Put of the id takes effect before the first lock region of one of the loop's polls, that poll brings the result or the loop has returned one |
| EndToEnd.WaitResultEndToEnd | pkg/client/online.go:95-138 | WaitResult never reports the id missing or a failure, polls at most MaxRetries+1 times, returns only the result of its last answer, which was put for its id, and gives up only after exactly MaxRetries+1 answers of 204 and if no Put came before the first lock region of any of its polls |
| EndToEnd.RetriesAsCalled | pkg/client/online.go:99 | a loop keeps the number of retries that it was started with |
| HubProgress.WaitCanEnd | pkg/client/online.go:95-138 | from every reachable state every WaitResult loop can make its polls and come to its end |
| HubProgress.HandlerCanAnswer | internal/handler/online.go:36-171 | from every reachable state every handler that was called can answer |
| TokenBucket.TokensAreLeastSlack | internal/middleware/ratelimit.go:62-70 | the refilled tokens are the least, over all windows ending at the call, of the window's budget less its admissions |
| TokenBucket.AllowIsSlidingWindow | internal/middleware/ratelimit.go:50-77 | a call is admitted if and only if in every window ending with it the admissions and itself stay within burst + rps * length |
| TokenBucket.BudgetIsLinear | internal/middleware/ratelimit.go:63-70 | the budget of a window is burst + rps * length |
| TokenBucket.SlidingWindowDetermines | internal/middleware/ratelimit.go:50-77 | the sliding-window rule determines every answer: the only answers that follow it are the bucket's |
| TokenBucket.AnswersFollowWindows | internal/middleware/ratelimit.go:50-77 | every answer of a whole history follows the rule |
| TokenBucket.AdmissionsBounded | internal/middleware/ratelimit.go:50-77 | the admissions in any stretch of calls are at most burst + rps * duration |
| TokenBucket.TokensInRange | internal/middleware/ratelimit.go:66-75 | the tokens stay between 0 and burst |
| RateLimits.EvictionTracks | internal/middleware/ratelimit.go:156-168 | with cleanup at any times, an IP's bucket is the never-evicted one, or gone when that one would be full |
| RateLimits.AllowIsSlidingWindowWithEviction | internal/middleware/ratelimit.go:50-77 | among other IPs' calls and cleanups at any times, an answer is the sliding window's over the IP's own calls |
| RateLimits.EvictionSeen | internal/middleware/ratelimit.go:156-168 | for every configuration outside the condition, a history in which eviction admits a call it should not |
| RateLimits.EvictionUnobservableIff | internal/middleware/ratelimit.go:50-115 | the answers of Allow and the hints of its denials are those of a limiter that never evicts if and only if burst <= 0 or rps * cleanupAfter >= burst |
| RateLimits.IdleHintForgets | internal/middleware/ratelimit.go:80-95 | with any rate and any burst, without a denial before it, RetryAfterSeconds of an idle IP is zero once its bucket is evicted, and positive while it is kept |
| RateLimits.IdleHintUnobservableIff | internal/middleware/ratelimit.go:80-95 | the idle hints agree on every history if and only if there is no rate |
| RateLimits.RetryHintTight | internal/middleware/ratelimit.go:80-95 | after a denial a wait of the hint succeeds and a wait shorter by more than a second fails |
| RateLimits.RetryHintExact | internal/middleware/ratelimit.go:91-94 | the hint is the least whole number of seconds that earns more than what is missing of a token |
| RateLimits.RetryHintZeroIff | internal/middleware/ratelimit.go:84-89 | the hint is zero if and only if the IP has no bucket or a whole token in it |
| RateLimits.RetryHintHopeless | internal/middleware/ratelimit.go:72-95 | with burst below one no call is ever admitted |
| RateLimits.RetryHintWithoutRate | internal/middleware/ratelimit.go:80-82 | without a rate the hint is a minute, and no wait is ever enough after a denial |
| RateLimiters.IPBucket.Take | internal/middleware/ratelimit.go:62-76 | refill, cap and take have the effect of one call on the bucket |
| RateLimiters.RateLimiter.Allow | internal/middleware/ratelimit.go:50-77 | only the IP's own bucket changes, and the answer is that of the bucket, full when new |
| RateLimiters.RateLimiter.RetryAfterSeconds | internal/middleware/ratelimit.go:80-95 | the hint for the IP's bucket; reads only |
| RateLimiters.RateLimiter.Cleanup | internal/middleware/ratelimit.go:156-168 | the deleting loop keeps exactly the buckets seen within cleanupAfter |
| RateLimiters.FreshBucketIsFull | internal/middleware/ratelimit.go:53-70 | a new bucket is full at its first call even if the clock has moved on since it was made |
| LockoutTheorems.RecordRefinesHistory | internal/middleware/lockout.go:60-121 | failures is the longest run of judged failures with gaps within the window since the last success or lock expiry; the lock is set exactly when it reaches the threshold, at the last failure |
| LockoutTheorems.LockHolds | internal/middleware/lockout.go:150-164 | every attempt during the lock is refused without judging its key and changes nothing |
| LockoutTheorems.LockEnds | internal/middleware/lockout.go:111-121 | the first attempt after the lock is judged, and counted from zero |
| LockoutTheorems.BruteForceSpan | internal/middleware/lockout.go:150-176 | threshold+1 successive judged failures with no success between span at least the shorter of window and lockout |
| LockoutTheorems.BruteForceBound | internal/middleware/lockout.go:150-176 | a success-free stretch shorter than n times that span judges at most n * threshold bad keys |
| LockoutTheorems.OldFailuresCount | internal/middleware/lockout.go:67-74 | an input that locks although the first of its three failures is older than the window |
| LockoutTheorems.UnlockHintTight | internal/middleware/lockout.go:100-141 | UnlockIn is zero if and only if not locked; waiting it suffices, waiting a second less does not; it is the least whole number of seconds that is more than what is left of the lock |
| LockoutEviction.EvictionTracks | internal/middleware/lockout.go:232-244 | with cleanup at any times, an IP's record is the never-deleted one, or gone when that one is idle; failures are only counted with a reset time |
| LockoutEviction.EvictionUnobservable | internal/middleware/lockout.go:232-244 | RecordFailure, IsLocked and UnlockIn answer as if nothing were ever deleted |
| LockoutEviction.WrapKeepsRecord | internal/middleware/lockout.go:150-176 | the tracker calls Wrap makes leave the record the one-IP theorems speak of |
| LockoutEviction.WrapRefusesAsJudged | internal/middleware/lockout.go:150-176 | among other IPs and cleanups, Wrap refuses exactly the attempts those theorems say |
| AuthLockouts.IPRecord.Fail | internal/middleware/lockout.go:65-85 | counts from one when the reset time has passed and on otherwise, sets the reset time, and locks, answering true, if and only if the threshold is reached and no lock is left |
| AuthLockouts.AuthLockout.GetOrCreate | internal/middleware/lockout.go:178-187 | the IP's one record, empty when new; other records stay |
| AuthLockouts.AuthLockout.RecordFailure | internal/middleware/lockout.go:60-86 | only the IP's own record changes, as a failure says |
| AuthLockouts.AuthLockout.RecordSuccess | internal/middleware/lockout.go:89-96 | the IP's record becomes empty, the others stay |
| AuthLockouts.AuthLockout.IsLocked | internal/middleware/lockout.go:100-121 | the answer, and the clearing of a lock that has run out |
| AuthLockouts.AuthLockout.UnlockIn | internal/middleware/lockout.go:124-141 | the hint for the IP's record; reads only |
| AuthLockouts.AuthLockout.Wrap | internal/middleware/lockout.go:150-176 | one request has the verdict and the effect of one attempt of the IP; other IPs are untouched |
| AuthLockouts.AuthLockout.Cleanup | internal/middleware/lockout.go:232-244 | the deleting loop keeps exactly the records that are locked or whose reset time is at most twice the lockout ago |
| QueueSpec.ReceivesExactly | internal/queue/memory.go:40-57 | a Dequeue stops at the first n live requests or at the end of the queue, not before |
| QueueSpec.ReceivesUnique | internal/queue/memory.go:40-57 | there is only one such place |
| QueueSpec.RemovedPrefixSplits | internal/queue/memory.go:40-57 | returned and dropped together are the removed prefix |
| QueueSpec.JudgedByOwnCheck | internal/queue/memory.go:45-50 | each request removed is dropped if its expiry is before the reading of its own check, and otherwise returned, each in its place |
| QueueSpec.ExpiryRespected | internal/model/model.go:20-22 | the expiry of each dropped request is before the return, that of each returned one not before the call |
| QueueSpec.DrainAccounts | internal/queue/memory.go:40-57 | a Dequeue leaves the rest of the queue, nothing when it returns short, and counts every request it removed, as dequeued when returned and as expired otherwise |
| MemoryQueues.MemoryQueue.Enqueue | internal/queue/memory.go:27-36 | accepts if and only if there is room, appends at the end and counts it, or counts a drop and changes nothing else |
| MemoryQueues.MemoryQueue.Dequeue | internal/queue/memory.go:40-57 | the loop returns the live ones of the removed prefix in order, at most n, fewer only when the queue is empty then, and counts both kinds, with a clock that may move between checks |
| KeyedTheorems.HandlesAlways | internal/queue/keyed.go:42-59 | in every interleaving each handle held is its key's one map entry, and keys share no queue |
| KeyedTheorems.QueueNeverReplaced | internal/queue/keyed.go:42-59 | a queue once made for a key is that key's queue ever after |
| KeyedTheorems.HandlesAgree | internal/queue/keyed.go:42-59 | two operations of one key hold the same queue, at any two times |
| KeyedTheorems.NeverStuck | internal/queue/keyed.go:42-69 | no operation ever blocks |
| KeyedTheorems.StepRefinesFifo | internal/queue/keyed.go:62-69 | every step is, for each key, no change, an append by an Enqueue of the key with room, or handing the head to a Dequeue of the key that wants one |
| KeyedTheorems.RefusalsAreReal | internal/queue/memory.go:27-57 | an Enqueue is refused if and only if its key's FIFO is full; a Dequeue ends if and only if it has n or finds it empty |
| QueueSpec.NormalizedIffSame | internal/queue/keyed.go:33-38 | two keys are normalised alike if and only if they are equal or are the empty key and "default" |
| KeyedTheorems.EmptyKeyIsDefault | internal/queue/keyed.go:33-38 | operations on the empty key are operations on the default key |
| KeyedTheorems.OneQueueIffSameKey | internal/queue/keyed.go:33-69 | operations started under two keys work on one queue, at any two times, if and only if the keys are equal or are the empty key and "default" |
| KeyedTheorems.WorksForItsCall | internal/queue/keyed.go:62-69 | an operation works, to its end, under the key and for the request or the number that its caller gave |
| KeyedTheorems.InvAlways | internal/queue/memory.go:27-57 | in every reachable state each queue's accepted requests are its removed ones followed by its buffer, and each Dequeue's takes, checks and output agree |
| KeyedTheorems.AcceptedOnceTakenOnce | internal/queue/memory.go:27-57 | the i-th accepted request of a key is the i-th removed, by one Dequeue of that key, or waits in its place |
| KeyedTheorems.DequeueAccountsForAll | internal/queue/memory.go:40-57 | what a returned Dequeue took it checked, in order; it returns the live ones, at most n; the others were expired when checked |
| KeyedFate.ExactlyOnce | internal/queue/memory.go:27-57 | in every state of every interleaving each accepted request waits in its place in the channel, is in the hand of the one Dequeue that took it, was dropped by it as expired, or is in its place in that Dequeue's output; distinct requests are distinct takes |
| KeyedCounters.CountersConserved | internal/queue/memory.go:27-57 | enqueued + uncounted sends = dequeued + expired + uncounted receives + length, in every interleaving |
| KeyedSequential.LoneEnqueueIsOffer | internal/queue/memory.go:27-36 | the atomic steps of an Enqueue without interference add up to the effect of the method of the class |
| KeyedSequential.LoneDequeueIsDrain | internal/queue/memory.go:40-57 | the atomic steps of a Dequeue without interference, with the clock moving between them, add up to the effect and the output of the method of the class |
| KeyedProgress.ReturnsAlone | internal/queue/memory.go:27-57 | from every reachable state every operation can return by its own steps alone, in a bounded number: a Dequeue neither blocks nor turns for ever |
| KeyedQueues.DepthWithout | internal/queue/keyed.go:83-91 | the total depth is the same in whatever order the map is walked |
| KeyedQueues.KeyedQueue.GetOrCreate | internal/queue/keyed.go:42-59 | the key's queue, empty when new; the other queues stay |
| KeyedQueues.OtherKeysStay | internal/queue/keyed.go:62-69 | what happens to the queue of one key leaves those of all keys a caller could give for another queue as they were |
| KeyedQueues.KeyedQueue.Enqueue | internal/queue/keyed.go:62-64 | only the queue of the key, "default" for the empty one, changes, as an Enqueue says; the other keys' stay |
| KeyedQueues.KeyedQueue.Dequeue | internal/queue/keyed.go:67-69 | only the queue of the key, "default" for the empty one, changes, as a Dequeue says; the other keys' stay |
| KeyedQueues.KeyedQueue.TotalLen | internal/queue/keyed.go:83-91 | the loop adds up the depths of all keys |
| Handlers.Broker.HandleSubmit | internal/handler/online.go:36-82 | 400 without a payload and 500 without an id, both with nothing changed; otherwise 202 with the id pending and the request queued if and only if there is room, else 503 with the store untouched |
| Handlers.Broker.HandleSync | internal/handler/online.go:93-171 | 400, 500 and 503 leave no trace in the store; 200 with the result if and only if one is put while the handler blocks, which then stays in the map; otherwise 202 with the id pending; no waiter left |
| Handlers.Broker.AwaitResult | internal/handler/online.go:147-170 | answers 200, 202 or 500 for what a whole Get saw, and leaves the store as that Get does |
| Handlers.Broker.HandleGetResult | internal/handler/online.go:176-212 | 400 for an empty id; otherwise 200, 204 or 404 for what a whole Get saw, and the store as that Get leaves it |
| Handlers.Broker.HandlePull | internal/handler/local.go:30-55 | hands out at most maxBatch of the key's queue, and at most a positive parameter, and fewer than both allow only when the queue is empty then; other keys stay |
| Handlers.Broker.HandleResult | internal/handler/local.go:59-83 | 400 for a bad body or an empty id, with nothing changed; any other id is accepted, and stored, and sent to the registered waiter, is the body as it was pushed, with the time of completion filled in when it has none; no other channel changes |
| Handlers.NoTrace | internal/handler/online.go:123-134 | registering and deleting a new id leaves the store as it was |
| Handlers.NoTraceButResult | internal/handler/online.go:123-158 | registering a new id and receiving its result while waiting comes to the same as the Put alone |
| HubSequential.LoneSubmit | internal/handler/online.go:63-72 | the machine's HandleSubmit, moving alone, changes the store as the method does |
| HubSequential.LoneSync | internal/handler/online.go:120-134 | the machine's HandleSync, moving alone up to its wait, changes the store as the method does |
| HubSequential.LoneGet | internal/store/memory.go:82-126 | the atomic steps of a Get, with nothing between them but the Put that may come while it blocks, add up to the effect and return value of the method of the class |
| HubSequential.AnswersAgree | internal/handler/online.go:147-212 | the machine's handlers answer as the methods do for what their Get saw |
| WorkerLoop.InvAlways | pkg/client/local.go:66-115 | in every reachable state the semaphore and the wait group count the goroutines, and every pulled request is dispatched or left in the batch, in order |
| WorkerLoop.AtMostWorkersRun | pkg/client/local.go:98-108 | at most `workers` goroutines process or push at any time |
| WorkerLoop.ReturnsOnlyWhenAllPushed | pkg/client/local.go:98-115 | when Run returns, by any exit, the context was cancelled and every request ever pulled was processed and had exactly one push, of what `process` makes of some outcome of the processor for that request |
| WorkerLoop.NeverStuck | pkg/client/local.go:66-115 | with a worker, some step is possible until Run returns |
| WorkerLoop.DrainIsBounded | pkg/client/local.go:103-115 | once Run waits for its goroutines every step but a cancellation lowers what is left by one, in whatever order they run |
| WorkerLoop.DrainedIffExited | pkg/client/local.go:111-115 | nothing is left if and only if Run has returned |
| WorkerExit.WaysOut | pkg/client/local.go:70-96 | the loop is left, only when cancelled, at its top, in the idle wait or when a PullBatch fails, and not in the wait after an error |
| WorkerExit.OnePullAfterCancel | pkg/client/local.go:70-96 | after a cancellation at most one PullBatch returns |
| WorkerExit.PulledByPulls | pkg/client/local.go:75-96 | what has been pulled grows only when a PullBatch returns |
| WorkerExit.StopsSoon | pkg/client/local.go:70-115 | once cancelled and not in a PullBatch, Run makes no other and has a bounded number of steps left, whatever the goroutines do and in whatever order |
| WorkerExit.CanReturn | pkg/client/local.go:66-115 | with a worker every run can be continued to one in which Run has returned |
| WorkerExit.PullsArePaced | pkg/client/local.go:80-96 | after a PullBatch that failed or brought nothing the next comes only after the poll interval |
| WorkerLoop.NoWorkersNoProgress | pkg/client/local.go:67-101 | with none, the first dispatch blocks for ever |
| WorkerLoop.NoWorkersDispatch | pkg/client/local.go:67-101 | a run of two steps to such a dispatch |
| WorkerLoop.PushedResultAnswers | pkg/client/local.go:175-194 | an error is pushed as a 500 with its message, no result as an empty 200, and the caller's own result as it is but for a missing completion time; it names the request unless the caller's own result names another |

## Left out

- HTTP routing, JSON, headers, key comparison, logging, recovery, body limits, configuration and start-up: plumbing; the handlers keep the order of their queue and store calls and their status.
- The layout of UUIDs: a handler's id is assumed to be new.
- Request payloads, headers and timestamps: a queued request is its id and expiry; a stored result keeps its id, payload, status and completion time and the identity of its pointer.
- float64 rounding and the width of int64: times and tokens are exact and unbounded.
- The gap between the map lock and the record lock in Allow, RecordFailure and IsLocked, through which an eviction may slip, and the unlocked read at internal/middleware/ratelimit.go:87: the calls are atomic for one IP.
- Interleaving of two Wrap calls of one IP between check and record: each attempt is judged before the next one asks. The tracker calls themselves interleave freely in LockoutEviction.
- HandleSubmit and HandleSync when Enqueue fails with another error than a full queue: MemoryQueue never does.
- The timeout parameter of a poll and its clamp: a waiting Get may time out at any step, whatever its timeout.
- The Hub machine's queue: it lets any handler's Enqueue succeed or fail and any queued id be pulled or dropped, in any order, which covers every capacity, key and expiry; KeyedMachine models the queue itself exactly.
- Workers that push ids they never pulled, and clients that poll ids nobody has told them: assumed not to happen in the Hub machine; the Protocol machine allows both.
- The estimate of HandleSync's waiting time, and Do and DoSync beyond their hand-over to WaitResult: calls and case analysis without state.
- Lost connections and results lost after the map copy was taken: a Get's return value is taken to reach its caller.
- WorkerLoop.NeverStuck: does not claim that Run is cancelled or that a processor or a PullBatch ends; WorkerExit.StopsSoon bounds the steps after a cancellation and WorkerExit.CanReturn shows the end can be reached.
- Panics in a processor function.
- EndToEnd.PutBeforePollIsDelivered: assumes that the sweeper does not reach the id's result and that nobody else polls the id; without them the result may be swept or handed to the other poller.
- HubTheorems.KnownWhenAccepted: allows that the result was swept before the 202; HubRaces.UnknownWhenAcceptedIffSwept says exactly when.
- MemoryStores.MemoryStore.Get: lets nothing come between its steps but one Put of its id while it blocks, and no timeout then; every other interleaving is in Protocol.
- Handlers.Broker.HandleSync: like AwaitResult and HandleGetResult, runs without interference but for that Put; its 500 for an unknown id, which needs a sweep in between, is in HubTheorems.SyncErrorOnlyAfterSweep.
- MemoryStores.MemoryStore.GetFirst: makes the channel object before it looks into the map, which nobody can observe.
- Stats, StatsAll, Keys, ResultCount, Len of one key, Cap and the terminal display: reading only.
- clientIP: an IP is an opaque key.
- The Node, Python and single-file Go clients.
