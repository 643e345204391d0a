# Verified models of the agent platform's stateful protocols

The platform orchestrates AI agents over gRPC and HTTP services.  Inside it are several small
protocols whose guarantees must hold over every run and every interleaving.  This project models
nine of them in Dafny and proves those guarantees.

JavaScript runs the code between two awaits atomically.  Each protocol is therefore a state with
atomic steps: a class whose methods are the code's segments, functions that say what each segment
does to the state, and lemmas about all runs (`Runs.Run`, a list of events in any order).  A step
that cannot happen in a state leaves it unchanged, so every list of events is a run.  Time, I/O
results, random ids and environment variables are parameters.

| module | what it models |
|---|---|
| `RateLimiting` | the sliding-window rate limiter |
| `AsyncSemaphores` | the counting semaphore with timeouts |
| `AuditChains` | the hash-chained audit log |
| `LineStreams` | the incremental line splitter of model streams |
| `WriteQueues`, `WriteQueueRuns`, `WriteQueueRetries`, `WriteQueueEvents` | the durable memory write queue with its background flusher |
| `Quotas`, `QuotaFallback` | the quota counters, in Redis and in process |
| `PolicyBreaker`, `PolicyCache`, `PolicyCacheRuns`, `PolicyService`, `PolicyRetention` | policy evaluation behind a circuit breaker and a cache |
| `AgentVersions`, `AgentVersionRuns` | agents and their version history under concurrent SQL statements |
| `ReactWorkflow`, `ReactStart`, `ReactRuns`, `ReactTranscript`, `ReactCalls`, `ReactFailures`, `ReactOutcomes` | the ReAct workflow with admission, sandbox, model and tool loop, cancellation and cleanup |

Where the code falls short of what one would expect of it, the model follows the code, a lemma
names a run that shows it, and another gives the exact condition, in this order:

- A write evicted while its `repo.set` is awaited takes its successor with it when it settles
  (`EvictionInFlightLosesSuccessor`, `ConservationIff`).
- Such a write that fails with attempts to spare leaves the attempts remaining in the queue
  unchanged (`EvictedFailureLeavesQueueWork`, `QueueWorkFallsIff`); the measure that always falls
  after `dispose` counts the write in flight as well.
- `verifyAuditChain` starts from the genesis hash and so rejects truncated chains
  (`TruncatedChainRejected`, `VerifiesIffNotTruncated`).
- Overlapping updates can leave a version without a snapshot (`OverlapLosesVersion`,
  `AllRestorableIff`; `WritesApartKeepRestorable` says what callers can do about it).
- The GET-then-INCR quota path overshoots (`OvershootAttained`, `LimitKeptIff`).
- The in-process rate branch is called a sliding window in its comment but is a fixed window
  (`FixedWindowBoundAttained`, `SlidingWindowIff`), and the delay it announces is one millisecond
  short (`RefusedWhenAnnounced`, `RetryAfterIsOneShort`).
- `LRUCache` evicts by insertion, not by use (`ReadDoesNotProtect`, `EvictsLeastRecentlyUsedIff`),
  and evicts even to overwrite a cached key (`OverwriteEvicts`, `EvictsIff`).  An answer that
  overwrites one keeps its place, so the second answer after it may evict it
  (`OverwriteKeepsPlace`, `AnswerIsKept`).
- A release by a caller that holds no permit oversubscribes the semaphore
  (`StrangerOversubscribes`, `ReleaseBalancedIff`).
- An assistant message that repeats a call carries its id but is followed by a prompt, so the id never
  gets its tool message (`RepeatedCallUnanswered`, `CallAnsweredIff`).
- A call key joins name and arguments with a separator that a name may contain, so a call can be taken
  for a repetition of a different one (`CollidingCallSkipped`, `KeysCollideIff`).

## Model

| member | source | states |
|---|---|---|
| `RateLimiting.RateLimiter.Check` | packages/shared/src/rate-limiter.ts:36-54 | the decision and the buckets after `check`, as the function `CheckStep` gives them, including the delay that is not a number when the limit is below 1 |
| `RateLimiting.RateLimiter.Cleanup` | packages/shared/src/rate-limiter.ts:56-67 | the loop over the map leaves exactly the unexpired timestamps of the keys that have any |
| `RateLimiting.DecisionCountsHistory` | packages/shared/src/rate-limiter.ts:38-53 | a check is allowed if and only if fewer than `maxRequests` of all checks of the key ever admitted lie in the window ending now, for every run of checks and cleanups on any keys |
| `RateLimiting.WindowBound` | packages/shared/src/rate-limiter.ts:36-54 | at most `maxRequests` checks of a key are admitted in any interval of one window, wherever it starts |
| `RateLimiting.BucketShape` | packages/shared/src/rate-limiter.ts:44-52 | buckets stay sorted, hold nothing later than the clock and never outgrow the limit |
| `RateLimiting.CleanupIsInvisible` | packages/shared/src/rate-limiter.ts:56-67 | inserting cleanups anywhere changes no later answer, not even its delay |
| `RateLimiting.CleanupFrees` | packages/shared/src/rate-limiter.ts:56-67 | in every run a cleanup leaves of each bucket just the end that is later than now - windowMs, and no entry for a key without any |
| `RateLimiting.NonPositiveLimitDenies` | packages/shared/src/rate-limiter.ts:46-51 | a limit below 1 denies every check, with a delay that is not a number |
| `RateLimiting.RetryAfterIsExact` | packages/shared/src/rate-limiter.ts:46-51 | after a denial, whatever else happens, the key is denied at every earlier time and allowed at now + retryAfterMs |
| `AsyncSemaphores.AsyncSemaphore.Create` | packages/shared/src/grpc/async-semaphore.ts:10-13 | no semaphore when max is below 1, an empty one otherwise |
| `AsyncSemaphores.AsyncSemaphore.Acquire` | packages/shared/src/grpc/async-semaphore.ts:20-38 | the counter, the queue and the promise after `acquire` |
| `AsyncSemaphores.AsyncSemaphore.TimerFires` | packages/shared/src/grpc/async-semaphore.ts:28-34 | the timer callback removes and fails its own waiter and does nothing once that has been granted |
| `AsyncSemaphores.AsyncSemaphore.Release` | packages/shared/src/grpc/async-semaphore.ts:40-49 | the permit passes to the first waiter, or the counter falls but not below zero |
| `AsyncSemaphores.RunInvariant` | packages/shared/src/grpc/async-semaphore.ts:20-49 | over all interleavings with releases by holders, or by anyone while nothing is held: running equals outstanding permits and is at most max, waiters exist only at max, every acquire has resolved once or waits, grants follow arrival order without barging |
| `AsyncSemaphores.ReleaseBalancedIff` | packages/shared/src/grpc/async-semaphore.ts:40-49 | running equals the outstanding permits throughout a run if and only if each release is by a holder or made while nothing is held |
| `AsyncSemaphores.StrangerOversubscribes` | packages/shared/src/grpc/async-semaphore.ts:20-49 | the failing run, for every max: after a release by a caller that holds nothing, max + 1 acquires hold a permit |
| `AsyncSemaphores.TimerAnswersIff` | packages/shared/src/grpc/async-semaphore.ts:26-34 | after any run a timer event takes its acquire out of the queue and answers it false if and only if it still waits and was given a positive timeout; everything else stays as it is |
| `AsyncSemaphores.OnlyTimedAcquiresFail` | packages/shared/src/grpc/async-semaphore.ts:15-38 | an acquire is answered false only if it was given a positive timeout and its timer has fired |
| `AsyncSemaphores.WaiterResolvesAfter` | packages/shared/src/grpc/async-semaphore.ts:40-46 | the waiter at position k has resolved after k + 1 releases, whoever makes them, and with true unless its timer has fired |
| `AuditChains.AuditLog.CreateAuditEntry` | packages/shared/src/audit/index.ts:95-156 | the entry and the chain after `createAuditEntry`, with truncation to the latest 10000 entries |
| `AuditChains.VerifyAuditChain` | packages/shared/src/audit/index.ts:196-205 | the loop accepts if and only if every stored hash is that of its entry and its predecessor's hash, from the genesis hash on |
| `AuditChains.ChainIsWindow` | packages/shared/src/audit/index.ts:131-141 | after any run over any chains the whole history is linked from genesis, and the chain holds its latest entries and its last hash |
| `AuditChains.HistoryIsCreated` | packages/shared/src/audit/index.ts:95-141 | the history of a chain holds the contents created for it, in order, and nothing else |
| `AuditChains.ChainVerifies` | packages/shared/src/audit/index.ts:196-205 | a chain with at most 10000 entries so far verifies |
| `AuditChains.RetainedWindowVerifies` | packages/shared/src/audit/index.ts:139-141 | after truncation the retained window is linked from the hash of the entry dropped last |
| `AuditChains.VerifiesIffNotTruncated` | packages/shared/src/audit/index.ts:139-205 | for every hash and every run: `verifyAuditChain` accepts `getAuditChain` if and only if nothing has been truncated, or the hash dropped last is the genesis value, or the first retained entry hashes alike after both, which is a collision |
| `AuditChains.TruncatedChainRejected` | packages/shared/src/audit/index.ts:139-205 | the failing run, on a stand-in hash: 10001 entries of any contents, nothing tampered with, and the chain is rejected; `VerifiesIffNotTruncated` says the same of every hash, short of a collision |
| `AuditChains.LastHashFixesChain` | packages/shared/src/audit/index.ts:90-93 | tamper evidence: two verifying chains of equal length with the same last hash agree in every content and hash if and only if SHA-256 has no collision between the strings they hash at one position |
| `AuditChains.LastHashFixesLength` | packages/shared/src/audit/index.ts:90-93 | if neither chain stores the genesis value as a hash, verifying chains of different length with one last hash contain a collision at one distance from their ends |
| `LineStreams.StreamLines` | execution-plane/llm-router/src/index.ts:434-458 | the yielded lines are the reference split of the concatenated text, so chunk boundaries do not matter; after a reader error they are the lines completed by then |
| `LineStreams.PiecesAreTheSplit` | execution-plane/llm-router/src/index.ts:444-449 | the reference split: joining the pieces restores the text and no piece contains a newline |
| `LineStreams.TrimIsTrimmed` | execution-plane/llm-router/src/index.ts:446 | trimming removes two runs of white space and leaves none at either end |
| `LineStreams.SpacesAre` | execution-plane/llm-router/src/index.ts:446 | white space is that of ECMAScript, code point by code point |
| `LineStreams.LineIff` | execution-plane/llm-router/src/index.ts:446-449 | a piece gives a line, its trimmed text, if and only if something in it is not white space |
| `LineStreams.ReturnsMakeNoDifference` | execution-plane/llm-router/src/index.ts:434-457 | the lines are the same whether they end in a newline or in a carriage return and a newline |
| `LineStreams.CompletedIsUpToLastNewline` | execution-plane/llm-router/src/index.ts:441-451 | the lines completed by then are those of the text up to and including its last newline |
| `LineStreams.YieldsArePrefixes` | execution-plane/llm-router/src/index.ts:441-451 | what has been yielded after any number of chunks is a prefix of what the whole text yields |
| `WriteQueues.MemoryWriteQueue.Enqueue` | memory-plane/src/write-queue.ts:31-39 | the queue after `enqueue`, with eviction when full and the start of a flush when none runs |
| `WriteQueues.MemoryWriteQueue.RunToAwait` | memory-plane/src/write-queue.ts:68-73 | the flush loop from its head to its next await or its end |
| `WriteQueues.MemoryWriteQueue.OnWriteSucceeded` | memory-plane/src/write-queue.ts:73-74 | the commit, the unconditional shift and the next iteration |
| `WriteQueues.MemoryWriteQueue.OnWriteFailed` | memory-plane/src/write-queue.ts:75-88 | the attempt is counted on the write object itself, which may have left the queue; then permanent failure or backoff |
| `WriteQueueEvents.AcceptedIff` | memory-plane/src/write-queue.ts:31-39 | in every run each `enqueue` before `dispose` is accepted and numbered, and none after it |
| `WriteQueueEvents.EnqueueAppends` | memory-plane/src/write-queue.ts:31-59 | whatever the flush loop is doing, an accepted write goes to the end of the queue untried; the oldest is evicted if and only if the queue is full, and nothing else changes place |
| `WriteQueueEvents.OutcomesFromEvents` | memory-plane/src/write-queue.ts:54-88 | in every run the writes committed, failed and evicted, the number of tries and the total delay of each write follow from the events: who was in flight when `repo.set` succeeded or was rejected |
| `WriteQueueEvents.RejectedWriteStays` | memory-plane/src/write-queue.ts:75-88 | a rejected write with attempts to spare leaves the queue as it is, and the head is tried next |
| `WriteQueueRuns.FlusherInvariant` | memory-plane/src/write-queue.ts:31-92 | at every atomic step a non-empty queue has exactly one active flusher, and its length is at most max(1, maxQueueSize) |
| `WriteQueueRuns.CommitOrder` | memory-plane/src/write-queue.ts:67-92 | in every run the committed writes are in strictly increasing order of acceptance, so none commits twice or overtakes another |
| `WriteQueueRuns.WhereWritesGo` | memory-plane/src/write-queue.ts:54-92 | in every run each accepted write is pending, committed, failed, evicted or lost, and as many are lost as were evicted in flight and then settled |
| `WriteQueueRuns.ConservationIff` | memory-plane/src/write-queue.ts:54-80 | every accepted write is in exactly one of pending, committed, failed and evicted if and only if each write that settled was still at the head of the queue |
| `WriteQueueRuns.UndisturbedConserves` | memory-plane/src/write-queue.ts:54-80 | in runs where no eviction hits the write in flight every accepted write is in exactly one place |
| `WriteQueueRuns.EvictionInFlightLosesSuccessor` | memory-plane/src/write-queue.ts:55-74 | the failing run, for every queue size: one write too many evicts the head in flight, and its commit discards its successor, which is then nowhere |
| `WriteQueueRetries.RetriesBounded` | memory-plane/src/write-queue.ts:76-87 | each write is tried at most max(1, maxAttempts) times and its backoff adds up to at most backoffBaseMs * (2^(maxAttempts-1) - 1) |
| `WriteQueueRetries.FailsOnlyAtLimit` | memory-plane/src/write-queue.ts:76-80 | in every run a write fails permanently only after exactly max(1, maxAttempts) tries |
| `WriteQueueRetries.DrainsAfterDispose` | memory-plane/src/write-queue.ts:49-92 | after `dispose` the flush loop takes a bounded number of steps, has one to take while anything is queued, and ends with an empty queue |
| `WriteQueueRetries.QueueWorkFallsIff` | memory-plane/src/write-queue.ts:68-88 | the attempts left in the queue fall in an iteration if and only if the write settles or is still at the head |
| `WriteQueueRetries.EvictedFailureLeavesQueueWork` | memory-plane/src/write-queue.ts:49-88 | a run, for every queue size, in which an iteration after `dispose` leaves the queue and its attempts as they were |
| `Quotas.QuotaCounter.CheckRate` | packages/shared/src/quotas/enforcer.ts:121-127 | INCR and the decision on its result |
| `Quotas.QuotaCounter.CheckConcurrent` | packages/shared/src/quotas/enforcer.ts:108-115 | GET and the decision on its result |
| `Quotas.RateCounterExact` | packages/shared/src/quotas/enforcer.ts:121-132 | under every interleaving the rate counter equals admitted requests plus rejections not yet undone, and at most `limit` are admitted |
| `Quotas.RateAdmitsIff` | packages/shared/src/quotas/enforcer.ts:122-130 | a new request is admitted if and only if admissions and pending undos together leave room |
| `Quotas.ConcurrentOvershoot` | packages/shared/src/quotas/enforcer.ts:108-119 | with at most n clients between GET and INCR the counter equals the admitted requests and is at most limit + n - 1 |
| `Quotas.RateRefinesSets` | packages/shared/src/quotas/enforcer.ts:121-132 | in every run the counter admits, undoes and releases exactly the requests that sets without a counter would, and is their number |
| `Quotas.ConcurrentRefinesSets` | packages/shared/src/quotas/enforcer.ts:108-119 | likewise for the path whose counter misses the requests between GET and INCR |
| `Quotas.OvershootAttained` | packages/shared/src/quotas/enforcer.ts:108-119 | the bound of `ConcurrentOvershoot` is attained for every positive limit and every positive n |
| `Quotas.LimitKeptIff` | packages/shared/src/quotas/enforcer.ts:108-119 | every run keeps the limit if and only if at most one client may be between GET and INCR, or the limit admits nothing |
| `QuotaFallback.FallbackCounters.CheckFallback` | packages/shared/src/quotas/enforcer.ts:49-86 | both branches of the in-process check, result and stored entry |
| `QuotaFallback.ConcurrentWithinLimit` | packages/shared/src/quotas/enforcer.ts:55-67 | the fallback count is never negative or above the limit, nor below the checks let through less the releases |
| `QuotaFallback.EnterAllowedIff` | packages/shared/src/quotas/enforcer.ts:55-67 | after any run a concurrency check is let through if and only if fewer than the limit are taken; releases give back what they name, but no more than is taken |
| `QuotaFallback.FirstOfWindowAllowed` | packages/shared/src/quotas/enforcer.ts:69-85 | after any run a rate check is let through if and only if it is among the first `limit` checks of its window, which begins with the first check after the one before has expired |
| `QuotaFallback.FixedWindowBound` | packages/shared/src/quotas/enforcer.ts:69-85 | the rate branch lets at most 2 * limit - 1 checks through in any interval of one window length |
| `QuotaFallback.FixedWindowBoundAttained` | packages/shared/src/quotas/enforcer.ts:69-85 | that bound is attained for every limit of at least 1 and every window of at least 2 ms |
| `QuotaFallback.SlidingWindowIff` | packages/shared/src/quotas/enforcer.ts:69-85 | every interval of one window length in every run keeps the limit, as the comment says, if and only if the limit is at most 1 or the window at most 1 ms |
| `QuotaFallback.RetryAfterIsOneShort` | packages/shared/src/quotas/enforcer.ts:71-85 | after a refusal, whatever checks follow up to then, a check is let through if and only if it comes later than now + retryAfterMs and the limit is at least 1 |
| `QuotaFallback.RefusedWhenAnnounced` | packages/shared/src/quotas/enforcer.ts:69-85 | a run, for every limit and window, in which the check made exactly when announced is refused |
| `PolicyBreaker.CircuitBreaker.CanExecute` | policy-plane/src/service.ts:69-80 | the answer and the move from open to half-open |
| `PolicyBreaker.BreakerIsHistory` | policy-plane/src/service.ts:56-80 | the failure count is the length of the trailing run of failures; the state is closed exactly while that is below the threshold, and half-open exactly if `canExecute` has been asked since when the recovery time was over |
| `PolicyBreaker.ExecutesIff` | policy-plane/src/service.ts:69-80 | `canExecute` refuses if and only if the threshold is reached and less than the recovery time has passed since the last failure |
| `PolicyCache.LRUCache.EvictExpired` | policy-plane/src/service.ts:125-132 | the loop leaves exactly the entries that have not expired, in order |
| `PolicyCache.SetSound` | policy-plane/src/service.ts:115-123 | one entry per key, and at most max(1, maxSize) entries |
| `PolicyCache.HitIff` | policy-plane/src/service.ts:105-113 | a lookup hits if and only if the key is cached and its time is not over |
| `PolicyCache.SetEvictsFirst` | policy-plane/src/service.ts:115-123 | `set` on a full cache drops the front entry even when it overwrites a cached key; then a cached key keeps its place and any other goes last |
| `PolicyCacheRuns.EvictsIff` | policy-plane/src/service.ts:105-132 | in every run of reads, writes and cleanups a `set` evicts a key if and only if the cache is full, the key is another one, and it is the one inserted earliest |
| `PolicyCacheRuns.EvictsLeastRecentlyUsedIff` | policy-plane/src/service.ts:89-132 | every `set` of every run evicts the least recently used key, as the name of the class says, if and only if `maxSize` is at most 1 |
| `PolicyCacheRuns.UnusedIsLeastRecentlyUsed` | policy-plane/src/service.ts:105-132 | an evicted key that was never used after its insertion is the least recently used one |
| `PolicyCacheRuns.ReadDoesNotProtect` | policy-plane/src/service.ts:105-123 | the failing run, for every size from 2: the entry read last is the one evicted |
| `PolicyCacheRuns.OverwriteEvicts` | policy-plane/src/service.ts:115-123 | another: setting a cached key of a full cache anew evicts the first entry although no room is needed |
| `PolicyCacheRuns.OverwriteKeepsPlace` | policy-plane/src/service.ts:115-123 | a key set again keeps its old place, so its new decision can be evicted by the second answer after it, whatever the size |
| `PolicyService.PolicyPlaneService.BeginEvaluate` | policy-plane/src/service.ts:271-304 | breaker, cache lookup, and the start of a request to OPA |
| `PolicyService.PolicyPlaneService.FinishEvaluate` | policy-plane/src/service.ts:304-375 | the decision, breaker and cache after OPA's response or its failure |
| `PolicyService.CacheInvariant` | policy-plane/src/service.ts:291-321 | for any interleaving of calls, evictions and cleanups every cached decision is the latest OPA answer for its key |
| `PolicyService.AllowOnlyFromOpa` | policy-plane/src/service.ts:261-380 | a decision that allows comes from an allowing 2xx answer in that call, or from the latest answer for an equal hash, at most ttlMs old |
| `PolicyService.AllowsIff` | policy-plane/src/service.ts:261-380 | both directions, in every run: a call without a request allows if and only if the breaker's history does not block it and an allowing answer is still cached; one with a request, if and only if OPA's usable answer allows |
| `PolicyService.DenialReasons` | policy-plane/src/service.ts:271-375 | the reason of each denial: OPA's own, a default in its absence, the error of a failed call, or the open breaker |
| `PolicyRetention.AnswerIsKept` | policy-plane/src/service.ts:291-321 | until ttlMs after OPA's latest usable answer for a hash, an unblocked call with that hash returns it and begins no request, if fewer than max(1, maxSize) answers have come since the first one for that hash or at most one (none for maxSize 1) since the latest; reads, sweeps and failures do not matter |
| `PolicyService.BlockedIff` | policy-plane/src/service.ts:271-304 | with calls in flight, an evaluation is blocked if and only if the trailing failures reach the threshold and the recovery time is not over; only then, or on a cache hit, no request begins |
| `AgentVersions.AgentRepository.Update` | control-plane/api-server/src/agents/repository.ts:178-238 | `update` without interference: snapshot, which may fail, then the SET list |
| `AgentVersions.SetListPatches` | control-plane/api-server/src/agents/repository.ts:207-225 | executing the SET list merges each given field and raises the version by one |
| `AgentVersions.UpdateMeans` | control-plane/api-server/src/agents/repository.ts:178-238 | an update that gives any field raises the version by one and overwrites just the given keys, key by key; one that gives none leaves the row alone; the old row is saved unless that fails |
| `AgentVersions.RollbackMeans` | control-plane/api-server/src/agents/repository.ts:289-316 | when a rollback returns null, throws, or writes a snapshot's content as the next version, and what each leaves |
| `AgentVersions.AgentRepository.RollbackToVersion` | control-plane/api-server/src/agents/repository.ts:289-316 | `rollbackToVersion` without interference, including the missing version, the missing agent and the failing snapshot |
| `AgentVersions.RollbackAndBack` | control-plane/api-server/src/agents/repository.ts:289-316 | rolling back to v from n gives the content of v at n + 1, and back to n the content of n at n + 2 |
| `AgentVersionRuns.SequentialHistory` | control-plane/api-server/src/agents/repository.ts:178-316 | sequentially, with all snapshots succeeding, every version below the current one is restorable |
| `AgentVersionRuns.VersionFixesContent` | control-plane/api-server/src/agents/repository.ts:224-234 | under every interleaving the agent never has two contents at one version |
| `AgentVersionRuns.VersionIncreases` | control-plane/api-server/src/agents/repository.ts:224-312 | the version never falls, and every change of content raises it |
| `AgentVersionRuns.SnapshotsAccurate` | control-plane/api-server/src/agents/repository.ts:178-316 | under every interleaving each snapshot row holds what the agent was at its version, so duplicates agree |
| `AgentVersionRuns.RollbackRestores` | control-plane/api-server/src/agents/repository.ts:304-312 | however many calls ran in between, a rollback writes what the target version was, as a new version |
| `AgentVersionRuns.SnapshotIff` | control-plane/api-server/src/agents/repository.ts:193-316 | under every interleaving a version has a snapshot if and only if some call read the agent at that version and its INSERT took effect |
| `AgentVersionRuns.AllRestorableIff` | control-plane/api-server/src/agents/repository.ts:178-316 | in every run all versions below the current one are restorable if and only if each was so read and saved |
| `AgentVersionRuns.WritesApartKeepRestorable` | control-plane/api-server/src/agents/repository.ts:193-316 | calls may interleave: if no other call writes between a call's SELECT and its UPDATE and no INSERT fails, all versions below the current one are restorable |
| `AgentVersionRuns.WritesApartRestore` | control-plane/api-server/src/agents/repository.ts:258-316 | and each lookup of such a version finds what the agent was at that version, whichever row the database picks |
| `AgentVersionRuns.OverlapLosesVersion` | control-plane/api-server/src/agents/repository.ts:193-234 | the failing run: two overlapping updates leave version 2 without a snapshot |
| `AgentVersionRuns.UpdateAloneIsARun` | control-plane/api-server/src/agents/repository.ts:178-238 | the statements of one client in a row do what the sequential `update` does |
| `AgentVersionRuns.RollbackAloneIsARun` | control-plane/api-server/src/agents/repository.ts:289-316 | likewise for `rollbackToVersion`, result and failing snapshot included |
| `AgentVersionRuns.UpdateWriteMeans` | control-plane/api-server/src/agents/repository.ts:224-238 | in every run the UPDATE statement raises the version and overwrites just the given keys of the row as it is then |
| `AgentVersionRuns.ReadStatementMeans` | control-plane/api-server/src/agents/repository.ts:192-296 | in every run the SELECT statements change nothing and read what is there; an update without a live agent goes on, a rollback without one or without the target's snapshot returns null |
| `AgentVersionRuns.SnapshotStatementMeans` | control-plane/api-server/src/agents/repository.ts:193-205 | in every run the INSERT saves just the row the call has read; a failing one stops a rollback and not an update |
| `AgentVersionRuns.DeletedForGood` | control-plane/api-server/src/agents/repository.ts:240-251 | a deleted agent stays as it is, whatever calls are still under way |
| `ReactWorkflow.ReactExecution.Run` | control-plane/workflow-engine/src/temporal/workflows/react-workflow.ts:140-206 | the workflow's statements compute the function `Workflow`, about which the theorems are |
| `ReactWorkflow.ReactExecution.ReactLoop` | control-plane/workflow-engine/src/temporal/workflows/react-workflow.ts:317-638 | the while loop with its breaks computes the recursive function `Loop` |
| `ReactWorkflow.ReactExecution.RunSandboxed` | control-plane/workflow-engine/src/temporal/workflows/react-workflow.ts:293-691 | try, catch, finally and the final report |
| `ReactRuns.WorkflowIsSafe` | control-plane/workflow-engine/src/temporal/workflows/react-workflow.ts:140-691 | for every environment: no sandbox, model or tool call without admission and policy; a sandbox with a non-empty id is terminated exactly once, after the last model and tool call; after a cancel signal at any await at most one more model call and one more tool call begin; the total exceeds the budget by at most the last model call; a result other than ERROR is within budget and true to its status |
| `ReactRuns.LoopEnds` | control-plane/workflow-engine/src/temporal/workflows/react-workflow.ts:319-638 | from any loop head: how the loop ends, within min(maxIterations, 100) model calls |
| `ReactRuns.IterationProgress` | control-plane/workflow-engine/src/temporal/workflows/react-workflow.ts:339-617 | an iteration makes at most one model call and one tool call |
| `ReactTranscript.BooksAtEveryHead` | control-plane/workflow-engine/src/temporal/workflows/react-workflow.ts:319-618 | at every loop head: the system prompt and the input's messages come first; message count is the initial count plus twice the iteration; each turn is the assistant's message and then the reply to a call not asked for before, or else a prompt; the records list the executions, in order, with their success; as many records as distinct call keys, in increasing iterations |
| `ReactTranscript.ToolsRunOnce` | control-plane/workflow-engine/src/temporal/workflows/react-workflow.ts:481-512 | in every run, however it ends, no tool is executed twice with the same arguments |
| `ReactTranscript.KeysCollideIff` | control-plane/workflow-engine/src/temporal/workflows/react-workflow.ts:481 | two tools can be given arguments with one call key if and only if one's name, followed by the separator, begins the other's |
| `ReactTranscript.KeyFixesCall` | control-plane/workflow-engine/src/temporal/workflows/react-workflow.ts:481 | otherwise a call key names one tool and one text of arguments |
| `ReactCalls.CallsAreExecuted` | control-plane/workflow-engine/src/temporal/workflows/react-workflow.ts:472-512 | at every loop head only what the answers asked for has been executed, with their arguments, and all of it if the tools' names are apart |
| `ReactCalls.CollidingCallSkipped` | control-plane/workflow-engine/src/temporal/workflows/react-workflow.ts:481-491 | the failing run: a call that shares its key with an earlier, different one is never executed |
| `ReactCalls.CallsAtEveryHead` | control-plane/workflow-engine/src/temporal/workflows/react-workflow.ts:193-618 | at every loop head the whole sequence of calls: eight of preparation, then for each answer those that it leads to |
| `ReactCalls.InsistentUsesLimit` | control-plane/workflow-engine/src/temporal/workflows/react-workflow.ts:141-319 | a model that never ends is called exactly min(maxIterations, 100) times, 20 by default and never for a negative number |
| `ReactCalls.OutcomeReportedIff` | control-plane/workflow-engine/src/temporal/workflows/react-workflow.ts:684-691 | the outcome is reported once, as the last call, if and only if a sandbox was asked for and the run returns |
| `ReactTranscript.ToolMessagesFollow` | control-plane/workflow-engine/src/temporal/workflows/react-workflow.ts:424-431 | every tool message directly follows its assistant message, which carries its id if and only if the model's answer listed it |
| `ReactTranscript.ToolMessagesCarryTheirIds` | control-plane/workflow-engine/src/temporal/workflows/react-workflow.ts:424-431 | if every answer lists the call it is to execute, as those of `callLLM` do, every tool message directly follows an assistant message that carries its id |
| `ReactTranscript.CallAnsweredIff` | control-plane/workflow-engine/src/temporal/workflows/react-workflow.ts:424-617 | at every loop head, for every answer: the assistant's message lists only the call with its id, and a tool message with that id follows only if the answer gives an id, names a tool, and no earlier answer named it with the same arguments; and then always, if the tools' names are apart |
| `ReactTranscript.RepeatedCallUnanswered` | control-plane/workflow-engine/src/temporal/workflows/react-workflow.ts:424-491 | the failing run: a repeated request carries its id and gets a prompt, not a tool message |
| `ReactStart.LoopStartsAtFirstHead` | control-plane/workflow-engine/src/temporal/workflows/react-workflow.ts:193-319 | if both checks pass and the eight calls before it do not throw, the try block is the loop from the head at which `BooksAtEveryHead` begins |
| `ReactStart.StopsBeforeLoop` | control-plane/workflow-engine/src/temporal/workflows/react-workflow.ts:199-316 | otherwise no model or tool call is made and the run throws or ends in ERROR |
| `ReactStart.ModelCalledIff` | control-plane/workflow-engine/src/temporal/workflows/react-workflow.ts:199-345 | the model is called if and only if both checks pass, none of the nine calls before throws, the limit allows an iteration, and the cancel signal has not come by the first loop head |
| `ReactFailures.FailsIff` | control-plane/workflow-engine/src/temporal/workflows/react-workflow.ts:140-691 | a run throws or ends in ERROR if and only if some call got a fatal answer or the total exceeds the budget; persistence, termination and reporting never fail a run |
| `ReactFailures.ToolErrorFatalIff` | control-plane/workflow-engine/src/temporal/workflows/react-workflow.ts:512-541 | a tool error is fatal if and only if its message contains PII_VIOLATION or POLICY_DENIED anywhere |
| `ReactOutcomes.EndsKnown` | control-plane/workflow-engine/src/temporal/workflows/react-workflow.ts:199-691 | when a run throws: before the sandbox exactly if its last call, an announcement or the policy evaluation, threw, and afterwards only if announcing a caught error threw; and which ERROR results report zeros |

## Left out

- gRPC, HTTP, WebSocket, TLS, telemetry, logging and the admin console: wiring over libraries that are not part of this model.
- `ReactWorkflow.Workflow`: the texts of messages and results, `lastAction` and the status query, latencies and tool definitions are not modelled; costs are whole micro-dollars, and a cost that does not parse as a number is not modelled.  Retries inside an activity are part of that activity.
- `ReactRuns.WorkflowIsSafe`: says nothing about the totals in an ERROR result; one made in the catch block reports zero cost and iterations whatever was spent, as the code does.
- `WriteQueues.MemoryWriteQueue.Enqueue`: the namespace, key and value of a write are represented by its number, and `repo.set` is taken to be asynchronous, so it never throws before its first await.
- `AuditChains.AuditLog.CreateAuditEntry`: the live array that `getAuditChain` hands out can be changed by its receiver; here it is a value.  Persistence to PostgreSQL is not modelled, and JSON serialisation and SHA-256 are parameters.
- `LineStreams.StreamLines`: UTF-8 decoding is not modelled; chunks are decoded text.  A consumer that stops early sees a prefix.
- `Quotas.RateCounterExact`: holds between expiries of the Redis key, for amounts of 1 and releases by admitted requests; `Quotas.ConcurrentOvershoot` likewise.
- `QuotaFallback.FixedWindowBound`: for runs of checks; the repository releases only concurrency quotas.
- `PolicyService.PolicyPlaneService.BeginEvaluate`: `hashInput` is an arbitrary function of the input; an exception thrown by it or by the tracer before the request is not modelled.  The policy path is not part of the cache key, so cached answers are for equal hashes only.
- `AgentVersions.AgentRepository.Update`: ids, authors, summaries and timestamps are not modelled.  One incarnation of one agent: after deletion and re-creation under the same name version numbers restart.
- Docker and Kubernetes drivers, model providers and pattern catalogues: foreign systems and flat lists.
