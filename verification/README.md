# Kubefaas in Dafny

A model of the concurrent state machines inside Kubefaas, with proofs of what they keep.
Goroutines that share state are modelled as atomic steps over an explicit state, so that a theorem about
runs covers every interleaving; what the code updates in place is also a class, whose methods are proved
against the functions that the theorems are about. Answers of the API server, the network, the clock,
message queues and builders are parameters: the theorems hold for all of them.

| module | what it models |
|---|---|
| `Keys` | the string keys that identify the contents of an object |
| `TimedCache` | the map with creation-time and access-time expiry behind most components |
| `Throttler` | the router's per-key single-flight lock with ageing |
| `ServiceEntry` | a request's way to a service address: the router's cache and the throttler together, and what every step keeps |
| `ServiceAnswers` | what each request is answered, and by which way |
| `ServiceUrls` | where the addresses come from that requests are given |
| `ServiceProgress` | every request finishes |
| `ServiceWorkers` | how many requests work on one key at once |
| `Executor` | the executor's single flight: one leader creates a function's service, followers wait |
| `RoundTrip` | the router's retrying transport with its two counters and geometric back-off |
| `WeightedChoice` | prefix sums of canary weights and the search that draws from them |
| `Canary` | the weight steps of a canary deployment, up to success or rollback |
| `FunctionServiceCache` | the executor's three indexes of function services, one operation after another |
| `FunctionServiceRaces` | the same indexes with any number of adds and deletes interleaved |
| `MqTrigger` | reconciling message-queue subscriptions |
| `Timer` | reconciling running crons |
| `PackageBuild` | the package build, its status writes and its de-duplication lock |
| `EnvBuilder` | creating and cleaning up environment builders |
| `Publisher` | the webhook publisher's retry queue |

## Where the code and its promises part

The model follows the code. Each of these has a theorem that says exactly when the promise holds, and a case where it fails.

- The throttler is documented to send at most one request at a time for a key (pkg/throttler/throttler.go:46-51).
  A waiter that was released sends a DELETE too, which can take away its successor's lock: `Throttler.LocksAreConserved`
  is the exact account, `Throttler.FirstIsAloneIff` and `ServiceWorkers.JoinsWorkersIff` say when a second request joins,
  and `Throttler.TwoLeadersAtOnce` and `ServiceWorkers.TwoWorkersAtOnce` make it happen for every function and expiry. `ServiceWorkers.OneWorkerUnlessLockTaken` is what remains.
- A Set on a cache entry that has expired but is still there is refused, so it can show whether an EXPIRE has run:
  `TimedCache.ExpireShowsIff`, `TimedCache.ExpireTimingIsObservable`.
- `findCeil` computes `low + high/2` for the middle (pkg/router/functionHandler.go:446). From four entries on
  it can leave the list or never end: `WeightedChoice.FindCeilReturnsIff`, `WeightedChoice.FindCeilFailsHow`, `WeightedChoice.FourEntriesCanHang`. The command line makes at most two
  (pkg/cli/cmd/httptrigger/create.go:210-237).
- The last entry of the list gets one draw more than its weight, even if its weight is 0 after a rollback:
  `WeightedChoice.ZeroWeightStillDrawnIffLast`, `WeightedChoice.RolledBackIsDrawn`.
- A canary update that meets ten conflicts in a row reports success, because the error it would return is
  shadowed (pkg/canaryconfigmgr/canaryConfigMgr.go:362, 392): `Canary.ReportIsTrueIff`, `Canary.RunEndsIff`, `Canary.TenConflictsSucceedAtHalf`.
- A canary whose trigger is gone closes its quit channel but leaves its ticker running (pkg/canaryconfigmgr/canaryConfigMgr.go:252), so
  another tick may be taken first, and panics if it closes quit again: `Canary.TickPanicsIff`, `Canary.PanicNeedsMissingTrigger`, `Canary.MissingTriggerCanPanic`.
- An Add of a function service is three cache operations. A delete of the same service between them leaves its address and
  its UID leading nowhere: `FunctionServiceRaces.NextKeepsCoveredIff`, `FunctionServiceRaces.RunAgreesIff`, `FunctionServiceRaces.DeleteInsideAddBreaks`.
- A GET_BUILDER that creates a builder answers without it, because the variable it is assigned to is shadowed
  (pkg/buildermgr/envwatcher.go:229): `EnvBuilder.GetCarriesInfoIff`, `EnvBuilder.FirstGetHasNoInfo`.
- A build is to end in the failed state if any of its steps fails (pkg/buildermgr/pkgwatcher.go:76). It stays Running if the environment
  lookup gives an error other than not-found, and also if the Succeeded write is lost, since the Failed write after it carries a version
  that the package update before it has made old: `PackageBuild.RunningEndsIff`, `PackageBuild.LookupErrorStaysRunning`, `PackageBuild.LostSuccessStaysRunning`.
- A failed function listing makes the package Failed, unless that write is lost: then the build goes on and the package can end Succeeded with
  no function updated: `PackageBuild.SucceedsIff`, `PackageBuild.FailedListingCanSucceed`.

And one thing always holds that a reader of step 5 of a build (pkg/buildermgr/pkgwatcher.go:74) may not expect: it points functions at the package
version it read back from its Running write, and its own two writes after that make that version old (`PackageBuild.FunctionsLagBehind`).

## What the theorems rest on

- The clock does not run backwards within one GET of the throttler. Go's monotonic clock sees to that; `Throttler.GetKeepsSoundIff` and
  `Throttler.BackwardClockLeaksALock` show why it matters.
- UIDs hold no `_` (`Keys.CacheKeyCollides`).
- Environments have resource versions of their own, with no `-` in them, as those are that one API server hands out. Their names alone would
  not keep their cache keys apart (`EnvBuilder.NamesCollide`), so two of them could share a key only if they shared a resource version
  (`EnvBuilder.KeysCollideIff`), which then is not reachable.

## Model

| member | source | states |
|---|---|---|
| Keys.CacheKeyIdentifies | pkg/crd/key.go:25-33 | the key identifies the contents: equal keys if and only if equal UID and resource version, when no UID holds `_` |
| Keys.CacheKeyCollides | pkg/crd/key.go:31-33 | without that condition two objects with different UIDs share a key |
| TimedCache.Cache.HandleGet | pkg/cache/cache.go:94-109 | a GET answers and leaves the map as `Answer` and `After` say: a hit refreshes the access time, an expired entry is dropped |
| TimedCache.Cache.HandleSet | pkg/cache/cache.go:110-124 | a SET never overwrites: it stores, or reports the existing value and refreshes its access time |
| TimedCache.Cache.HandleDelete | pkg/cache/cache.go:125-127 | a DELETE removes the key and nothing else |
| TimedCache.Cache.HandleExpire | pkg/cache/cache.go:128-134 | EXPIRE, whatever order it visits the map in, removes exactly the old entries |
| TimedCache.LatestIsHeld | pkg/cache/cache.go:89-147 | in every run an entry held is the latest one stored, with the times of its store and of its last touch, and a latest one that is missing has outlived one of the expiries |
| TimedCache.GetIsExact | pkg/cache/cache.go:63-109 | for any expiries, a Get returns the latest value stored and not deleted if and only if its store is within the creation-time expiry and its last touch within the access-time expiry, wherever EXPIRE falls; otherwise nothing |
| TimedCache.SetReportsLatest | pkg/cache/cache.go:110-124 | a refused Set reports the latest stored value; an accepted one finds none that is within its expiries |
| TimedCache.NeverExpires | pkg/cache/cache.go:63-87 | with both expiries off a stored key is found until it is deleted |
| TimedCache.NoExpiryRefinesMap | pkg/cache/cache.go:89-147 | with both expiries off every request acts as on a plain insert-if-absent map |
| TimedCache.SweepShowsIff | pkg/cache/cache.go:110-134 | a run answers alike with and without some old keys if and only if no Set meets one of them before another request for it |
| TimedCache.ExpireShowsIff | pkg/cache/cache.go:110-134 | for every state, EXPIRE and run after it: whether that EXPIRE has run shows in the answers if and only if a later Set of a key that it dropped comes before any other request for that key |
| TimedCache.ExpireTimingIsObservable | pkg/cache/cache.go:110-134 | for every creation-time expiry, one EXPIRE more turns a later miss into a hit |
| Throttler.Service.HandleGet | pkg/throttler/throttler.go:108-132 | GET joins the lock that is there, or replaces it if old and is told "first"; who is first and the whole new table |
| Throttler.Service.HandleDelete | pkg/throttler/throttler.go:134-139 | DELETE releases and removes whatever lock the key has |
| Throttler.Service.HandleExpire | pkg/throttler/throttler.go:141-148 | EXPIRE, visiting the locks in any order and with a clock reading for each, releases and removes exactly the old ones |
| Throttler.Service.Visit | pkg/throttler/throttler.go:142-147 | one turn of that loop: an old lock leaves and its counter goes down |
| Throttler.Service.VisitAll | pkg/throttler/throttler.go:142-147 | the loop visits each lock once, in whatever order |
| Throttler.SweepIsExact | pkg/throttler/throttler.go:141-148 | in whatever order, the visits together release and remove exactly the old locks |
| Throttler.DeleteKeepsSound | pkg/throttler/throttler.go:134-139 | DELETE keeps every lock's counter at 1 while it is held, under one key only, and at 0 once it is not |
| Throttler.ExpireKeepsSound | pkg/throttler/throttler.go:141-147 | so does EXPIRE |
| Throttler.GetKeepsSoundIff | pkg/throttler/throttler.go:108-128 | so does GET, if and only if its two age tests do not contradict each other |
| Throttler.EveryRunIsSound | pkg/throttler/throttler.go:103-150 | in every interleaving of GET, DELETE and EXPIRE, if the clock does not run back within a GET: counters are never negative and nobody waits on a departed lock |
| Throttler.BackwardClockLeaksALock | pkg/throttler/throttler.go:108-128 | why the clock must not run back within a GET: in every table, a lock found old and then young leaves it counting 1 for ever (time.Since reads Go's monotonic clock, which rules this out) |
| Throttler.LocksAgeExactly | pkg/throttler/throttler.go:108-148 | in every run a key is locked since just when its messages' own clock readings say: a GET replaces a lock made more than expiry before its first reading, an EXPIRE removes one made more than expiry before the reading that tests it, a DELETE removes any |
| Throttler.ToldFirstIff | pkg/throttler/throttler.go:70-72 | in every run a GET is told "first" if and only if its key is not locked, or was locked more than expiry before the GET's first reading |
| Throttler.LocksAreConserved | pkg/throttler/throttler.go:103-147 | per key, each lock made exactly one caller first and is held, or was removed once; callers first and not done are at most 1 + waiters' DELETEs that found a lock + locks removed for age |
| Throttler.OutstandingAfter | pkg/throttler/throttler.go:186-216 | how each message changes the number of callers told "first" and not yet done |
| Throttler.FirstIsAloneIff | pkg/throttler/throttler.go:43-51 | the documented "at most one": after a caller is told "first" it is alone if and only if every lock lost to waiters or age is matched by a first caller's DELETE that found nothing |
| Throttler.TwoLeadersAtOnce | pkg/throttler/throttler.go:205-213 | for every key and expiry, two callers told "first" work at once, with no lock ever old |
| ServiceEntry.StepKeepsInv | pkg/router/functionHandler.go:512-577 | every step of the callers, the throttler, the cache and the clock keeps: a leader works on its own lock, or has placed the URL it was given before its DELETE; a placed entry stays until removed or expired |
| ServiceEntry.LeadKeepsAgree | pkg/throttler/throttler.go:120-132 | the step that makes a caller first |
| ServiceEntry.JoinKeepsAgree | pkg/throttler/throttler.go:109-114 | the step that makes a caller wait for a lock led for the same key |
| ServiceEntry.DeleteKeepsAgree | pkg/throttler/throttler.go:205-215 | the DELETE a caller sends once its callback has returned, also that of a released waiter |
| ServiceEntry.AssignKeepsAgree | pkg/router/functionServiceMap.go:69-79 | the leader's assign, which may find an entry in its way |
| ServiceEntry.EveryRunKeepsInv | pkg/router/functionHandler.go:512-577 | all of it in every run |
| ServiceAnswers.LookupIsExact | pkg/router/functionHandler.go:512-519 | a caller is answered from the cache at once if and only if the cache holds an entry for its function that is not older than the expiry; otherwise it goes on to the throttler; what the lookup does to the cache |
| ServiceAnswers.LookupAgainIsExact | pkg/router/functionHandler.go:550-556 | a caller that waited gets what its second lookup finds, and no URL without an error if that finds nothing fresh |
| ServiceAnswers.AskIsExact | pkg/throttler/throttler.go:108-128 | a caller leads a new lock if and only if its key is not locked or was locked more than the expiry before; otherwise it waits for the lock there is |
| ServiceAnswers.HandleDeleteIsExact | pkg/throttler/throttler.go:134-139 | a caller's DELETE takes away and releases the lock of its key, whoever leads it, and no other; the caller is done with the answer it has |
| ServiceAnswers.WorldIsExact | pkg/router/functionHandler.go:294-300 | what no caller does: a round trip drops a stale address, the clean-ups of cache and locks drop exactly what is older than its expiry, time passes |
| ServiceAnswers.HistoryIsExact | pkg/router/functionHandler.go:529-560 | what counts as a URL given, a lock released by its own leader, an entry removed since, and an assign refused |
| ServiceAnswers.EveryCallerCameBy | pkg/router/functionHandler.go:512-577 | in every run each caller came one of five ways and is answered accordingly: by the first lookup, with a failure if the executor or the wait failed, with the executor's URL if it led, or by the second lookup |
| ServiceUrls.AssignPlacesUrl | pkg/router/functionServiceMap.go:69-79 | what a leader leaves in the cache is its own URL, fresh, or, if its assign is refused, the entry that was there, with its age |
| ServiceUrls.EveryUrlWasGiven | pkg/router/functionHandler.go:512-577 | in every run, a caller answered with a URL gets one that the executor gave for that name, namespace and resource version |
| ServiceUrls.FollowerFindsUrl | pkg/router/functionHandler.go:529-560 | in every run, a caller released by its leader's own DELETE, whose leader the executor answered, finds the entry that leader left, unless it was removed since or that entry (which may be older than the leader's assign) has outlived the expiry; it holds the leader's own URL, or, if the assign was refused, one the executor gave for the function before |
| ServiceProgress.NoCallerIsStuck | pkg/throttler/throttler.go:186-216 | in every reachable state each caller not yet done has a step of its own or waits on a lock whose leader has one, without counting on time-outs or EXPIRE |
| ServiceProgress.StepUsesWork | pkg/throttler/throttler.go:186-216 | each step of a caller lowers a measure over all callers, and only arrivals raise it |
| ServiceProgress.CallersStop | pkg/router/functionHandler.go:512-577 | without arrivals, callers take at most as many steps as that measure says |
| ServiceProgress.EveryCallerFinishes | pkg/router/functionHandler.go:512-577 | from every reachable state the callers can go on, without arrivals, time-outs or EXPIRE, until all are done |
| ServiceWorkers.WorkersAreAccounted | pkg/throttler/throttler.go:186-216 | in every run, the callers that work on a key are exactly the held lock, plus the locks lost to waiters' DELETEs and to age, less first callers' DELETEs that found none |
| ServiceWorkers.OneWorkerUnlessLockTaken | pkg/throttler/throttler.go:46-51 | in every run at most one caller works on a key, as long as no lock of it was taken by a waiter's DELETE or for age |
| ServiceWorkers.JoinsWorkersIff | pkg/throttler/throttler.go:108-132 | a caller joins others at work on its key if and only if it finds no lock, or an old one, while one of them is not done |
| ServiceWorkers.TwoWorkersAtOnce | pkg/throttler/throttler.go:205-213 | for every function and expiry there is a run of callers, in which no time passes, after which two of them work on one key |
| Executor.StepKeepsInv | pkg/executor/executor.go:97-166 | every step keeps leaders, wait groups and the shared map in agreement |
| Executor.SingleFlight | pkg/executor/executor.go:91-166 | in every run at most one create call per key is in flight, a leader's delete removes its own wait group, no counter is negative, a follower reads the cache only after its leader replied, and each request is answered once |
| Executor.NoWorkLeft | pkg/executor/executor.go:97-166 | the measure is 0 if and only if every request is finished |
| Executor.StepsUseUpWork | pkg/executor/executor.go:113-163 | once requests stop arriving every step lowers the measure by one |
| Executor.SomeStepIsEnabled | pkg/executor/executor.go:113-163 | while a request is unfinished a step is enabled, its own or its leader's |
| Executor.DrainsInBoundedTime | pkg/executor/executor.go:113-163 | runs without arrivals are as long as the measure they use up, and at its end every request has been answered exactly once |
| Executor.EveryRequestIsAnswered | pkg/executor/executor.go:113-163 | from every state a run without arrivals answers all |
| Executor.Executor.Serve | pkg/executor/executor.go:99-146 | one turn of the service loop hands out the wait group to lead or to wait on |
| Executor.Executor.Proceed | pkg/executor/executor.go:136-163 | a create call returns, an answer is sent: nothing shared changes |
| Executor.Executor.Wake | pkg/executor/executor.go:149 | a follower's Wait returns once its group's counter is 0 |
| Executor.Executor.Free | pkg/executor/executor.go:141 | the leader's delete takes out the group it leads |
| Executor.Executor.Done | pkg/executor/executor.go:142 | the leader's Done takes its group's counter from 1 to 0 |
| Executor.Executor.CreateAndReply | pkg/executor/executor.go:136-140 | a leader whose create call has returned and whose answer is sent has answered once |
| Executor.Executor.FreeAndDone | pkg/executor/executor.go:141-142 | a leader that has replied ends with its key free, its group at 0 and one answer |
| RoundTrip.WrapIsExact | pkg/router/functionHandler.go:217 | durations stay within 64 bits and differ from the exact product by a multiple of 2^64 |
| RoundTrip.WrapMul | pkg/router/functionHandler.go:217 | multiplying a wrapped 64-bit duration and wrapping again loses nothing |
| RoundTrip.WaitNext | pkg/router/functionHandler.go:311-312 | the back-off and dial timeout of the next round, in 64 bits |
| RoundTrip.RetryingRoundTripper.RoundTrip | pkg/router/functionHandler.go:158-318 | the loop does, lookup by lookup and attempt by attempt, what the recursive specification says, for all parameters and answers |
| RoundTrip.RoundTripIsOrderly | pkg/router/functionHandler.go:188-317 | every attempt goes to the address looked up last; exactly when the last failure to dial was no time-out, or svcAddrRetryCount + 1 attempts were made, that address is given up, its entry removed first if it came from the cache, and a lookup follows; at most maxRetries attempts; each lookup and attempt of a round gets what the world answers in that round; no URL at the end only if the last lookup gave none |
| RoundTrip.RoundsAreOrderly | pkg/router/functionHandler.go:188-313 | the same from any round on |
| RoundTrip.TriesAreBounded | pkg/router/functionHandler.go:287-308 | so there are at most svcAddrRetryCount + 1 attempts between two lookups |
| RoundTrip.FailuresAreCounted | pkg/router/functionHandler.go:257 | totalRetry counts the failed attempts |
| RoundTrip.WaitIsGeometric | pkg/router/functionHandler.go:158-313 | absent overflow, round i dials and backs off for timeout * exponent^i |
| RoundTrip.SleepTimeIsGeometric | pkg/router/functionHandler.go:215-313 | absent overflow, n rounds sleep timeout * (exponent^n - 1) / (exponent - 1) in all |
| RoundTrip.SleepsAtMost | pkg/router/functionHandler.go:188-313 | so RoundTrip sleeps at most that for maxRetries rounds |
| WeightedChoice.ResolveByFunctionWeights | pkg/router/functionReferenceResolver.go:149-187 | fails if and only if a function is missing or cannot be read; otherwise lists every name once, in any order, with its weight and prefix sum, and maps every name to its function |
| WeightedChoice.SumsAreSorted | pkg/router/functionReferenceResolver.go:170-177 | prefix sums of non-negative weights are sorted and non-negative |
| WeightedChoice.UpperHalfIsLost | pkg/router/functionHandler.go:441-452 | a search of four or more entries that takes an upper half never stops inside the list |
| WeightedChoice.SearchFromTop | pkg/router/functionHandler.go:438-452 | when a search of any size stops, and that it then stops at the right entry |
| WeightedChoice.FindCeilReturnsIff | pkg/router/functionHandler.go:435-459 | for every list and number, findCeil returns if and only if the list has at most three entries or the number is below one particular early sum; then at the first entry whose sum exceeds it, else the last |
| WeightedChoice.FindCeilFailsHow | pkg/router/functionHandler.go:441-454 | when findCeil does not return: exactly which numbers make it index past the list, and that all others keep it in its loop for ever |
| WeightedChoice.FourEntriesCanHang | pkg/router/functionHandler.go:446 | four equal weights: the draws of the upper half hang, and the last draw panics |
| WeightedChoice.FindCeil | pkg/router/functionHandler.go:437-459 | the loop itself, where it returns: the name of that entry, or no name for a number above the total |
| WeightedChoice.GetCanaryBackend | pkg/router/functionHandler.go:461-466 | the name chosen is always in the function map |
| WeightedChoice.DrawsMatchWeights | pkg/router/functionHandler.go:462-466 | of the draws 0..total, each entry is the ceiling (which findCeil picks whenever it returns, so always up to three entries) of as many as its weight, the last of one more |
| WeightedChoice.SharesAreClose | pkg/router/functionHandler.go:462-466 | each share of the draws is within 1/(total + 1) of the weight's share |
| WeightedChoice.ZeroWeightStillDrawnIffLast | pkg/router/functionHandler.go:462-466 | an entry is never drawn if and only if its weight is 0 and it is not the last |
| WeightedChoice.RolledBackIsDrawn | pkg/router/functionHandler.go:462-466 | the case of a rolled-back function listed last |
| Canary.Manager.UpdateHttpTriggerWithRetries | pkg/canaryconfigmgr/canaryConfigMgr.go:360-393 | what is stored, and what is reported, after up to ten attempts |
| Canary.Manager.UpdateStatusWithRetries | pkg/canaryconfigmgr/canaryConfigMgr.go:395-439 | the same for the status |
| Canary.ReportIsTrueIff | pkg/canaryconfigmgr/canaryConfigMgr.go:360-393 | a reported success is true if and only if some attempt was not a conflict |
| Canary.Manager.RollForwardOrBack | pkg/canaryconfigmgr/canaryConfigMgr.go:230-358 | one tick: weights, status and whether processing ends, for all answers |
| Canary.Manager.ProcessCanaryConfig | pkg/canaryconfigmgr/canaryConfigMgr.go:179-228 | the loop over the ticks that are taken, also while quit is closed and the ticker runs; none comes from a stopped ticker |
| Canary.ForwardStepMovesIncrement | pkg/canaryconfigmgr/canaryConfigMgr.go:457-481 | a forward step moves exactly the increment or ends at (100, 0); the clamp at 0 is never taken; other functions keep their weight |
| Canary.AnyForwardStep | pkg/canaryconfigmgr/canaryConfigMgr.go:457-481 | the same step for weights that do not add up or are missing, where the old function's weight may run out first |
| Canary.RollsBackIff | pkg/canaryconfigmgr/canaryConfigMgr.go:275-334 | once the new function has weight, a tick rolls back to (0, 100) and Failed if and only if more than threshold percent of its requests failed; with at most that it steps forward; without requests, or with an error, it does nothing |
| Canary.FirstStepIsForward | pkg/canaryconfigmgr/canaryConfigMgr.go:275-334 | without weight yet it is stepped forward whatever the failure rate |
| Canary.OtherTicks | pkg/canaryconfigmgr/canaryConfigMgr.go:230-273 | a tick for a config that is gone or not pending, or whose trigger cannot be read, does nothing; one whose trigger is gone closes quit |
| Canary.EndsIff | pkg/canaryconfigmgr/canaryConfigMgr.go:303-357 | which end a tick takes, by the failure rate and the weights, and by whether some of ten attempts stored each update: a rollback stops the ticker however its updates go |
| Canary.StoredIff | pkg/canaryconfigmgr/canaryConfigMgr.go:360-393 | an update is stored if and only if one of ten attempts stores it after conflicts only, and reported as done also after ten conflicts |
| Canary.EveryRunIsBalanced | pkg/canaryconfigmgr/canaryConfigMgr.go:179-228 | whatever the answers, every reachable state has both weights in [0, 100] and adding up to 100 |
| Canary.EndStateIff | pkg/canaryconfigmgr/canaryConfigMgr.go:303-356 | a tick that marks a canary Succeeded leaves weights (100, 0), and one that marks it Failed (0, 100), if and only if its weight update was not lost to ten conflicts or was not needed |
| Canary.EndingTick | pkg/canaryconfigmgr/canaryConfigMgr.go:179-228 | in every run, a canary that does not end Pending was Pending up to one tick, the last that did anything |
| Canary.RunEndsIff | pkg/canaryconfigmgr/canaryConfigMgr.go:179-356 | so in every run a canary that ends Succeeded or Failed has the weights that go with it if and only if that tick's update was not lost or not needed |
| Canary.TenConflictsSucceedAtHalf | pkg/canaryconfigmgr/canaryConfigMgr.go:360-393 | the lost case: marked Succeeded at weight 50 |
| Canary.TickMoves | pkg/canaryconfigmgr/canaryConfigMgr.go:230-358 | a tick moves the increment, or nothing, or ends the canary |
| Canary.TickPanicsIff | pkg/canaryconfigmgr/canaryConfigMgr.go:242-357 | a tick panics if and only if quit is closed and the tick closes it again |
| Canary.PanicNeedsMissingTrigger | pkg/canaryconfigmgr/canaryConfigMgr.go:242-263 | a run panics only if an earlier tick found the trigger gone |
| Canary.MissingTriggerCanPanic | pkg/canaryconfigmgr/canaryConfigMgr.go:242-263 | and it does if the tick taken next closes quit again |
| Canary.EachStepUsesIncrement | pkg/canaryconfigmgr/canaryConfigMgr.go:457-481 | all forward steps of a run but the last fit below the weight still missing |
| Canary.ForwardStepsAreBounded | pkg/canaryconfigmgr/canaryConfigMgr.go:457-481 | at most max(1, ceil((100 - w) / increment)) successful forward steps |
| FunctionServiceCache.AddKeepsAgree | pkg/executor/fscache/functionServiceCache.go:176-220 | Add keeps the three indexes in agreement, also on its early returns |
| FunctionServiceCache.TouchKeepsAgree | pkg/executor/fscache/functionServiceCache.go:233-246 | so does a touch |
| FunctionServiceCache.DeleteKeepsAgreeIff | pkg/executor/fscache/functionServiceCache.go:248-256 | DeleteEntry does, if and only if it is given an entry that is not cached any more or whose address is the cached one's, or the cached one's address leads elsewhere |
| FunctionServiceCache.EveryRunAgrees | pkg/executor/fscache/functionServiceCache.go:139-256 | so in every run with such deletes every address leads to a service with that address, and every UID to a service of that function |
| FunctionServiceCache.TouchIsExact | pkg/executor/fscache/functionServiceCache.go:233-246 | touching an indexed address succeeds and refreshes one service, which has that address |
| FunctionServiceCache.GetUIDIsExact | pkg/executor/fscache/functionServiceCache.go:155-174 | a lookup by UID finds a service of that function if and only if the UID is indexed |
| FunctionServiceCache.AddThenFind | pkg/executor/fscache/functionServiceCache.go:176-220 | a service just added is found by function, and by address and UID unless those were taken |
| FunctionServiceCache.AddAgainIsExact | pkg/executor/fscache/functionServiceCache.go:176-189 | adding a service for a cached function touches what the cached one's address leads to and answers with the cached one, refreshed only if it is that one; if the address leads nowhere it fails and changes nothing |
| FunctionServiceCache.DeleteIsExact | pkg/executor/fscache/functionServiceCache.go:248-252 | DeleteEntry drops the three keys and nothing else |
| FunctionServiceCache.DeleteUndoesAddIff | pkg/executor/fscache/functionServiceCache.go:176-256 | DeleteEntry undoes Add if and only if the address and the UID were not indexed before |
| FunctionServiceRaces.AloneIsSerial | pkg/executor/fscache/functionServiceCache.go:176-252 | the single cache operations of an Add or a DeleteEntry amount, alone, to the serial ones |
| FunctionServiceRaces.NextKeepsCoveredIff | pkg/executor/fscache/functionServiceCache.go:176-252 | of all steps of any number of interleaved Adds and DeleteEntrys, exactly those break the agreement that store an address or UID whose service is gone, or drop a service cached under another address |
| FunctionServiceRaces.RestAgreesIff | pkg/executor/fscache/functionServiceCache.go:176-252 | with no operation under way the agreement while they run is the agreement of the indexes |
| FunctionServiceRaces.EveryInterleavingAgrees | pkg/executor/fscache/functionServiceCache.go:176-252 | every interleaving in which no service is deleted while it is being added, or with another address, leaves the indexes in agreement |
| FunctionServiceRaces.RunAgreesIff | pkg/executor/fscache/functionServiceCache.go:176-252 | after any interleaving, once all is done, the indexes agree if and only if every entry that a step broke was healed since, by a delete begun for its address or UID or by its service being cached again |
| FunctionServiceRaces.DeleteInsideAddBreaks | pkg/executor/fscache/functionServiceCache.go:176-252 | for every service there is a run in which a delete falls between the first and second store of its Add, after which address and UID lead nowhere |
| FunctionServiceCache.Cache.TouchByAddress | pkg/executor/fscache/functionServiceCache.go:233-246 | the touch, through the shared object |
| FunctionServiceCache.Cache.GetByFunction | pkg/executor/fscache/functionServiceCache.go:139-153 | the lookup and its refresh, through the shared object |
| FunctionServiceCache.Cache.GetByFunctionUID | pkg/executor/fscache/functionServiceCache.go:155-174 | the same by UID |
| FunctionServiceCache.Cache.Add | pkg/executor/fscache/functionServiceCache.go:176-220 | the whole new state and the answer, with both times set after the object is shared |
| FunctionServiceCache.Cache.DeleteEntry | pkg/executor/fscache/functionServiceCache.go:248-252 | the whole new state |
| FunctionServiceCache.Cache.DeleteOld | pkg/executor/fscache/functionServiceCache.go:258-266 | deletes exactly if the object's access time, as it is now, is old enough |
| FunctionServiceCache.Cache.ListOld | pkg/executor/fscache/functionServiceCache.go:112-122 | exactly the cached objects idle for longer than the age, each once |
| FunctionServiceCache.Cache.CachedIsDeletable | pkg/executor/fscache/functionServiceCache.go:258-277 | an object that is cached, as those listed are, is always safe to delete |
| MqTrigger.Manager.AddTrigger | pkg/mqtrigger/mqtmanager.go:88-96 | a duplicate is refused and changes nothing |
| MqTrigger.Manager.DelTrigger | pkg/mqtrigger/mqtmanager.go:103-104 | removes that key and nothing else |
| MqTrigger.Manager.Wanted | pkg/mqtrigger/mqtmanager.go:153-159 | exactly the listed triggers of this manager's type, by key |
| MqTrigger.Manager.Register | pkg/mqtrigger/mqtmanager.go:164-189 | subscribes the new keys where that works, and never meets a duplicate |
| MqTrigger.Manager.RemoveOld | pkg/mqtrigger/mqtmanager.go:191-203 | removes the unlisted keys whose unsubscription worked |
| MqTrigger.Manager.SyncRound | pkg/mqtrigger/mqtmanager.go:141-203 | after a round with any failures the live subscriptions are exactly those held, one per key; which keys are held; kept triggers keep their subscription, and new ones are listed triggers of this type |
| MqTrigger.Manager.SyncTriggers | pkg/mqtrigger/mqtmanager.go:141-208 | the same over all rounds, without a duplicate ever reported |
| MqTrigger.CleanRoundConverges | pkg/mqtrigger/mqtmanager.go:141-208 | whatever failed before, a round without failures ends with exactly the wanted keys |
| MqTrigger.RoundIsExact | pkg/mqtrigger/mqtmanager.go:153-203 | after a round a key is held if a trigger of the type is listed under it and it was held or could be subscribed, or if none is and it was held and could not be unsubscribed |
| MqTrigger.HeldOnlyIfWanted | pkg/mqtrigger/mqtmanager.go:141-208 | a held key was held at first or wanted in some round; one wanted throughout is never dropped |
| Timer.LatestIsLast | pkg/timer/timer.go:93-112 | of several listed triggers with one key the last counts |
| Timer.Timer.Update | pkg/timer/timer.go:93-112 | one listed trigger: a new cron if the spec changed, the old one otherwise, and the trigger itself always |
| Timer.Timer.AddOrUpdate | pkg/timer/timer.go:91-112 | the first loop: each listed key holds the last trigger listed under it, and its cron if the spec never changed |
| Timer.Timer.RemoveUnlisted | pkg/timer/timer.go:114-123 | the second loop leaves exactly the listed items |
| Timer.Timer.SyncCron | pkg/timer/timer.go:90-126 | every cron ever started is stopped or held by one entry, each entry's cron runs with its current spec, and the keys are those of the list |
| PackageBuild.Watcher.Build | pkg/buildermgr/pkgwatcher.go:77-249 | a duplicate does nothing; otherwise exactly the writes that `Writes` gives, each stored only if the version it carries is current, the key freed on every return, on success every function that referred to another version now refers to the one the build holds, and no other function is ever updated |
| PackageBuild.Watcher.BuildLocked | pkg/buildermgr/pkgwatcher.go:89-249 | the writes and function updates of a build that holds its key |
| PackageBuild.Watcher.BuildRunning | pkg/buildermgr/pkgwatcher.go:120-249 | the same from the stored Running write on: the health checks, until one finds a builder or all are used up |
| PackageBuild.Watcher.CheckPods | pkg/buildermgr/pkgwatcher.go:133-191 | one health check: the first ready builder pod whose role binding works builds, and a pod that is not ready ends the check |
| PackageBuild.Watcher.AfterBuild | pkg/buildermgr/pkgwatcher.go:203-240 | the writes after a successful build, with the version the build holds or the one the update returned, including those after a failed listing |
| PackageBuild.Watcher.Send | pkg/buildermgr/common.go:124-167 | a write with an old version is a conflict; a stored one moves the version on |
| PackageBuild.ListingEnds | pkg/buildermgr/pkgwatcher.go:203-240 | what the package ends as after the listing, by which of the writes are accepted |
| PackageBuild.RunningEndsIff | pkg/buildermgr/pkgwatcher.go:114-249 | a package set to Running stays so if and only if the environment lookup gave an error other than not-found, or the API server refused the writes left to the build: by number, the Failed one, or the one after the package update (and, if the listing failed, both Failed ones or the Succeeded one) |
| PackageBuild.RunningAlwaysEnds | pkg/buildermgr/pkgwatcher.go:67-76 | with a found or not-found lookup and no current write refused it ends Succeeded if the build, the listing and the function updates worked, and Failed otherwise |
| PackageBuild.SucceedsIff | pkg/buildermgr/pkgwatcher.go:193-240 | a package ends Succeeded if and only if each step worked and both last writes were accepted; a failed listing prevents it unless its Failed write was lost |
| PackageBuild.SourcelessEnds | pkg/buildermgr/pkgwatcher.go:89-112 | a package without sources gets one write: none to build, or Failed if it has no deployment archive either; refused, it stays as it is |
| PackageBuild.RefusedRunningEnds | pkg/buildermgr/pkgwatcher.go:114-118 | so does one with sources whose Running write is refused |
| PackageBuild.LastWriteReports | pkg/buildermgr/pkgwatcher.go:120-240 | past its Running write a build that looked up its environment without error ends by a stored Succeeded write or a Failed one |
| PackageBuild.BuildSucceedsIff | pkg/buildermgr/pkgwatcher.go:129-201 | a build succeeds if and only if the environment is found, one of fifteen checks finds a pod with the labels of its builder, all containers ready and a role binding that works, before one that is not ready, and the builder builds |
| PackageBuild.FunctionsUpdateIff | pkg/buildermgr/pkgwatcher.go:212-229 | which function updates must work: those of the listed functions that refer to the package by name and namespace in another version |
| PackageBuild.BuildKeysAgreeIff | pkg/buildermgr/pkgwatcher.go:78-84 | builds are told apart by package name and version alone, so two namespaces can keep each other from building |
| PackageBuild.FunctionsLagBehind | pkg/buildermgr/pkgwatcher.go:212-237 | a successful build always leaves the package two versions ahead of the one its functions refer to |
| PackageBuild.FailedListingCanSucceed | pkg/buildermgr/pkgwatcher.go:205-240 | the case of a lost Failed write |
| PackageBuild.LostSuccessStaysRunning | pkg/buildermgr/pkgwatcher.go:231-237 | the case of a lost Succeeded write |
| PackageBuild.LookupErrorStaysRunning | pkg/buildermgr/pkgwatcher.go:120-137 | the case of a lookup error |
| PackageBuild.OneBuildAtATime | pkg/buildermgr/pkgwatcher.go:78-84 | in every run at most one build per key is past the de-duplication, and the key is held exactly while one is |
| EnvBuilder.SelectFinds | pkg/buildermgr/envwatcher.go:390-399 | a list call with all labels finds an object if and only if there is one |
| EnvBuilder.EnsureKeepsAtMostOne | pkg/buildermgr/envwatcher.go:325-361 | using, creating or refusing a service or deployment keeps at most one for its labels, even if the creation half fails |
| EnvBuilder.Watcher.CreateBuilder | pkg/buildermgr/envwatcher.go:319-368 | the whole new cluster state and the answer |
| EnvBuilder.Watcher.GetBuilder | pkg/buildermgr/envwatcher.go:218-236 | GET_BUILDER, including the answer without info |
| EnvBuilder.Watcher.Cleanup | pkg/buildermgr/envwatcher.go:238-297 | CLEANUP_BUILDERS: both loops, and the cache entries they drop |
| EnvBuilder.Watcher.Sync | pkg/buildermgr/envwatcher.go:194-210 | a request for each buildable environment, then a clean-up |
| EnvBuilder.EveryRunIsSound | pkg/buildermgr/envwatcher.go:214-368 | any run of requests, with any failures, keeps at most one service and one deployment per environment name, namespace and resource version |
| EnvBuilder.CleanupIsExact | pkg/buildermgr/envwatcher.go:252-296 | nothing of a listed environment is removed; nothing with an unlisted key is left when no call fails |
| EnvBuilder.CleanupDropsKeys | pkg/buildermgr/envwatcher.go:252-296 | it drops from the cache the keys of all listed services and deployments, also of those that stay, and no others |
| EnvBuilder.EnsureIsExact | pkg/buildermgr/envwatcher.go:325-361 | one object with the labels is used, none leads to a creation, more are refused |
| EnvBuilder.GetIsExact | pkg/buildermgr/envwatcher.go:226-236 | a request for a builder not cached is answered without error, and cached, if and only if its service and its deployment are each the only one or could be created; no deployment without the service |
| EnvBuilder.GetCarriesInfoIff | pkg/buildermgr/envwatcher.go:226-236 | an answer without error carries the builder if and only if it was cached before |
| EnvBuilder.NextGetCarriesInfo | pkg/buildermgr/envwatcher.go:226-236 | a creation carries none, and the same request sent again the service and deployment with the environment's labels |
| EnvBuilder.FirstGetHasNoInfo | pkg/buildermgr/envwatcher.go:226-236 | the case of an empty cluster in which every call works |
| EnvBuilder.KeysCollideIff | pkg/buildermgr/envwatcher.go:128-130 | two environments share a cache key if and only if they share a resource version and their joined names read alike |
| EnvBuilder.NamesCollide | pkg/buildermgr/envwatcher.go:128-130 | different names do read alike |
| EnvBuilder.EveryRunIsBacked | pkg/buildermgr/envwatcher.go:226-297 | where environments have their own resource versions, a cached builder has its service and deployment in the cluster, in every run |
| EnvBuilder.SyncConverges | pkg/buildermgr/envwatcher.go:181-212 | there, a synchronisation in which no call fails leaves one service and one deployment for each buildable environment and nothing for unlisted ones |
| EnvBuilder.SyncBuildsOnly | pkg/buildermgr/envwatcher.go:181-212 | whatever fails, a synchronisation makes builders only for listed environments with an image and not of version 1, in the environment's own namespace, or in the common one for "default" |
| EnvBuilder.SyncPlacesBuilders | pkg/buildermgr/envwatcher.go:181-224 | when no call fails, each of those has its service and deployment there |
| Publisher.PublishRequest.MakeHttpRequest | pkg/publisher/webhookPublisher.go:81-142 | the request's retries and delay after each kind of answer, and whether and when it is tried again |
| Publisher.DelayIsGeometric | pkg/publisher/webhookPublisher.go:131-137 | the delay after the n-th failure is retryDelay * 2^n |
| Publisher.StepKeepsInv | pkg/publisher/webhookPublisher.go:63-142 | every step keeps each event in one place, with as many retries left as it has tries to come |
| Publisher.EventsAreConserved | pkg/publisher/webhookPublisher.go:63-142 | in every run each event makes at most maxRetries requests, spaced by retryDelay * 2^k, is given up only after the last, and is in exactly one place |
| Publisher.OutcomeIsExact | pkg/publisher/webhookPublisher.go:81-142 | in every run, by the requests made for an event: it is delivered if and only if the last got a response, unbuildable if and only if the last could not be built, given up if and only if maxRetries ended in an error; after fewer errors its timer is set for retryDelay * 2^n after the n-th, and until then it is not queued |
| Publisher.QueueIsBounded | pkg/publisher/webhookPublisher.go:50-72 | the queue never holds more than 32 requests, and Publish waits exactly while it holds 32 |
| Publisher.NoEventIsStuck | pkg/publisher/webhookPublisher.go:63-142 | in every reachable state, an event that is not done waits only for the request at hand to end, for its turn in the queue, or for its own timer |
| Publisher.WorkIsBounded | pkg/publisher/webhookPublisher.go:81-142 | the retries left over queued, timed and current events bound the requests still to come |
| Publisher.PublishOrderIsKept | pkg/publisher/webhookPublisher.go:63-79 | every run keeps events not yet taken up in the order they were published |
| Publisher.SentInOrder | pkg/publisher/webhookPublisher.go:63-72 | requests are first sent in the order they were published |

## Left out

- Go memory-model races: every access to a map or field is one atomic step, as is each access to the executor's map of wait groups.
- TimedCache.Cache.HandleGet: COPY, which only reads, and the request for an unknown type are not modelled.
- ServiceUrls.FollowerFindsUrl: UIDs are unique and hold no `_`; waiters may time out at any moment, which covers every time-out value; a request to the router's cache is handled at one clock reading here.
- FunctionServiceRaces.EveryInterleavingAgrees: a service's times are set in the step that caches it, where the code sets them right after; metrics and logging are left out.
- FunctionServiceCache.EveryRunAgrees: operations run one after another; `FunctionServiceRaces` has them interleaved.
- WeightedChoice.GetCanaryBackend: asks for a list that is not empty, of non-negative weights, where the code would panic otherwise, and for a draw on which findCeil returns; the map behind it is taken in every order.
- WeightedChoice.FindCeil: asks for a number on which the loop ends inside the list; `WeightedChoice.FindCeilReturnsIff` covers the others.
- Canary.EveryRunIsBalanced: the trigger is of the function-weights type, the canary manager is the only writer of its weights, and a stopped ticker delivers no further tick, not even one already pending; adding, updating and resynchronising configs is not modelled.
- Publisher.EventsAreConserved: asks for maxRetries >= 1; the constructor fixes 10. The body of the request and its headers are not modelled.
- RoundTrip.SleepsAtMost: holds if the duration of the last round fits into 64 bits; the loop itself is modelled with wrap-around.
- MqTrigger.Manager.SyncTriggers: a network error while listing only repeats the listing and is not a round here.
- Timer.Timer.SyncCron: what a cron does when it fires is not modelled; a cron that runs counts as started.
- PackageBuild.Watcher.Build: a write that the API server reports as failed was not stored; other writers of the package show only as refused writes; the package update always changes the package, since each upload has a new archive. The sleeps between health checks and the build logs are not modelled.
- EnvBuilder.EveryRunIsSound: the builder objects there are at the start lie in the namespace that their labels name, as the ones the builder manager creates do.
- EnvBuilder.Watcher.Sync: the retries of the environment listing, and the contents of services and deployments beyond name, namespace and labels.
- Executor.SingleFlight: what createServiceForFunction does, and what the followers find in the service cache.
- The function reference resolver's cache and its lookup by name: a thin layer over the timed cache.
- The archive pruner, the paged storage scan and list differences of the storage service: plain scans that would add easy members.
- HTTP handlers, the reverse proxy, Kubernetes clients and informers, object validation, pod-spec merging, role bindings, the command line and the language environments: input and output, or not part of this model.
