# Verified model of llmgw-core

A Dafny model of the stateful protocols of llmgw-core, with proofs of what they promise:

- **OAuth flows** (`FlowStore`, `MemoryFlowStore`, `FlowRuns`, `FlowExpiry`, `FlowPhases`, `FlowCap`,
  `FlowLog`, `FlowService`, `FlowSafety`, `FlowTurns`, `FlowAnswers`, `FlowReplies`, `OAuthService`, `FlowOutcomes`). The in-memory flow
  store is a class with a heap invariant, proved equal to functions on values. The service's calls are a
  transition system: every call is a little machine, each step makes one store operation or one call of a
  driver, key hook or credential store, and the steps of any number of calls interleave in any order, under any
  clock readings. The same calls are written as methods of a class and proved to make exactly those steps.
  Device polling follows sections 3.2 and 3.5 of RFC 8628.
- **Catalogs** (`CatalogStore`, `MemoryCatalogStore`, `CatalogLog`, `CatalogService`, `CatalogSafety`,
  `CatalogTurns`, `CatalogFence`, `Catalog`). Any number of services over one store, conditional or not, with a
  discovery lock, a write lock and hard and soft generations for each key; load, snapshot, discover, commit,
  re-read and save are separate steps. Again the calls are also methods proved to make those steps.
- **Failover and health** (`ProviderErrors`, `Health`, `HealthRefinement`, `Breaker`, `Execute`, `StreamCommit`, `Guard`). The
  tracker, the breaker, the upstream stream and the committed stream are classes; the failover loop, the commit
  loop and the guard are methods with loops.
- **Converted streams** (`ChatStream`). The goroutine, the channel, the upstream, the consumer and an arbitrary
  converter as a transition system.
- **Server-sent events** (`Sse`, `SseReader`). What a byte stream means, and the two readers as loops over a
  buffered source that fragments lines as it likes. The records follow sections 9.2.5 and 9.2.6 of the WHATWG
  HTML standard, but for what the code leaves out: bare CR line ends, and dropping an unterminated last record.
- **Loss policy** (`LossPolicy`). The glob matcher as its loop with recursion, against a declarative meaning.

Time is an integer, in nanoseconds where a unit matters, and the zero time is 0. A revision is a natural number,
0 for the empty string. SHA-256 is an injective function. Drivers, discoveries, provider calls, the key hook, the
credential store, contexts and clocks answer as they like.

What an operation answers is stated a second time, apart from the functions it is proved equal to: by the fields of
the stored flow or record, and by what the outside said (`FlowAnswers`, `FlowReplies`, the contracts of
`OAuthService.Service` and `Catalog.Service`, `Execute.StopsShortForAReason`, `StreamCommit.CommitsOnFirstOutput`,
`ChatStream.EndsExactly`, `Guard.TriesExactly`, `Sse.EncodedReadsBack`).

In the two transition systems the history of a flow or a store is a sequence of events. A predicate `Kept` says
that every event was due when it happened; the invariant of all runs is that every history is kept and the store
is what its history says, and the theorems about spacing, single use and fencing are consequences of `Kept`.

## Where the code and its documentation part

- `execution/stream.go` presents a failure after output as terminal and neutral for health whatever the upstream's
  error says. The committed stream leaves an error alone that already has an `AfterOutputError` anywhere in it, and
  `ClassifyError` takes the first classifier it finds: the failure is terminal and neutral exactly when no
  `AfterOutputError` hides behind a first classifier that speaks (`StreamCommit.AfterOutputIsFinal`, with the witness
  `StreamCommit.ShadowedFailureRepeats`).
- Re-reading the frames of a record reader gives the same records except when the completed last frame is over the
  limit or its last line ends in a CR that the completion turns into a line end (`Sse.RoundTrip`, with the witness
  `Sse.LastCrIsLost`).
- `catalog/fence.go` says that a soft invalidation fences nothing. One that lands between a refresh's load and its
  snapshot does: the refresh is lost with `ErrStateChanged` although no other service wrote
  (`CatalogFence.SoftInvalidationInTheGapRefuses`). After the snapshot none does
  (`CatalogFence.SoftInvalidationsRefuseNothing`); a save is refused exactly when somebody wrote the key since its
  fence was read (`CatalogFence.RefusedExactly`).

## Exact conditions

- The sparse health tracker and a total one, which deletes nothing but on Reset, answer differently exactly when the
  policy honours waits, a wait asked for still runs and outlasts any open circuit, and a success of the key read at
  or after the end of that wait made the sparse tracker forget it (`HealthRefinement.AnswersDifferExactly`, for any
  clock). A clock that does not go back never meets that condition (`HealthRefinement.SparseAnswersAsTotal`).
- The tracker and the legacy breaker differ at one instant, the end of the open time
  (`Breaker.TrackerAgreesWithBreaker`).

## Model

| member | source | states |
|---|---|---|
| FlowTurns.EveryRunKeepsTheProtocol | oauthflow/poll.go:24-94 | in every interleaving of any Start, Poll, Complete, Callback and Get calls, under any clock readings and driver answers, every flow's history keeps the protocol and the stored flow is what its history says |
| FlowTurns.PollsAreSpaced | oauthflow/poll.go:42-74 | in every run the claims of a flow are at least the interval apart, the first at least an interval after Start, and the 5 s step more if the earlier poll's slow_down landed |
| FlowTurns.StoredScheduleNeverGoesBack | oauthflow/poll.go:46-71 | while a device flow is pending its stored interval and next poll never decrease |
| FlowTurns.AskedOncePerLandedClaim | oauthflow/poll.go:46-60 | in every run the driver is asked only after a landed claim of the same call, and once per claim |
| FlowTurns.SingleUse | oauthflow/complete.go:108-122 | over whole runs a flow has at most one successful consumption, one exchange, one credential save and one outcome |
| FlowTurns.CompleteFlowsWereSaved | oauthflow/start.go:129-156 | a stored outcome is the one its history wrote; complete under key k means a save under k succeeded, any other outcome that none did |
| FlowTurns.Claims | oauthflow/poll.go:46-59 | a claim lands only on the schedule it read, no earlier than NextPollAt, and then the driver may be asked |
| FlowTurns.Asks | oauthflow/poll.go:60-93 | the driver is asked by the call whose claim landed, once |
| FlowTurns.SlowsDown | oauthflow/poll.go:67-74 | a slow_down lands only while its own claim is the last schedule, and is dropped otherwise |
| FlowTurns.Takes | oauthflow/memory.go:133-152 | a consumption lands only on a flow never consumed, and the consumer alone holds it |
| FlowTurns.Saves | oauthflow/start.go:129-144 | only the consumer saves, once, and no key means no save and a failed flow |
| FlowTurns.Finishes | oauthflow/start.go:149-156 | only the consumer writes an outcome, once, and what it says of the save is true |
| FlowTurns.Creates | oauthflow/start.go:56-74 | a Start writes a flow nobody else holds, with its first poll an interval away, or nothing |
| FlowSafety.TurnKeeps | oauthflow/memory.go:156-171 | a step of one call leaves every other call's copy of a flow stale or true, and every other flow alone |
| FlowLog.ClaimsAreSpaced | oauthflow/poll.go:42-74 | spacing of any two claims of a kept history, with the slow_down step |
| FlowLog.FirstClaimWaits | oauthflow/start.go:63-70 | the first poll waits a full interval |
| FlowLog.SchedulesMoveForward | oauthflow/poll.go:46-71 | of two schedules of a flow the later has the longer interval and the later next poll |
| FlowLog.SlowedFollowsItsClaim | oauthflow/poll.go:67-74 | a landed slow_down lengthens its own call's claim by the step, with nothing scheduled in between |
| FlowLog.AskedOncePerClaim | oauthflow/poll.go:46-60 | the driver runs only after a landed claim of the same call, once per claim |
| FlowLog.TakenOnce | oauthflow/memory.go:143-151 | a flow is consumed at most once |
| FlowLog.SpentOnce | oauthflow/complete.go:108-122 | at most one exchange, save and outcome, by the call that consumed the flow |
| FlowLog.CompleteMeansSaved | oauthflow/start.go:129-144 | a history ends complete if and only if a save succeeded |
| FlowOutcomes.PollDecides | oauthflow/poll.go:24-94 | an undisturbed poll leaves the flow as the driver answered: pending an interval on, slowed by the step, failed, expired, or complete under the saved key |
| FlowOutcomes.CompleteDecides | oauthflow/complete.go:39-123 | an undisturbed completion fails the flow for a provider's error, a failed exchange or a failed save, and completes it under the saved key otherwise |
| FlowReplies.CompletingDecides | oauthflow/complete.go:89-108 | in any run a completion that read its flow goes on to consume it exactly if it is a pending browser or manual one whose state it matches or leaves out and a driver is offered; otherwise it ends and changed nothing |
| FlowReplies.RedirectedDecides | oauthflow/complete.go:73-108 | a callback does exactly if it is a pending browser flow, reached at its redirect URI |
| FlowReplies.PollingDecides | oauthflow/poll.go:24-45 | a poll goes on to claim exactly a pending device flow with a driver whose next poll is due |
| FlowReplies.ClaimingDecides | oauthflow/poll.go:46-59 | a claim lands exactly on the revision it read, moves the next poll one interval on, and only then is the driver asked |
| FlowReplies.AskingDecides | oauthflow/poll.go:60-93 | what a poll does next for each answer |
| FlowReplies.ViewShows | oauthflow/view.go:47-70 | what a view shows of a flow, pending and ended |
| FlowReplies.CreateAnswers | oauthflow/start.go:46-74 | a started flow's expiry, interval, first poll and redirect URI, and when the store takes it |
| FlowReplies.ResolveRefuses | oauthflow/memory.go:175-192 | ResolveState answers for the one flow the state names, and otherwise why it does not |
| FlowAnswers.GetExactly | oauthflow/memory.go:119-130 | which flow a caller gets, and what an expired one leaves |
| FlowAnswers.ConsumeExactly | oauthflow/memory.go:133-153 | when a flow is consumed, what its consumer gets and what stays stored |
| FlowAnswers.UpdateExactly | oauthflow/memory.go:156-172 | when progress is written, and that nothing else changes |
| FlowAnswers.CreateExactly | oauthflow/memory.go:79-116 | when a flow is taken in, and how it is stored and indexed |
| FlowAnswers.CreateLeavesOthers | oauthflow/memory.go:79-116 | what a Create leaves of every other flow |
| OAuthService.AloneIsARun | oauthflow/service.go:74-80 | a call on its own is a run of the transition system in which the others wait: the same store, and its events are what its flow's history gains, and no other's |
| OAuthService.Service.Poll | oauthflow/poll.go:24-94 | makes exactly a poll's steps; wrong method, consumed flow, missing driver and a poll too early leave the store as it was, each with its answer, and otherwise the claim's and the driver's answer decide view and error; complete without error exactly when it saved the credential |
| OAuthService.Service.Claim | oauthflow/poll.go:46-59 | asks the driver exactly when the flow is still as it was read; a conflict is slow_down, and a refusal of the store is returned |
| OAuthService.Service.Ask | oauthflow/poll.go:60-93 | view and error of each of the driver's answers |
| OAuthService.Service.Slow | oauthflow/poll.go:67-74 | makes the slow_down step and always reports it, with the longer interval exactly when its update landed |
| OAuthService.Service.Spend | oauthflow/complete.go:108-122 | takes the flow exactly when it is the caller's, unexpired and unconsumed, and before anything is exchanged, saved or recorded; what each refusal shows, a poll's included |
| OAuthService.Service.Use | oauthflow/complete.go:115-122 | view and error of a consumed flow by its purpose, the exchange and the save |
| OAuthService.Service.Save | oauthflow/start.go:129-144 | no key or a failed save fails the flow, and otherwise it is shown complete under its key |
| OAuthService.Service.Finish | oauthflow/start.go:149-156 | writes the outcome if it can, and shows it either way |
| OAuthService.Service.Complete | oauthflow/complete.go:39-52 | no code and no error, a device or consumed flow, a state that is not the flow's and a missing driver each leave the store as it was, take nothing and return their own error; past them the flow is taken |
| OAuthService.Service.CompleteFlow | oauthflow/complete.go:89-123 | the same of a flow that was read |
| OAuthService.Service.Callback | oauthflow/complete.go:58-87 | answers for the flow its state names, and finds nothing without one; short of a browser flow it reached at its redirect URI it takes nothing |
| OAuthService.Service.Redirect | oauthflow/complete.go:73-86 | wrong method and wrong redirect URI leave the store as it was, take nothing and return their own error |
| OAuthService.Service.Start | oauthflow/start.go:18-75 | which input, driver or store refuses, and otherwise the stored flow, field by field, shown pending |
| OAuthService.Service.Get | oauthflow/start.go:79-88 | shows the caller's own unexpired flow, an expired one as expired, and no other |
| MemoryFlowStore.MemoryFlowStore.constructor | oauthflow/memory.go:65-76 | an empty valid store with the default retention when none is given |
| MemoryFlowStore.MemoryFlowStore.Create | oauthflow/memory.go:79-116 | keeps the index invariant and does what the value operation says, error cases included |
| MemoryFlowStore.MemoryFlowStore.Get | oauthflow/memory.go:119-130 | the same for Get |
| MemoryFlowStore.MemoryFlowStore.Consume | oauthflow/memory.go:133-153 | the same for Consume: the one consumer gets the secrets, the store keeps none |
| MemoryFlowStore.MemoryFlowStore.Update | oauthflow/memory.go:156-172 | the same for Update: progress alone changes, and only on the expected revision |
| MemoryFlowStore.MemoryFlowStore.ResolveState | oauthflow/memory.go:175-192 | the same for ResolveState |
| MemoryFlowStore.MemoryFlowStore.OwnedLocked | oauthflow/memory.go:196-211 | owner check, lazy expiry and deletion past retention |
| MemoryFlowStore.MemoryFlowStore.DeleteLocked | oauthflow/memory.go:261-271 | removes a flow and its state, and nothing else |
| MemoryFlowStore.MemoryFlowStore.PurgeLocked | oauthflow/memory.go:248-259 | the loop purges all flows at once, in whatever order it visits them |
| MemoryFlowStore.MemoryFlowStore.OldestPending | oauthflow/memory.go:227-238 | the scan counts the caller's pending flows and finds their oldest |
| MemoryFlowStore.MemoryFlowStore.EvictLocked | oauthflow/memory.go:221-244 | the loop terminates and removes exactly the flows with cap - 1 newer ones or more |
| FlowRuns.RunKeeps | oauthflow/memory.go:99-114 | in every reachable store the state index is a bijection with the indexed entries, which are unconsumed; consumed entries hold no secrets; revisions and sequences never repeat |
| FlowStore.CreateKeeps | oauthflow/memory.go:79-116 | Create keeps that invariant |
| FlowStore.ConsumeKeeps | oauthflow/memory.go:133-153 | Consume keeps it |
| FlowStore.UpdateKeeps | oauthflow/memory.go:156-172 | Update keeps it |
| FlowStore.ResolveKeeps | oauthflow/memory.go:175-192 | ResolveState keeps it |
| FlowStore.OwnedKeeps | oauthflow/memory.go:196-218 | a lookup, with what it wipes or deletes, keeps it |
| FlowStore.PurgeKeeps | oauthflow/memory.go:248-259 | a purge keeps it |
| FlowStore.ResolveFindsTheFlow | oauthflow/memory.go:175-192 | ResolveState returns a flow exactly while it is stored under that state, unconsumed and unexpired, and never another |
| FlowExpiry.LazyRefinesEager | oauthflow/memory.go:196-218 | under a monotone clock every answer equals that of a store that wipes and purges at every instant |
| FlowPhases.OwnerNeverGoesBack | oauthflow/memory.go:196-211 | what a caller sees of a flow goes from pending through consumed and expired to not found, and never back |
| FlowPhases.StrangersFindNothing | oauthflow/memory.go:194-200 | a caller who did not create an id always finds nothing under it |
| FlowCap.CapHolds | oauthflow/memory.go:95-106 | under a monotone clock no caller ever has more than the cap pending, in any reachable store |
| FlowCap.CreateEvictsTheOldest | oauthflow/memory.go:95-106 | in every run under a monotone clock a landed Create forgets, besides flows past their retention, nothing while its caller has room, and otherwise exactly the caller's least pending flow by CreatedAt and sequence |
| FlowCap.EvictsExactlyTheOldest | oauthflow/memory.go:221-244 | the same of one eviction in a store within the cap, whatever order the map yields |
| FlowCap.EvictMakesRoom | oauthflow/memory.go:239-242 | after eviction there is room for one more |
| FlowCap.CreateForgetsNothingElse | oauthflow/memory.go:79-116 | a failed Create evicts nothing, and a landed one only pending flows of the same caller |
| FlowCap.PendingExactly | oauthflow/memory.go:227-238 | which flows count against a caller's cap |
| CatalogFence.EveryRunKeepsTheFence | catalog/fence.go:68-125 | in every interleaving of any services' reads, refreshes, invalidations and cached reads, the history keeps the fencing rules and the store is what its history says |
| CatalogFence.NoResurrectionAcrossProcesses | catalog/fence.go:86-119 | on a conditional store a save that did not re-read its fence lands only if no service wrote or deleted the key since its load, and no two saves land under one fence |
| CatalogFence.NoResurrectionInAService | catalog/fence.go:28-41 | rows of a discovery snapshotted before a hard invalidation are never stored after it, unless it is the only one and Rebase accepted |
| CatalogFence.SoftInvalidationsRefuseNothing | catalog/fence.go:82-103 | without other writers a refused save owes it to an invalidation between its load and its snapshot |
| CatalogFence.SoftInvalidationInTheGapRefuses | catalog/fence.go:47-56 | a run in which a soft invalidation in that gap loses a refresh |
| CatalogFence.RefusedExactly | catalog_store.go:127-138 | a save is refused exactly when somebody wrote the key since its fence was read, and stored otherwise |
| CatalogFence.ReadsLinearize | catalog/read.go:44-99 | a record returned without an error was the stored one at an instant inside the call, of this schema and discovered or empty; a read without an error has one |
| CatalogFence.DiscoversAtMostOnce | catalog/read.go:44-80 | a call discovers at most once, not at all when its load was fresh, stores nothing after a failure, and Cached does none of it |
| CatalogFence.ReadsDiscoverExactly | catalog/read.go:44-54 | in every run a read ends with the record it loaded, and no discovery, exactly when that is a served one that was observed, not before the request's bound, less than the TTL ago; otherwise it discovers |
| CatalogFence.CommitsExactly | catalog/fence.go:86-103 | in every run the invalidations since the snapshot decide: none saves under the read's own fence, soft ones alone or a single hard one Rebase accepts under the fence read anew, any other refuses |
| CatalogLog.StoredUntouched | catalog/fence.go:97-110 | a stored discovery found the key as its fence was read |
| CatalogLog.OneStorePerFence | catalog_store.go:127-138 | one fence admits one save |
| CatalogLog.HardInvalidationFences | catalog/fence.go:89-96 | a hard invalidation after the snapshot fences, but for the one Rebase accepts |
| CatalogLog.RefusedForAReason | catalog/fence.go:97-119 | who wrote the key when a save is refused |
| CatalogLog.AskedOnce | catalog/fence.go:68-73 | one discovery a call, none after a fresh load, none stored after a failure |
| CatalogSafety.TurnKeeps | catalog/service.go:63-72 | the locks make a step of one call leave the others' fences, snapshots and terms true |
| CatalogTurns.Commits | catalog/fence.go:86-103 | the generations under the write lock decide between refusing, re-reading and storing |
| CatalogTurns.Stores | catalog/fence.go:104-124 | a save lands under terms that hold, or is refused |
| CatalogTurns.Invalidates | catalog/fence.go:28-36 | an invalidation raises its generation under the write lock |
| CatalogTurns.Clears | catalog/fence.go:37-41 | and takes the catalog out of the store before it gives the lock up |
| Catalog.AloneIsARun | catalog/service.go:48-61 | a call on its own is a run in which the others hold no lock of its key and wait |
| Catalog.Service.Invalidate | catalog/fence.go:28-42 | makes exactly an invalidation's steps, and raises one generation of its key alone |
| Catalog.Service.Refresh | catalog/fence.go:47-57 | makes exactly a refresh's steps and returns what they do |
| Catalog.Service.Rediscover | catalog/fence.go:68-80 | makes snapshot, discovery and save |
| Catalog.Service.SaveEvidence | catalog/fence.go:86-103 | makes the commit, with the fence read anew where it must be |
| Catalog.Service.StoreEvidence | catalog/fence.go:104-125 | makes the save; one another write beat returns the catalog stored now |
| Catalog.Service.ReadCatalog | catalog/read.go:44-69 | makes exactly a read's steps; ends on its first load exactly when the record is served and fresh by its own fields, and otherwise asks once and returns what it then finds stored |
| Catalog.FreshMeans | catalog/read.go:101-107 | observed, not before the bound, and less than the TTL ago |
| Catalog.Service.ReadAfresh | catalog/read.go:56-68 | the discovery of a read that was not fresh, and what the read returns after it |
| Catalog.Service.Latest | catalog/read.go:57-68 | what a read returns once its discovery is over |
| Catalog.Service.Cached | catalog/read.go:73-80 | loads once and writes nothing |
| Catalog.Service.LoadKey | catalog/read.go:85-99 | the record served, if any, and the revision a save may expect |
| Catalog.Service.State | catalog/service.go:105-115 | fills a key's state when first asked, and changes no generation |
| CatalogStore.WritesAreNew | catalog_store.go:141-170 | a write gives its key a revision no key ever had and leaves every other key alone |
| MemoryCatalogStore.MemoryCatalogStore.Load | catalog_store.go:101-114 | the record, or not found with the revision a Delete left |
| MemoryCatalogStore.MemoryCatalogStore.Save | catalog_store.go:117-124 | the new record under a new revision |
| MemoryCatalogStore.MemoryCatalogStore.SaveIf | catalog_store.go:127-138 | the same only on the expected revision, and otherwise nothing |
| MemoryCatalogStore.MemoryCatalogStore.Delete | catalog_store.go:141-151 | no record and a new revision |
| Health.HealthTracker.Record | execution/health.go:208-227 | the whole map after an observation |
| Health.HealthTracker.Succeed | execution/health.go:229-239 | a success leaves at most a running cooldown |
| Health.HealthTracker.Fail | execution/health.go:241-265 | streak, class counts, last failure and open time after a failure, the window and the backoff included |
| Health.HealthTracker.Available | execution/health.go:280-304 | the answer and its deadline, changing nothing |
| Health.HealthTracker.Reset | execution/health.go:325-329 | forgets the key |
| HealthRefinement.AnswersDifferExactly | execution/health.go:208-304 | in every run, under any clock and any policies, the sparse tracker and one that holds a state for every key and deletes only on Reset answer differently exactly when a success read after its end made the sparse one forget a wait that still runs and outlasts any open circuit |
| HealthRefinement.SparseAnswersAsTotal | execution/health.go:208-304 | so under a monotone clock they always answer alike |
| HealthRefinement.SparseKnowsLess | execution/health.go:208-239 | under any clock the two trackers agree in everything but a forgotten cooldown |
| HealthRefinement.LostExactly | execution/health.go:229-239 | the cooldown is lost exactly by a success of the key since its last Reset, read when the wait was over, with no later ask that long |
| HealthRefinement.CooldownIsWhatWasAsked | execution/health.go:208-227 | a cooldown runs exactly while some upstream asked for it and nobody reset the key |
| HealthRefinement.AvailableExactly | execution/health.go:280-304 | under every policy a key is available exactly when no wait asked for runs, unless it ignores waits, whatever succeeded meanwhile, and no open circuit does |
| HealthRefinement.ClockThatGoesBack | execution/health.go:229-239 | a run with a clock that goes back in which a key is available although a wait runs |
| HealthRefinement.CooldownHolds | execution/health.go:229-239 | nothing shortens a running cooldown, a success neither |
| HealthRefinement.OpenHolds | execution/health.go:241-265 | only a success closes an open circuit |
| HealthRefinement.StreakIsSumOfClasses | execution/health.go:241-265 | the streak is the sum of its class counts, in every run |
| HealthRefinement.HoldsNoHealthyKey | execution/health.go:208-239 | the tracker never holds a plainly healthy state |
| Breaker.CircuitBreaker.Allow | router/router.go:39-54 | the breaker's answer |
| Breaker.CircuitBreaker.RecordSuccess | router/router.go:56-61 | forgets the key's failures |
| Breaker.CircuitBreaker.RecordFailure | router/router.go:63-68 | counts a failure and its time |
| Breaker.TrackerMirrorsBreaker | execution/health.go:241-265 | the tracker's state is the breaker's, event by event |
| Breaker.TrackerAgreesWithBreaker | router/router.go:39-68 | the two agree at every instant but the end of the open time, where only the breaker refuses |
| Execute.Run | execution/execute.go:125-176 | the loop's attempts, its value or error and what it told Health, for every world |
| Execute.TryCandidate | execution/execute.go:180-205 | the tries of one candidate and how they end |
| Execute.TriesBounded | execution/execute.go:180-232 | at most max(1, Attempts) tries, a repeat only after a retryable error with the caller still waiting |
| Execute.OnlyLastEnds | execution/execute.go:51-74 | only the last entry can be served or terminal |
| Execute.UnavailableExactly | execution/execute.go:88-94 | UnavailableError if and only if there are candidates and Health refuses every one |
| Execute.ToldOncePerCandidate | execution/execute.go:125-205 | Health is told once per tried candidate, but for those whose context ended or whose wait was cut |
| Execute.ToldItsOutcome | execution/execute.go:180-211 | and of nothing but that candidate's last outcome, under its key |
| Execute.StopsShortForAReason | execution/execute.go:140-205 | a candidate is left out only after one served, one's error permits neither a repeat nor another candidate, the context ended, or a wait was cut; an error that permits one is returned only when all were reached |
| Execute.TriedExactly | execution/execute.go:180-205 | a candidate is tried exactly when Health lets it be, and again exactly while its error is retryable, tries are left, the context lasts and the wait is not cut |
| StreamCommit.Commit | execution/stream.go:50-81 | what becomes of an opened stream, how much of it was read and that a stream that does not commit is closed once |
| StreamCommit.Committed.Next | execution/stream.go:95-113 | answers the next of what is pending, first the frames held |
| StreamCommit.Committed.Close | execution/stream.go:115-118 | closes the upstream once |
| StreamCommit.CommitConserves | execution/stream.go:50-113 | a committed stream yields its upstream's bytes, in order and once each, and ends as it does, a failure marked as one after output |
| StreamCommit.OutputCommits | execution/stream.go:50-81 | no frame held but the last carries output |
| StreamCommit.CommitsOnFirstOutput | execution/stream.go:50-81 | while the context lasts a stream commits on its first output frame and not before, holding exactly the non-empty frames up to it; one that ends first is committed whole, and one that fails first is broken with that error |
| StreamCommit.JudgeSettles | execution/stream.go:50-81 | the same of every stream, the context ending included |
| StreamCommit.AfterOutputIsFinal | execution/stream.go:105-157 | for every chain of wrappers, exactly when the failure a committed stream returns is terminal and neutral |
| StreamCommit.ShadowedFailureRepeats | execution/stream.go:105-111 | an upstream error for which it is not: it permits a repeat and counts against the provider |
| StreamCommit.LayersFound | provider_error.go:91-97 | what errors.As finds in an error is the first of its layers |
| StreamCommit.SaysNothingExactly | execution/health.go:208-227 | which observations no record of them ever shows |
| StreamCommit.OpenAndCommit | execution/stream.go:33-43 | opens a candidate and closes what that opened, a stream beside an error included, unless the stream commits |
| StreamCommit.TryStream | execution/execute.go:180-205 | the tries of one candidate, each with a stream of its own, every one closed but the one that serves |
| StreamCommit.ExecuteStream | execution/stream.go:31-45 | the failover loop over streams: trace, reports and error as for Execute, and an account of every stream it opened |
| StreamCommit.StreamsFailOver | execution/stream.go:31-45 | an execution over streams leaves candidates out only for the reasons Execute has |
| StreamCommit.OneStreamServes | execution/stream.go:31-81 | of all the stream objects opened, repeats included, the serving one, the last opened, is left open and delivers its upstream's bytes and end; every other one was closed once and delivers nothing |
| Guard.Run | execution/resilient_guard.go:15-81 | what a guarded operation returns, how often it tries, what it discards and how it moves its circuit, if there is one |
| Guard.RecordsItsAnswer | execution/resilient_guard.go:23-54 | an admitted operation records exactly its value, or the error it ends with as the policy reads it, and nothing when its caller left or its wait was cut |
| Guard.TriesExactly | execution/resilient_guard.go:23-54 | tries go on exactly while the error is retryable as the policy reads it, tries are left, the caller waits and no wait is cut; and the answer of the last |
| Guard.FailuresOpen | execution/resilient_guard.go:15-54 | each admitted failing operation moves the circuit once, however often it tries |
| Guard.OpenRefuses | execution/resilient_guard.go:58-75 | operations before the open time ends reach the provider zero times and record nothing |
| Guard.OpenCircuitHoldsBack | execution/resilient_guard.go:15-75 | threshold consecutive failing operations hold back every operation until the deadline |
| Guard.StreakCountsFailures | execution/health.go:63-78 | in every run of operations read the default way the streak is the number of circuit failures since the provider last answered, and the circuit opens when that reaches the threshold |
| Guard.StreakIsWindowed | execution/health.go:241-251 | with a failure window the streak is exactly the number of failures that followed each other within it |
| Guard.OnlyFailuresRefuse | execution/health.go:51-78 | an operation is refused only while a wait asked for runs, or when at least threshold operations failed the circuit since the provider last answered one, a definitive rejection included |
| ChatStream.RunKeeps | translation/chat_stream.go:63-151 | the invariant of every run of goroutine, channel, upstream and consumer |
| ChatStream.DoneMeansComplete | translation/chat_stream.go:63-78 | [DONE] is sent once, last, and only after message_stop, no error event and a proper end, unless the consumer closed |
| ChatStream.NextTellsTheTruth | translation/chat_stream.go:229-280 | without a close Next yields exactly the chunks offered before any failure, in order and once each, and ends with [DONE] or with an error, never with both |
| ChatStream.EndsExactly | translation/chat_stream.go:63-130 | a stream never closed ends well if and only if upstream sent message_stop, no error and a proper end, and then delivered its chunks, the usage asked for and [DONE]; otherwise which failure it returns |
| ChatStream.IdIsTheFirst | translation/chat_stream.go:246-259 | the usage chunk's id is the first one a chunk had |
| ChatStream.SentIsAccepted | translation/chat_stream.go:246-266 | what is sent is what the converter offered while nothing had failed |
| ChatStream.DeliveredInStep | translation/chat_stream.go:261-280 | at every moment all but the one frame under way was delivered |
| ChatStream.LinesInOrder | translation/chat_stream.go:83-115 | the converter is handed the upstream's lines in order and once each |
| ChatStream.UsageIsUpToDate | translation/chat_stream.go:66-73 | in every run the usage chunk stands just before the end and carries the counts reported |
| ChatStream.CountsAreTheLastReported | translation/chat_stream.go:134-144 | each count is the last one reported under its name, whatever later reports leave out |
| Sse.Conservation | providers/wire_sse.go:68-104 | the input is the concatenation, in order, of skipped and emitted pieces; frames end in a blank line and are at most the limit plus two bytes |
| Sse.RoundTrip | providers/wire_sse.go:68-104 | re-reading the frames gives the same records if and only if the completed last record fits and keeps its meaning |
| Sse.LastCrIsLost | providers/wire_sse.go:68-104 | an input on which it does not |
| Sse.ScanIsLocal | providers/wire_sse.go:68-104 | a block ended by a blank line does not depend on what follows it |
| Sse.EncodedReadsBack | providers/wire_sse.go:68-104 | a sequence of events written as data lines reads back as each event's own text and bytes, up to the first over the limit |
| Sse.ParseExactly | providers/wire_sse.go:86-91 | which lines carry data, and which data |
| Sse.ContentExactly | providers/wire_sse.go:77-80 | what a line says without its line ending |
| SseReader.ReadBoundedLine | providers/wire_sse.go:34-46 | the line read does not depend on how the buffer fragments it |
| SseReader.RecordReader.Next | providers/wire_sse.go:68-104 | reads the next record of the input's meaning, the end, or its error |
| SseReader.RecordReader.NextData | providers/wire_sse.go:109-116 | reads the next record's data |
| SseReader.FrameReader.Next | extension/stream.go:52-88 | the second copy reads the same records |
| LossPolicy.MatchLossPath | loss_policy.go:114-136 | terminates, and answers true exactly when the path splits into one block for each pattern segment |
| LossPolicy.MatchesConcat | loss_policy.go:114-136 | p ++ q matches exactly when some cut gives p the front and q the back |
| LossPolicy.AdjacentStarsCollapse | loss_policy.go:114-136 | adjacent ** are as good as one |
| LossPolicy.RuleApplies | loss_policy.go:101-112 | a rule applies by code and path |
| LossPolicy.Decide | loss_policy.go:70-80 | the action of the first rule that applies |
| LossPolicy.DecisionIsUnique | loss_policy.go:70-80 | there is only one such action |
| LossPolicy.Rejected | loss_policy.go:83-91 | the losses rejected, in order and with repeats |
| LossPolicy.RejectedExactly | loss_policy.go:83-91 | a loss is among them exactly when the policy rejects it |
| LossPolicy.Check | loss_policy.go:94-99 | fails exactly when some loss is rejected |

## Left out

- Store entries are values in a map, not heap objects of their own: cloning and aliasing of flows and catalog rows are not modelled.
- Revisions, sequences and generations are unbounded: the wrap-around of uint64 counters is not modelled.
- Flow methods other than browser, device and manual, which the service refuses before it does anything.
- NewID is taken to return a fresh id; its randomness is not modelled.
- Trimming of Complete and Callback inputs, of the instance and of catalog keys: the theorems hold for all inputs, the trimmed ones among them. Blank knows ASCII white space, NEL and NBSP only.
- The record a credential save stores, and the arguments a driver sees: only that, when and how often they are called.
- A context is a flag each step reads anew, so a run may see it end and not end; this allows more runs than the code has.
- Service clock readings are arbitrary; the store's are after the zero time. Expiry, phases and the cap need a monotone clock, spacing and single use none.
- Catalog diagnostics, and the TTL per instance beyond a function of service and instance.
- A conditional store other than the in-memory one, and a store that fails for other reasons than an ended context.
- Request.Rebase is an answer, not a function that could call back.
- Breaker, tracker and guard run one operation at a time: their mutexes make each method atomic.
- Errors are finite trees of wrappers; an error with Is or As methods of its own is not modelled.
- ExponentialBackoff: floating point; a policy's backoff is an arbitrary function of the key and the streak.
- Execute.Run: durations in the trace and the redaction of messages are not modelled.
- StreamCommit.CommitConserves: for streams with finitely many items; one that never shows output never commits.
- ChatStream.NextTellsTheTruth: the converter is taken to return only after it was told that there are no more lines, to pull no line after that, and never to offer a "[DONE]" chunk of its own; losses and the chunk rewriting are not modelled.
- Health.HealthTracker.Fail: failure classes are counted in a multiset.
- HTTP clients, JSON, multipart, headers, llm-translate, tokenstore and browseroauth are not part of this model: I/O and mappings, which appear as arbitrary answers.
- transport_plan.go, PublishExactTargets, wire_preserving.go, catalog page walks and providers/registry.go: small decision functions and field validation that would only add easy members.
- Runtime.bind: its settings snapshot is taken outside the lock and promises nothing strong.
