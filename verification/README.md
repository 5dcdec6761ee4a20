# gamewire-worker: a verified model

gamewire-worker is the ingestion engine of a football platform. It polls a provider under a
daily call quota, backfills whole seasons in resumable runs, publishes one fact per finished
match, consumes facts from Redis streams, mirrors images into a bucket and streams workflow
progress to its callers. Almost all of its difficulty is concurrency and resumption, so this
project models those parts and proves what holds over every interleaving, every run and every
failure pattern.

`dafny verify dfyconfig.toml` checks everything.

## How the program is modelled

- **Asynchronous code** is cut at its awaits. Everything between two awaits is one atomic step,
  and a schedule is any sequence of steps of any number of concurrent calls. `FetchPipeline`,
  `EmitOnce`, `AssetManifest`, `StreamQueue` and `WorkerPool` are such transition systems.
- **Sequential code that mutates state** is a class whose methods carry the source's fields and
  loops. Each method is proved equal to a specification function, and the theorems are about
  those functions (`BackfillRun`, `StreamConsumer`, `RatingConsumer`, `FixtureLifecycle`, `Sweep`,
  `PagedDiscovery`, and the small stores).
- **The outside world** (provider, Redis, bucket, identity service, handlers, clock, abort
  signal) is a parameter: a function or a step argument that may answer anything, including
  every failure. The writes whose reply can be lost after they were carried out (markers and
  stream appends, acks and dead letters, rating calls, bucket objects, backfill cursors) have
  both cases.
- **What an operation answers** is told from what the run met (replies, statuses seen, entries read,
  the clock), with the statuses, reasons and times of the source written out, and the theorem ties
  the answer to that.
- **Properties that only hold under a condition** are stated as equivalences with the exact
  condition. Where a comment of the source promises more, a run from an initial state shows the
  difference; the section below names both.

| file | part of the program |
|---|---|
| `Quota`, `ProviderCache`, `Singleflight`, `IngestionMetrics` | the four shared objects of the fetch pipeline |
| `FetchPipeline`, `FetchTheorems`, `FetchAccounting`, `FetchRuns`, `FetchAnswers` | `fetchWorkload` as a transition system: exclusion, spacing, quota conservation, draining, what callers are told |
| `Degrade`, `SeasonBackfill`, `BackfillRun`, `BackfillLedger`, `BackfillExactlyOnce`, `BackfillRepeats`, `BackfillProgress`, `BackfillLimits`, `BackfillReport` | the resumable season backfill: specification, the imperative workflow, budget, exactly-once import, repeats after a crash, termination, exact overrun and where it stops short, the report |
| `BoundedSet`, `EmitOnce`, `EmitOnceRuns`, `EmitOnceStatus` | the emit-once publisher, its marker stores, and which statuses it publishes |
| `AttemptCounter`, `StreamConsumer`, `StreamAccounting`, `StreamHandling` | the Redis stream consumer |
| `RatingConsumer` | the rating consumer |
| `AssetManifest`, `AssetTasks` | the asset mirror, its racing manifest updates, and how each task ends |
| `StreamQueue`, `WorkerPool` | the NDJSON wakeup queue and the bounded worker pool |
| `FixtureLifecycle`, `PagedDiscovery`, `SweepDiscovery`, `Sweep`, `SweepReport` | lifecycle routing, paged discovery, the missing-payload sweep with its own discovery and its report |
| `Slugify`, `AsciiText`, `Tally`, `Wrappers` | slugs, and shared helpers |

## Where the code and its comments differ

The model follows the code.

- A backfilled fixture makes five fetches, so a run can overrun its ceiling by up to four calls,
  not two (`src/workflows/season-backfill.ts:448-450`). `BackfillLedger.BudgetOverrunsByAtMostFour`
  is the bound. `BackfillLimits.FixtureOverrunsIff` says exactly when two suffice for a fixture in
  flight, whatever the provider answers, `BackfillLimits.OverrunIsAtMostTwoIff` when they suffice
  for a calm run of one season, and `BackfillLimits.ThreeCallsBecomeSeven` is a run that takes four.
- A hard cap in the middle of a fixture still moves the cursor past it
  (`src/workflows/season-backfill.ts:461-472`). `BackfillExactlyOnce.HardCapStillAdvancesTheCursor`
  says exactly when a fixture got all its fetches; in `BackfillLimits.HardCapSkipsFourFetches` it
  gets one of five and the season is complete.
- A season discovery without data is recorded as a complete, empty season
  (`src/workflows/season-backfill.ts:419-429`): `BackfillExactlyOnce.DiscoveryWithoutDataCompletesTheSeason`,
  and the run `BackfillLimits.DiscoveryWithoutDataReportsComplete`.
- With `maxCallsPerRun` of one an undiscovered season never starts, because the standings mark is
  not stored before discovery (`src/workflows/season-backfill.ts:370-382`):
  `BackfillProgress.RunMakesProgressIff` and `BackfillProgress.CeilingOfOneNeverStarts`, with the
  runs `BackfillLimits.OneCallNeverDiscovers`.
- `refund` takes its window from the clock, not from the reservation
  (`src/worker/quota.ts:207-214`), so a refund after midnight loses a unit:
  `FetchRuns.QuotaIsConservedIffNoRefundStraddlesMidnight`, and the run
  `FetchRuns.StraddlingRefundLosesAUnit`.
- Cached-only mode is a report; it stops no provider call (`src/worker/ingestion.ts:361-390`): by
  `FetchRuns.CallGoesOutIffWithinTheHardCap` the hard cap alone decides, and in the run
  `FetchRuns.CachedOnlyRunCalls` a call goes out in that mode.
- `observe` is described as never throwing (`src/worker/match-concluded-publisher.ts:484-489`).
  `EmitOnce.ObserverThrowsIff` says exactly when it does, and when it leaves its marker behind, which
  blocks the fixture (`EmitOnceRuns.HeldThrowBlocksTheFixture`); the runs are
  `EmitOnceRuns.UndatedFixtureThrowsHoldingTheMarker` and
  `EmitOnceRuns.FailedRollbackThrowsHoldingTheMarker`.
- The marker store is to make a fixture publish once (`src/worker/match-concluded-publisher.ts:213-218`).
  A published fixture loses its marker when a bounded store evicts it, when it expires or its
  process restarts, or when an append whose reply was lost is rolled back, and in no other way
  (`EmitOnceRuns.PublishedAtMostOnce`); without it the fixture can be published again
  (`EmitOnceRuns.UnguardedPublishesAgain`), as the runs `EmitOnceRuns.EvictionPublishesTwice` and
  `EmitOnceRuns.LostAppendPublishesTwice` do.
- The comment in `mirrorOne` says the next mirror pass reconciles a missing manifest entry
  (`src/worker/asset-mirror.ts:500-502`); an object that is present is skipped before the manifest
  is read. `AssetManifest.PassReachesTheManifestIff` says when a pass gets there,
  `AssetManifest.HolesAreNeverHealed` that no schedule ever records the image, and
  `AssetManifest.FailedManifestWriteLeavesAHole` is a run that makes such a hole.
- The stream is said to always close with a `completed` line (`src/worker/http.ts:171-177`); it
  does exactly when every error met can be turned into a reason, and the line is last exactly when
  nothing is logged after it: `StreamQueue.CompletedIffErrorsPrint`, `StreamQueue.OneCompletedLine`,
  with the runs `StreamQueue.UnprintableErrorIsSilent` and `StreamQueue.StrayLineComesLast`.
- A failed stream entry is left for a claim sweep (`src/worker/redis-stream-consumer.ts:569-571`), but
  the loop reads new entries only and retries nothing by itself:
  `StreamAccounting.FewDeliveriesExhaustNothing`, and the run `StreamAccounting.FailedEntryStaysPending`.
- The page loop of the unscoped sweep is to gather ids up to its limit
  (`src/workflows/sweep-missing-payloads.ts:183-188`) and has no page ceiling:
  `SweepDiscovery.UsefulPagesEnd` bounds it when every page but the last holds a usable id, and
  against the server of `SweepDiscovery.BarrenPagesNeverEnd` it runs for ever.
- A sweep whose last fixture reports the hard cap does not report `aborted`
  (`src/workflows/sweep-missing-payloads.ts:475-479`): `Sweep.AbortOnTheLastFixtureIsNotReported`, and
  the run `Sweep.CappedSweepReportsCompleted`.

## Model

| member | source | states |
|---|---|---|
| `Quota.InMemoryQuotaStore.Increment` | src/worker/quota.ts:47-51 | the window's counter moves by the delta, never below zero, other windows untouched, and the new total is returned |
| `Quota.RedisQuotaStore.Increment` | src/worker/quota.ts:93-103 | the raw counter moves by the delta, also below zero; a positive one also sets the expiry; the reply is clamped at zero |
| `Quota.RedisQuotaStore.Read` | src/worker/quota.ts:105-112 | a missing or negative counter reads as zero |
| `Quota.RedisQuotaStore.DropExpired` | src/worker/quota.ts:96-101 | the server drops exactly the windows whose expiry has come |
| `Quota.WindowOutlivesItsDay` | src/worker/quota.ts:75-80 | with the default time to live a window counted at some moment is still there for the rest of its UTC day and half of the next |
| `Quota.ProviderQuotaTracker.Reserve` | src/worker/quota.ts:170-200 | over either store: a non-positive cost is an error; allowed iff the total answered stays within the hard cap; a denial leaves every window counting as before and reports the count without itself |
| `Quota.ProviderQuotaTracker.Refund` | src/worker/quota.ts:207-214 | over either store: gives the cost back to the window of the moment of the refund and to no other |
| `Quota.ProviderQuotaTracker.CurrentSnapshot` | src/worker/quota.ts:159-163 | over either store: a snapshot reads the current window and changes nothing |
| `Quota.ProviderQuotaTracker.ReserveThenRefund` | src/worker/quota.ts:170-214 | over either store: a granted reservation and its refund cancel out iff both fall on the same UTC day |
| `Quota.DeniedReservationPosture` | src/worker/quota.ts:176-186 | a denied reservation reports the hard cap iff the count it found was at the cap, and always at unit cost |
| `Quota.MemoryIsReflectedRedis` | src/worker/quota.ts:43-112 | over any increments, the in-memory counter is the raw counter reflected at its lowest point |
| `Quota.StoresAgreeIffNeverNegative` | src/worker/quota.ts:43-112 | the two stores hold the same number iff no refund ever went below zero |
| `ProviderCache.InMemoryProviderCache.Get` | src/worker/cache.ts:48-60 | answers an unexpired entry, deletes an expired one, touches no other key |
| `ProviderCache.InMemoryProviderCache.Set` | src/worker/cache.ts:62-72 | stores until now plus the TTL; a non-positive TTL deletes |
| `ProviderCache.SetThenGet` | src/worker/cache.ts:48-72 | a value set is read back exactly until its expiry |
| `ProviderCache.LazyExpiryShowsIffClockWentBack` | src/worker/cache.ts:54-57 | deleting expired entries on read can be noticed later only if the clock runs backwards |
| `Singleflight.Singleflight.Do` | src/worker/singleflight.ts:19-34 | joins the key's running flight, or starts and registers a new one; only the starter runs the loader |
| `Singleflight.Singleflight.Settle` | src/worker/singleflight.ts:25-30 | settling removes the key's entry iff it still belongs to this flight |
| `Singleflight.SettleThenJoin` | src/worker/singleflight.ts:19-34 | after its own flight settles, a key starts afresh; a foreign settlement leaves the entry in place |
| `IngestionMetrics.IngestionMetrics.RecordProviderCall` | src/worker/metrics.ts:45-48 | the workload and the endpoint tables both stay the exact tables of the calls recorded |
| `IngestionMetrics.IngestionMetrics.RecordOutcome` | src/worker/metrics.ts:58-60 | the outcome counters stay the exact table of the outcomes recorded |
| `FetchPipeline.CacheKeyIsInjective` | src/worker/ingestion.ts:519-521 | two requests share a cache key only if they are the same workload and resource, colons or not |
| `FetchTheorems.StepKeepsSlots` | src/worker/ingestion.ts:336-510 | every step keeps the in-flight map and the running flights in one-to-one agreement, and callers on flights of their own key |
| `FetchTheorems.StepKeepsSpacing` | src/worker/ingestion.ts:301-510 | every step keeps cached responses spaced by their expiry, and no flight past its second read before the newest expiry |
| `FetchRuns.OneFlightPerKey` | src/worker/singleflight.ts:19-34 | in every interleaving at most one loader per cache key is running |
| `FetchRuns.CallersShareTheFlight` | src/worker/singleflight.ts:19-34 | everyone who joined a flight gets that flight's verdict, and flights never outnumber cache misses |
| `FetchAnswers.CacheAnswersTheLastResponse` | src/worker/ingestion.ts:309-511 | in every schedule a cache read answers the last body the provider gave for the key, exactly for the documented time of its workload, and nothing else |
| `FetchAnswers.ServedIsTheNewestResponse` | src/worker/ingestion.ts:311-336 | a request is served iff the newest response of its key has not expired at its arrival, and then with that body; otherwise it joins a flight |
| `FetchAnswers.CallersAreToldWhatTheirFlightMet` | src/worker/ingestion.ts:336-511 | each caller that joined a flight is told what that flight met: the response it found, the refusal of its own reservation, or the reply to its own call with its body; each outcome has that one cause |
| `FetchRuns.CallWaitsForExpiry` | src/worker/ingestion.ts:340-393 | a provider call never starts before the newest cached response of its key has expired |
| `FetchRuns.CachedFetchesAreSpaced` | src/worker/ingestion.ts:301-512 | N cached fetches of one key started within T ms satisfy (N - 1) x least TTL x 1000 <= T |
| `FetchAccounting.StepKeepsBooks` | src/worker/ingestion.ts:314-484 | the metrics counters always equal what callers and flights have done |
| `FetchAccounting.ResumeBalances` | src/worker/ingestion.ts:361-470 | each resumption of a loader moves the meter by the change in what it owes, except a refund on another day |
| `FetchAccounting.StepConservesIff` | src/worker/quota.ts:170-214 | a step from a conserved state conserves the meter iff it is not a straddling refund, and then keeps grants within the cap |
| `FetchRuns.QuotaIsConservedIffNoRefundStraddlesMidnight` | src/worker/ingestion.ts:361-510 | throughout a run every window reads settled calls plus reservations in flight plus denials not yet given back, iff no refund lands on another UTC day; grants then stay within the hard cap |
| `FetchRuns.ReserveBeforeMidnight` | src/worker/quota.ts:170-200 | a run that reserves in the last millisecond of a day |
| `FetchRuns.StraddlingRefundLosesAUnit` | src/worker/quota.ts:207-214 | from an empty worker, reserved before midnight and skipped after it: a unit stays on the old day that nobody owes |
| `FetchRuns.CallGoesOutIffWithinTheHardCap` | src/worker/ingestion.ts:361-400 | a flight that found nothing cached calls the provider iff its own increment stays within the hard cap, whatever happens meanwhile and whatever the soft cap says |
| `FetchRuns.CachedOnlyRunCalls` | src/worker/ingestion.ts:361-400 | a run in which the provider call is out while the snapshot reports cached-only mode |
| `FetchRuns.QuiescentMeterEqualsProviderCalls` | src/worker/metrics.ts:45-60 | with nothing in flight, the meter over all days equals the provider-call counter |
| `FetchRuns.PipelineDrains` | src/worker/ingestion.ts:301-512 | without new requests, every schedule is bounded by a measure that each step lowers |
| `FetchRuns.NoCallerIsStuck` | src/worker/ingestion.ts:301-512 | while work is left, some caller or flight can step |
| `Degrade.MostRestrictiveIsJoin` | src/workflows/degrade.ts:200-214 | the scan returns an observed action that none of the others outranks |
| `Degrade.JoinNeverRelaxes` | src/workflows/degrade.ts:200-214 | joining observations into a mode never relaxes it, and aborts iff one of them does |
| `Degrade.MostRestrictiveIff` | src/workflows/degrade.ts:200-214 | the scan answers an action iff it is observed, or nothing is, and nothing observed outranks it |
| `Degrade.FlagsNameTheirAction` | src/workflows/degrade.ts:32-170 | a handler raises a flag iff it does not just continue, and the flag names its action |
| `Degrade.CountDecidesTheAction` | src/workflows/degrade.ts:32-54 | the count of the day decides the action and the flag: abort from the hard cap on, cached-only from the soft cap on |
| `SeasonBackfill.FinalisedIdsAreExact` | src/workflows/season-backfill.ts:757-787 | exactly the non-empty ids of fixtures that stand at FT, AET, PEN, WO or AWD, each once |
| `SeasonBackfill.FinalisedIdsKeepOrder` | src/workflows/season-backfill.ts:757-787 | in provider order |
| `SeasonBackfill.ResolvedTargetsAreDistinct` | src/workflows/season-backfill.ts:647-691 | each usable candidate once, none lost |
| `SeasonBackfill.ResolutionIsExact` | src/workflows/season-backfill.ts:647-713 | each target once, and exactly those with a positive league and season that the request names, by league id or else by the last catalogue entry of its key, or, if it names none, that the filtered catalogue lists with its own or the requested seasons |
| `SeasonBackfill.ResolutionKeepsOrder` | src/workflows/season-backfill.ts:647-691 | a target keeps the place of its first mention: one more asked target, catalogue entry or season only appends |
| `SeasonBackfill.TargetsShareNoFetch` | src/workflows/season-backfill.ts:132-138 | two targets never ask for the same standings or season list, and never one for the other's, so they share no cache entry and no flight |
| `BackfillRun.CollectFinalisedIds` | src/workflows/season-backfill.ts:757-787 | the loop over the response computes that list |
| `BackfillRun.ResolveTargets` | src/workflows/season-backfill.ts:647-713 | the loops over explicit targets, or over the filtered catalogue and its seasons, compute the resolved targets of the request |
| `BackfillRun.Backfill.LoadCursor` | src/workflows/season-backfill.ts:715-748 | a foreign or stale record reads as no cursor, and with reset the cache is not asked |
| `BackfillRun.Backfill.AccumulateResult` | src/workflows/season-backfill.ts:282-312 | one result is budgeted, counted as used iff fetched, logged, flagged and joined into the mode |
| `BackfillRun.Backfill.ProcessOneFixture` | src/workflows/season-backfill.ts:510-562 | five fetches in order, cut after the first that aborts or throws |
| `BackfillRun.Backfill.WalkFixture` | src/workflows/season-backfill.ts:455-472 | one fixture and its checkpoint, as specified |
| `BackfillRun.Backfill.Walk` | src/workflows/season-backfill.ts:443-473 | the walk stops on budget, abort or throw and nowhere else |
| `BackfillRun.Backfill.RunTarget` | src/workflows/season-backfill.ts:271-486 | one target: cursor, standings, discovery, walk, summary |
| `BackfillRun.Backfill.RunAll` | src/workflows/season-backfill.ts:180-220 | the loop over targets with the shared budget and the abort and halt flags |
| `BackfillLedger.BudgetOverrunsByAtMostFour` | src/workflows/season-backfill.ts:176-220 | whatever is answered, an invocation budgets at most four calls over its ceiling; totals are the sums over targets; no target uses more than it budgets |
| `BackfillLedger.LaterTargetsSpendNothing` | src/workflows/season-backfill.ts:181-186 | after an abort or exhaustion, the remaining targets make no call and write no cursor |
| `BackfillReport.TotalsTell` | src/workflows/season-backfill.ts:172-235 | calls budgeted and used, error lines, flags and final quota are those of all the results an invocation was given, in order, and it is aborted iff one of them reports the hard cap |
| `BackfillReport.ReportMatchesTheCache` | src/workflows/season-backfill.ts:180-251 | without a crash there is one summary a target, in order, saying what the stored cursor says, and as many fixtures processed as checkpointed; complete iff no result reports the hard cap and every stored cursor is at its end |
| `BackfillExactlyOnce.CheckpointConsumesOne` | src/workflows/season-backfill.ts:468-472 | a checkpoint consumes exactly the fixture between two cursors |
| `BackfillExactlyOnce.SessionIsFaithful` | src/workflows/season-backfill.ts:146-249 | one invocation, crashed or not, extends what each cursor has consumed by exactly the fixtures it checkpointed |
| `BackfillExactlyOnce.FixturesAreImportedExactlyOnce` | src/workflows/season-backfill.ts:395-473 | over any sequence of non-reset invocations, the fixtures checkpointed for a season are exactly the stretch of its list between the first and the last cursor, in order |
| `BackfillExactlyOnce.ConsumedHasNoRepeats` | src/workflows/season-backfill.ts:757-787 | so no fixture is imported twice |
| `BackfillRepeats.CrashRepeatsAtMostOneFixture` | src/workflows/season-backfill.ts:443-472 | the fixtures begun are those saved and, beside them, at most one torn fixture per crashed invocation, each the next one due of its target at that moment |
| `BackfillRepeats.BegunWalksTheList` | src/workflows/season-backfill.ts:443-472 | per target the fixtures begun walk its list from the first cursor to the last, none skipped, standing still at most once per crash |
| `BackfillExactlyOnce.EachFixtureGetsFiveFetches` | src/workflows/season-backfill.ts:510-562 | over an invocation the fetches are five per fixture begun, but for the last one of an abort or crash |
| `BackfillExactlyOnce.FixtureCutIff` | src/workflows/season-backfill.ts:510-562 | a fixture gets all its fetches iff none of its answers before the last reports the hard cap |
| `BackfillExactlyOnce.HardCapStillAdvancesTheCursor` | src/workflows/season-backfill.ts:461-472 | the cursor moves over a fixture whether or not it got all its fetches |
| `BackfillExactlyOnce.DiscoveryWithoutDataCompletesTheSeason` | src/workflows/season-backfill.ts:419-429 | a season is complete right after discovery iff its list shows no finalised fixture or came without data |
| `BackfillProgress.CalmTarget` | src/workflows/season-backfill.ts:318-473 | without aborts and throws, a target advances by ceil(budget / 5) fixtures, or is discovered if the budget is at least two |
| `BackfillProgress.CalmRunMeasure` | src/workflows/season-backfill.ts:180-227 | over any list of targets a calm run lowers the pair (undiscovered targets, fixtures left) or changes no cursor |
| `BackfillProgress.RunMakesProgressIff` | src/workflows/season-backfill.ts:180-227 | a calm run on incomplete targets lowers that measure iff its ceiling is at least two or the first incomplete target is discovered; it reports complete iff all are |
| `BackfillProgress.CeilingOfOneNeverStarts` | src/workflows/season-backfill.ts:370-382 | with a ceiling of one call, an undiscovered first target is never discovered, however many runs |
| `BackfillProgress.CompleteTargetIsLeftAlone` | src/workflows/season-backfill.ts:318-325 | a complete season costs no fetch and no checkpoint |
| `BackfillProgress.SeasonRunsAdvance` | src/workflows/season-backfill.ts:443-473 | k calm runs of a discovered season move its cursor by k times ceil(max / 5), up to its end |
| `BackfillProgress.SeasonCompletesWithin` | src/workflows/season-backfill.ts:176-227 | a season of n fixtures is complete after 1 + ceil(n / ceil(max / 5)) calm runs |
| `BackfillProgress.CalmRunsComplete` | src/workflows/season-backfill.ts:180-227 | whatever the targets, finitely many calm runs with ceilings of at least two complete them all |
| `BackfillLimits.CalmRunSpends` | src/workflows/season-backfill.ts:328-473 | a calm run of one season spends two calls on an undiscovered one and five on each fixture it takes |
| `BackfillLimits.OverrunIsAtMostTwoIff` | src/workflows/season-backfill.ts:445-453 | the documented two calls over the ceiling hold iff fixtures run out first or the calls left for fixtures are not one or two over a multiple of five; otherwise the exact overrun |
| `BackfillLimits.FixtureOverrunsIff` | src/workflows/season-backfill.ts:445-472 | in any run, a fixture begun with r calls left ends at most two over the ceiling iff r is three or more, one of its first r + 2 calls reports the hard cap or throws, or the call after them throws |
| `BackfillLimits.OneCallNeverDiscovers` | src/workflows/season-backfill.ts:370-382 | from an empty cache, any number of runs with a ceiling of one leaves a season undiscovered |
| `BackfillLimits.ThreeCallsBecomeSeven` | src/workflows/season-backfill.ts:445-453 | from an empty cache a ceiling of three spends seven |
| `BackfillLimits.HardCapSkipsFourFetches` | src/workflows/season-backfill.ts:461-472 | a run in which a fixture gets one fetch and its season is complete and aborted |
| `BackfillLimits.DiscoveryWithoutDataReportsComplete` | src/workflows/season-backfill.ts:419-429 | a run that reports complete after two calls and no fixture |
| `EmitOnce.SpellingDoesNotMatter` | src/worker/match-concluded-publisher.ts:134-148 | padding and casing of a status never change its classification |
| `EmitOnceStatus.ClassificationIsExact` | src/worker/match-concluded-publisher.ts:134-148 | a status is a result iff it is some padding and casing of FT, AET or PEN, void iff of PST, ABD, AWD or WO, and otherwise nothing |
| `EmitOnceStatus.NotTerminalIff` | src/worker/match-concluded-publisher.ts:523-528 | in any schedule an observation ends as not terminal iff its status spells none of the seven |
| `EmitOnceStatus.TerminalFixtureIsPublished` | src/worker/match-concluded-publisher.ts:523-583 | a dated fixture with one of the seven and no marker, its requests carried out, sets its marker, appends its key once and ends as published |
| `EmitOnceStatus.AnsweredObservationIsPublished` | src/worker/match-concluded-publisher.ts:523-583 | in any schedule such an observation can only end as published |
| `EmitOnceStatus.FactNamesTheStatus` | src/worker/match-concluded-publisher.ts:616-666 | however the status is spelt, the fact and its id name the plain one, with a void reason iff there is no result |
| `EmitOnce.KeysAreDistinct` | src/worker/match-concluded-publisher.ts:280-282 | marker keys of different fixtures differ when provider ids hold no colon |
| `BoundedSet.MarkKeepsDistinct` | src/worker/match-concluded-publisher.ts:253-266 | a mark adds its key and forgets at most one other, the oldest, exactly when the store is full |
| `EmitOnce.InMemoryEmittedFixtureStore.MarkEmitted` | src/worker/match-concluded-publisher.ts:253-266 | wins iff the key was absent; the bounded insertion-ordered set afterwards |
| `EmitOnce.InMemoryEmittedFixtureStore.ClearEmitted` | src/worker/match-concluded-publisher.ts:268-270 | removes that key and nothing else |
| `EmitOnce.RedisEmittedFixtureStore.MarkEmitted` | src/worker/redis-emitted-fixture-store.ts:103-113 | SET NX: wins iff the key was absent; a rejected call has set it or not |
| `EmitOnce.RedisEmittedFixtureStore.ClearEmitted` | src/worker/redis-emitted-fixture-store.ts:115-117 | DEL: answered or not, the key goes iff the call was carried out |
| `EmitOnce.RedisEmittedFixtureStore.Expire` | src/worker/redis-emitted-fixture-store.ts:103-113 | expiry drops that key alone |
| `EmitOnce.RedisIsTheUnboundedStore` | src/worker/redis-emitted-fixture-store.ts:98-131 | mark, clear and expiry of the Redis store are those of the unbounded insertion-ordered set, key for key |
| `EmitOnce.FinalIsEndOf` | src/worker/match-concluded-publisher.ts:530-602 | where an observer ends, and whether it published, as a table of its three answers and the marker it finds |
| `EmitOnce.ObserverThrowsIff` | src/worker/match-concluded-publisher.ts:530-602 | observe rejects iff its mark is unanswered, or it wins and is undated, or it wins and neither its append nor its clear is answered; and exactly when that leaves a marker behind |
| `EmitOnce.ObserverEndsAsAnswered` | src/worker/match-concluded-publisher.ts:530-602 | in any schedule an observer ends where its own answers and the store at its mark put it, whatever the others do |
| `EmitOnceRuns.StepKeepsMarkersIff` | src/worker/match-concluded-publisher.ts:530-602 | a step, its reply lost or not, keeps markers and owners in agreement iff the store forgets nothing by it: no eviction, no expiry |
| `EmitOnceRuns.StepKeepsGuardedIff` | src/worker/match-concluded-publisher.ts:530-602 | a step keeps every published fixture behind its marker iff it forgets nothing and rolls back no append that landed |
| `EmitOnceRuns.StepKeepsRecorder` | src/worker/match-concluded-publisher.ts:530-602 | the stream and the counters always say what the observers did |
| `EmitOnceRuns.PublishedAtMostOnce` | src/worker/match-concluded-publisher.ts:530-602 | under every interleaving markers match owners and guard what is published, throughout, iff nothing is evicted, expires or is rolled back after landing; each fixture is then on the stream at most once |
| `EmitOnceRuns.UnguardedPublishesAgain` | src/worker/match-concluded-publisher.ts:530-602 | and from any state without its marker a fixture can be published once more in four steps |
| `EmitOnceRuns.RedisForgetsOnlyByExpiry` | src/worker/redis-emitted-fixture-store.ts:103-117 | with Redis markers the store forgets exactly what expires |
| `EmitOnceRuns.LargeEnoughStoreNeverForgets` | src/worker/match-concluded-publisher.ts:232-247 | a memory store with room for every fixture observed forgets nothing |
| `EmitOnceRuns.MarkerHasOneOwner` | src/worker/match-concluded-publisher.ts:530-602 | a marker is held iff exactly one observer owns it: publishing, published, or thrown and leaving it behind |
| `EmitOnceRuns.FailedPublishIsRetryable` | src/worker/match-concluded-publisher.ts:584-600 | a rollback of an append that did not land clears only its own marker and leaves the fixture unpublished, unowned and winnable |
| `EmitOnceRuns.HeldThrowBlocksTheFixture` | src/worker/match-concluded-publisher.ts:537-587 | an observer that throws leaving its marker blocks its fixture: the stream holds at most what it appended itself, for good |
| `EmitOnceRuns.UndatedFixtureThrowsHoldingTheMarker` | src/worker/match-concluded-publisher.ts:553-561 | from an empty store, observing a fixture whose time cannot be printed ends in a throw, its marker in the store, nothing published or counted |
| `EmitOnceRuns.FailedRollbackThrowsHoldingTheMarker` | src/worker/match-concluded-publisher.ts:584-600 | from an empty store, a failed append and a failed rollback end the same way |
| `EmitOnceRuns.EvictionPublishesTwice` | src/worker/match-concluded-publisher.ts:258-263 | from an empty store with room for one marker, any two fixtures give a schedule that publishes the first twice |
| `EmitOnceRuns.LostAppendPublishesTwice` | src/worker/match-concluded-publisher.ts:565-600 | from an empty store of any kind, a lost append reply and its rollback give a schedule that publishes the fixture twice |
| `AttemptCounter.IncrementCounts` | src/worker/redis-stream-consumer.ts:186-197 | an increment adds one to its event, keeps the size bound, and forgets at most the oldest other event |
| `AttemptCounter.ResetForgetsOnly` | src/worker/redis-stream-consumer.ts:199-201 | a reset forgets that event and no other |
| `AttemptCounter.InMemoryAttemptCounter.Increment` | src/worker/redis-stream-consumer.ts:186-197 | returns the new count and leaves the counter so |
| `StreamConsumer.RedisStreamConsumer.SafeXAckOf` | src/worker/redis-stream-consumer.ts:633-648 | an ack that is carried out moves the entry from pending to acked, reply lost or not |
| `StreamConsumer.RedisStreamConsumer.DeadLetterOf` | src/worker/redis-stream-consumer.ts:574-631 | no reset and no ack unless the dead letter is confirmed |
| `StreamConsumer.RedisStreamConsumer.Handle` | src/worker/redis-stream-consumer.ts:490-572 | one entry: malformed, handled, failed or exhausted, as specified |
| `StreamConsumer.RedisStreamConsumer.HandleBatch` | src/worker/redis-stream-consumer.ts:479-486 | the batch loop, which looks at the abort signal before each entry |
| `StreamConsumer.RedisStreamConsumer.Tick` | src/worker/redis-stream-consumer.ts:445-488 | the subscriptions in order, a failed read skipping only its own |
| `StreamAccounting.EntryLeavesPendingIff` | src/worker/redis-stream-consumer.ts:490-631 | an entry leaves the pending list iff its ack arrives after a handler success or a confirmed dead letter; no other entry is touched |
| `StreamAccounting.EntryFiles` | src/worker/redis-stream-consumer.ts:574-600 | a dead letter carries its entry's own stream, id and reason, and is written iff due and the write happens |
| `StreamAccounting.CountsAreKeptPerFact` | src/worker/redis-stream-consumer.ts:494-520 | deliveries of one fact share their count under whatever stream ids, also one that only its event id still names; without either, each stream entry counts for itself |
| `StreamAccounting.EntryKeepsCounts` | src/worker/redis-stream-consumer.ts:523-572 | counts never exceed the failures behind them, and exact counts stay exact iff nothing is forgotten |
| `StreamAccounting.NothingIsLost` | src/worker/redis-stream-consumer.ts:445-647 | over any run each delivered entry is pending or acked, and an acked one was handled or is on the dead-letter stream under its own id |
| `StreamAccounting.ExhaustionNeedsFailures` | src/worker/redis-stream-consumer.ts:566-568 | a retries_exhausted dead letter follows at least maxRetries failures of its event with no success or confirmed dead letter between |
| `StreamAccounting.ExactCountsFileOnTime` | src/worker/redis-stream-consumer.ts:566-568 | while nothing is forgotten, an event is due exactly at its maxRetries-th failure in a row |
| `StreamAccounting.FewDeliveriesExhaustNothing` | src/worker/redis-stream-consumer.ts:445-488 | an event delivered fewer than maxRetries times in a run is never dead-lettered for exhausted retries |
| `StreamHandling.BatchTakesUpToTheAbort` | src/worker/redis-stream-consumer.ts:479-486 | the entries of an answered read are handled in order, each once, up to the first look that finds the abort signal set, and all of them if there is none |
| `StreamHandling.ReachedEntryIsHandled` | src/worker/redis-stream-consumer.ts:479-571 | an entry got to whose handler succeeds counts as handled, and is off the pending list if its ack is carried out |
| `StreamHandling.TickTakes` | src/worker/redis-stream-consumer.ts:446-487 | a tick reads for each subscription in order and handles what the reads bring, a failed one nothing, to the end or to the first look that finds the abort signal set |
| `StreamHandling.EveryEntryIsHandled` | src/worker/redis-stream-consumer.ts:446-487 | over any run that meets no abort, what is handled is exactly what the answered reads bring, in order |
| `StreamHandling.CountersTellWhatWasHandled` | src/worker/redis-stream-consumer.ts:489-571 | after any run the received and outcome counters and the set of handled entries are exactly those of the entries got to and of what their handlers answered |
| `StreamHandling.NothingBroughtIsSkipped` | src/worker/redis-stream-consumer.ts:446-571 | so without an abort they are those of everything the reads bring |
| `StreamAccounting.FailedEntryStaysPending` | src/worker/redis-stream-consumer.ts:445-488 | an entry whose handler fails once is pending after any number of further ticks, with no dead letter |
| `StreamAccounting.EveryEntryHasOneOutcome` | src/worker/redis-stream-consumer.ts:490-572 | received equals ok plus error plus malformed for every fact type; dead letters counted never exceed those written; the counter stays bounded |
| `StreamAccounting.AbortLeavesTheRestPending` | src/worker/redis-stream-consumer.ts:479-486 | entries of a batch not reached before an abort stay pending |
| `RatingConsumer.RatingConsumer.Try` | src/worker/rating-consumer.ts:437-517 | the retry loop stops at the first success or permanent error, or after one attempt more than there are delays |
| `RatingConsumer.RatingConsumer.Handle` | src/worker/rating-consumer.ts:375-549 | one event from receipt to outcome, as specified |
| `RatingConsumer.EndingHasAttempts` | src/worker/rating-consumer.ts:437-517 | the attempts used, and the answer that ended them |
| `RatingConsumer.OutcomeOfAnEvent` | src/worker/rating-consumer.ts:375-549 | each of the five outcomes characterised by type, parse, dedupe and the first answer that is not transient |
| `RatingConsumer.EventAccounts` | src/worker/rating-consumer.ts:375-549 | captured once iff the outcome is a dead letter; at most one call more than there are retries |
| `RatingConsumer.EachEventTells` | src/worker/rating-consumer.ts:375-549 | every event adds to counters, applied ratings and dead letters exactly what the answers to its own calls call for, each dead letter with its rating, reason and attempts |
| `RatingConsumer.ReceivedIsTheSumOfOutcomes` | src/worker/rating-consumer.ts:115-170 | over any run received is the sum of the five outcome counters, and the sink shows the latest dead letters |
| `RatingConsumer.EventRemembersIff` | src/worker/rating-consumer.ts:243-268 | an event keeps the dedupe store truthful iff it evicts nothing |
| `RatingConsumer.AppliedAtMostOnce` | src/worker/rating-consumer.ts:422-455 | with events handled one after another, the store remembers exactly what was applied iff it forgets nothing, and each rating is then applied at most once |
| `RatingConsumer.LargeEnoughStoreNeverEvicts` | src/worker/rating-consumer.ts:243-268 | a store with room for every rating id that comes in forgets none |
| `RatingConsumer.UnrememberedIsApplied` | src/worker/rating-consumer.ts:422-455 | a rating the store does not remember is applied when the service records it, applied before or not |
| `RatingConsumer.EvictionAppliesTwice` | src/worker/rating-consumer.ts:255-266 | with room for one id, the events a, b, a apply a twice |
| `RatingConsumer.RecordingsAreAppliedOrLost` | src/worker/rating-consumer.ts:437-517 | over any run the service has recorded a rating as often as it was applied, and once more per carried-out call whose reply was lost |
| `RatingConsumer.RecordedAtMostOnceIff` | src/worker/rating-consumer.ts:437-517 | while nothing is forgotten a rating is recorded at most once iff at most one call for it was carried out |
| `AssetManifest.ObjectKeysDiffer` | src/worker/asset-mirror.ts:142-143 | different images get different object keys |
| `AssetManifest.ImagesAreNotTheManifest` | src/worker/asset-mirror.ts:142-143 | no image key is the manifest key |
| `AssetManifest.ObjectKeysAreReadable` | src/worker/asset-mirror.ts:142-143 | an image lies under the folder of its type with its entity id and extension, where the consumer looks |
| `AssetManifest.PatchConverges` | src/worker/asset-mirror.ts:541-568 | a patch records its image, keeps the bespoke layer and every other entity, and is idempotent |
| `AssetManifest.ManifestStaysSound` | src/worker/asset-mirror.ts:351-590 | under every race and failure, every provider entry stored or held names an object already in the bucket |
| `AssetManifest.SerialPatchesLoseNothing` | src/worker/asset-mirror.ts:541-590 | when no read falls into another task's read-to-write window, the manifest is the landed patches applied in order |
| `AssetManifest.LastPatchStands` | src/worker/asset-mirror.ts:541-590 | the last landed patch of an entity is what such a manifest says of it |
| `AssetManifest.LandingKeepsOthersIff` | src/worker/asset-mirror.ts:541-590 | a landing write keeps what is stored of the other entities iff its snapshot still agreed there |
| `AssetManifest.RacingPatchesDropOne` | src/worker/asset-mirror.ts:533-539 | from an empty bucket, two overlapping passes over different entities: one entry is lost, its object there and its pass done |
| `AssetManifest.HolesAreNeverHealed` | src/worker/asset-mirror.ts:406-432 | an object in the bucket that the manifest does not record stays unrecorded after any schedule |
| `AssetManifest.PassReachesTheManifestIff` | src/worker/asset-mirror.ts:406-514 | a pass in which nothing fails gets to the manifest iff its object was not in the bucket at its HEAD, and is skipped otherwise |
| `AssetManifest.FailedManifestWriteLeavesAHole` | src/worker/asset-mirror.ts:500-514 | from an empty bucket, a failed manifest write leaves such an object |
| `AssetTasks.TaskEndsAsAnswered` | src/worker/asset-mirror.ts:351-590 | however tasks race, a task ends as it was answered: each result has one cause, and a task that is done has stored its object and landed its patch |
| `StreamQueue.WorkflowStreamQueue.PushLine` | src/worker/http.ts:118-124 | accepted in order and wakes the consumer, or dropped after the close |
| `StreamQueue.WorkflowStreamQueue.CloseQueue` | src/worker/http.ts:126-132 | closes once and wakes the consumer |
| `StreamQueue.WorkflowStreamQueue.Next` | src/worker/http.ts:142-156 | delivers the oldest line, reports the end, or suspends |
| `StreamQueue.NoLineIsLost` | src/worker/http.ts:113-158 | delivered then queued lines are the accepted ones; a suspended consumer has nothing to read and an open queue |
| `StreamQueue.OneCompletedLine` | src/worker/http.ts:186-252 | a closed stream holds exactly one announcement, or none if the error handler threw; it is last iff nothing was logged after it |
| `StreamQueue.CompletedIffErrorsPrint` | src/worker/http.ts:227-250 | the announcement is there iff every error met could be printed, toWire throwing or not |
| `StreamQueue.UnprintableErrorIsSilent` | src/worker/http.ts:239-250 | a run that closes without a completed line |
| `StreamQueue.StrayLineComesLast` | src/worker/http.ts:206-215 | a run whose last line is a log line after the completed one |
| `StreamQueue.LateLinesAreDropped` | src/worker/http.ts:118-124 | nothing logged after the close reaches the consumer |
| `StreamQueue.ConsumerReadsWhatWasSaid` | src/worker/http.ts:186-252 | what is accepted is what was said before the close, line for line, what is read is a prefix of it, and `completed` carries ok iff a resolved run could be put on the wire |
| `StreamQueue.SettledRunCloses` | src/worker/http.ts:227-252 | a run that resolves can go on to say so and close, and one that rejects to report it and close |
| `StreamQueue.ClosedStreamDrains` | src/worker/http.ts:142-156 | after the close, one poll a line and one more read everything accepted |
| `WorkerPool.SharedPool.TakeNext` | src/worker/ingestion.ts:1221-1228 | a worker skips undefined items and takes the next defined one |
| `WorkerPool.SharedPool.StartWorkers` | src/worker/ingestion.ts:1216-1221 | max(1, min(limit, n)) workers start in order; an empty list starts none |
| `WorkerPool.SharedPool.CallbackSettles` | src/worker/ingestion.ts:1221-1234 | a settled callback, thrown or not, frees its worker for the next item |
| `WorkerPool.StartedInOrderWithinTheLimit` | src/worker/ingestion.ts:1211-1237 | in every schedule items start once each in index order, never more than the limit in flight, and no worker idles while items are left |
| `WorkerPool.ResolvesExactlyWhenAllSettled` | src/worker/ingestion.ts:1211-1237 | the pool resolves iff every defined item has settled, after exactly that many settlements |
| `FixtureLifecycle.LiveSet.UpsertFixtures` | src/worker/ingestion.ts:576-608 | the loop records each observation and counts the ids added |
| `FixtureLifecycle.LiveSet.IdsInPhase` | src/worker/ingestion.ts:613-624 | the ids in the wanted phases, in order |
| `FixtureLifecycle.LiveSet.PruneSettledFixtures` | src/worker/ingestion.ts:634-655 | deleting from the live set while walking it leaves exactly the unsettled ids and their records |
| `FixtureLifecycle.PhasesPartition` | src/worker/ingestion.ts:1034-1063 | every tracked id is in exactly one phase; one never observed is settled |
| `FixtureLifecycle.PhasesMoveForward` | src/worker/ingestion.ts:1034-1063 | time alone moves a fixture forward only, and never into the post-final phase |
| `FixtureLifecycle.SettledExactlyAfter` | src/worker/ingestion.ts:1034-1063 | the exact moment from which a record is settled; a live or undated one never is |
| `FixtureLifecycle.RecordsTellTheFinalRun` | src/worker/ingestion.ts:576-597 | over any run, the recorded status is the last one named and finalSinceMs the first sighting of the unbroken final run, set iff the status is final |
| `FixtureLifecycle.SeenFixturesAreRoutedOnTime` | src/worker/ingestion.ts:613-624 | over any run a fixture seen is polled by the one phase that its last status, kickoff and final run call for: live while in play, post-final for 25 minutes, else by the kickoff clock at 90 and 5 minutes before and 210 after |
| `FixtureLifecycle.PruneLeavesNothingSettled` | src/worker/ingestion.ts:634-655 | right after a prune no tracked id is settled, and the rest is kept with its record |
| `PagedDiscovery.ClampLimit` | src/workflows/competition-payload-backfill.ts:83-88 | between 0 and 500, and zero exactly for a fraction below one |
| `PagedDiscovery.SelectCompetitionFixtures` | src/workflows/competition-payload-backfill.ts:132-150 | the first `limit` wanted entries, in order |
| `PagedDiscovery.AllWantedAreWanted` | src/workflows/competition-payload-backfill.ts:142-148 | wanted means a fixture id and a candidate competition |
| `PagedDiscovery.PagesAnswer` | src/workflows/competition-payload-backfill.ts:236-293 | searching page by page finds what selection finds in the whole list, fails iff a request fails before the limit is met, reads no page after that, and counts exactly the pages and entries it read, with the highest total they named |
| `PagedDiscovery.DiscoverPages` | src/workflows/competition-payload-backfill.ts:236-293 | the loop is that search, its error and its four counts included |
| `PagedDiscovery.DiscoverCompetitionFixtures` | src/workflows/competition-payload-backfill.ts:236-293 | so within fifty requests, with the same list and counts; truncated iff fifty pages ended neither the list nor the search |
| `PagedDiscovery.TargetResolvesIff` | src/workflows/competition-payload-backfill.ts:164-180 | an explicit league id wins; otherwise a run starts iff the catalogue lists the key |
| `SweepDiscovery.TakeIds` | src/workflows/sweep-missing-payloads.ts:230-237 | from one page, the first non-empty ids there is room for, in order |
| `SweepDiscovery.Discover` | src/workflows/sweep-missing-payloads.ts:211-243 | the page loop, turn by turn, as the theorems use it |
| `SweepDiscovery.FindsTheFirstUsableIds` | src/workflows/sweep-missing-payloads.ts:189-247 | whatever the server answers, the ids found are the first usable ones of the pages read, never more than the limit |
| `SweepDiscovery.TurnEndsIff` | src/workflows/sweep-missing-payloads.ts:211-243 | a turn ends the loop iff the limit is met, the request fails, or the page is empty or names no next one |
| `SweepDiscovery.UsefulPagesEnd` | src/workflows/sweep-missing-payloads.ts:211-243 | if every page but the last holds a usable id, the loop ends within one turn more than its limit |
| `SweepDiscovery.BarrenPagesNeverEnd` | src/workflows/sweep-missing-payloads.ts:211-243 | a server whose pages hold no usable id and always name a next page keeps the loop running for ever |
| `Sweep.RunSweep` | src/workflows/sweep-missing-payloads.ts:475-522 | the fixture loop and the status, as specified |
| `Sweep.AccumulateResult` | src/workflows/sweep-missing-payloads.ts:413-474 | the accumulate closure, as specified |
| `Sweep.SweepAccounts` | src/workflows/sweep-missing-payloads.ts:413-502 | processed is ok plus empty plus skipped plus failed, and the mode is the join of everything observed |
| `Sweep.FetchedIffNoAbortBefore` | src/workflows/sweep-missing-payloads.ts:475-501 | a fixture is fetched iff none before it reported the abort posture |
| `Sweep.DenialEndsTheSweep` | src/workflows/sweep-missing-payloads.ts:475-479 | a denied reservation of one call ends the sweep at its fixture |
| `Sweep.StatusMeans` | src/workflows/sweep-missing-payloads.ts:505-522 | completed iff everything landed, aborted iff stopped early or nothing landed, partial iff all were processed and some landed |
| `SweepReport.ReportTells` | src/workflows/sweep-missing-payloads.ts:405-502 | each fixture fetched is counted under what came back for it, and messages, flags and last quota are those of exactly these fixtures, in order |
| `SweepReport.StatusTells` | src/workflows/sweep-missing-payloads.ts:505-522 | aborted iff a fixture before the last hit the hard cap or none brought data; completed iff none before the last hit it and all brought data |
| `SweepReport.ModeTells` | src/workflows/sweep-missing-payloads.ts:413-474 | the mode is abort iff a fixture hit the hard cap, else cached-only iff one was limited to the cache, else skip-non-essential iff one was rate-limited |
| `Sweep.AbortOnTheLastFixtureIsNotReported` | src/workflows/sweep-missing-payloads.ts:475-510 | the abort posture on the last fixture does not make the sweep report aborted |
| `Sweep.CappedSweepReportsCompleted` | src/workflows/sweep-missing-payloads.ts:475-510 | a sweep of one fixture that lands on the hard cap reports completed |
| `Sweep.DedupedKeepsAll` | src/workflows/sweep-missing-payloads.ts:295-300 | an explicit list keeps each non-empty id once |
| `Sweep.DedupedKeepsOrder` | src/workflows/sweep-missing-payloads.ts:295-300 | an id keeps the place of its first mention |
| `Sweep.ExplicitListIsTheFirstIds` | src/workflows/sweep-missing-payloads.ts:290-300 | the sweep gets the first of these ids, as many as its limit |
| `Sweep.ExecutedBackfillSweepsEveryMatch` | src/workflows/competition-payload-backfill.ts:521-532 | the executed competition backfill sweeps every matched fixture id once |
| `Slugify.SlugAlphabet` | src/adapters/api-football/adapter.ts:2505-2512 | slugs are written in the 26 small letters and the ten digits |
| `Slugify.FoldedAlphabet` | src/adapters/api-football/adapter.ts:2505-2512 | the 26 capitals, and only they, are folded into their small letters |
| `Slugify.SlugJoinsWords` | src/adapters/api-football/adapter.ts:2505-2512 | a slug is the runs of letters and digits of the folded text joined by single hyphens, with none at either end |
| `Slugify.SlugIsIdempotent` | src/adapters/statsbomb-open/game.ts:119-126 | a text is its own slug iff it has that form, so slugging twice changes nothing |

## Left out

- The expiry of backfill cursors (7 days) and of the provider cache in Redis; marker expiry is a step that may happen at any time, and quota expiry an operation of the store.
- The Redis variants of the provider cache and of its failures inside `fetchWorkload`; a loader that throws because the store is down.
- Quota gauges and the hit ratio in the metrics; log contents everywhere.
- The constructor check that the soft cap does not exceed the hard cap: no theorem needs it, so none assumes it.
- `maxCallsPerRun` as a fraction: the model takes integers.
- A target whose league or season is not an integer; the labels of targets in summaries.
- The shape test on a stored cursor: a record of another shape is one opaque foreign value; version, league and season are compared as in the source.
- `RatingConsumer.AppliedAtMostOnce`: `applied` is what the consumer was told; events are handled one after another; two concurrent events of one rating can both pass the dedupe check, as in the source.
- `StreamAccounting.NothingIsLost`: the deliveries of one read are one flat list, not grouped by stream, and overlapping ticks are not modelled, since `run` refuses a second start.
- `StreamQueue.NoLineIsLost`: one consumer; two concurrent `next` calls would share one waiter.
- `FixtureLifecycle.RecordsTellTheFinalRun`: team ids and the bootstrap list, which ride along with the tracked set, are not part of this model.
- `Slugify.SlugJoinsWords`: Unicode decomposition is taken as done, and case folding covers ASCII; the StatsBomb copy of the function is the same text and shares the model.
- `EmitOnce.SpellingDoesNotMatter`: trimming and upper case on ASCII only.
- `EmitOnceStatus.ClassificationIsExact`: on ASCII too; `EmitOnceStatus.FactNamesTheStatus` covers the id, the status and the void reason of the fact, not its other fields.
- `BackfillReport.ReportMatchesTheCache`: runs without `reset`; with it a target may keep an old cursor in the cache that its summary no longer reads.
- `WorkerPool.StartedInOrderWithinTheLimit`: the limit is an integer; a limit that is not a number would start no worker.
- The kind, provider and date filters of the unscoped sweep's requests, which the server applies; `SweepDiscovery.Discover` is driven for a number of turns, since the loop need not end.
- A logger that throws: `observe` logs inside its try block, so a throwing logger would roll back a published fixture.
- The per-minute pacing and sleeps between fetches and retries, which change no state.
- Occurrence ids and the field mapping of the two adapters, protobuf construction, identity and game-service calls, HTTP routing and request parsing, configuration, and the other workflows, which repeat the accumulate-and-abort pattern of the backfill and the sweep.
