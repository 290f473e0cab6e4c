# Verified model of the AWS cost exporter

The exporter keeps paid AWS calls off the scrape path: background jobs collect
partial results, a copy-on-write store merges them, and Prometheus reads the merged
snapshot. This project models six parts of it in Dafny and proves what they promise
for every input, every run and every reachable state.

* **Snapshots, store and exposition** (`Snapshots`, `Orders`, `Uniqueness`, `Exposition`, `Scrapes`,
  `Collisions`, `Walks`, `Stores`, `AccountPolicy`, `Caches`, `Store`, `Isolation`, `Conservation`,
  `Readiness`). All seven record
  families are one sum type, so uniqueness, merging, policy and counting are proved for
  all of them at once. Go's map order is an arbitrary enumeration; a run is a sequence
  of `Publish` and `RecordFailure` calls; uniqueness keys are the real `|`-joined strings.
* **Scheduler** (`Scheduling`, `SchedulingTheorems`, `Runner`, `Retrying`). Two
  goroutines per job, channels as counters, and any enabled atomic step may come next.
  `Runner` is the shared memory, each of whose operations is one step.
* **Target verifier** (`Verifying`, `Verifier`). Any number of callers, an arbitrary
  identity service, credential source and nondecreasing clock; one step per critical
  section.
* **Limiters and budgets** (`Limiters`, `TagLimits`, `Budgets`, `TagCollector`,
  `CurCollector`, `CurBudget`, `CurExactness`).
* **Readers** (`Athena`, `Pagination`, `Aggregation`, `Usage`) against servers that may
  answer anything.
* **Backoff** (`Jitter`).

`Text`, `Bags`, `Ranking`, `Grouping` and `Domain` hold what these share: Go's string
order and trimming, sequences up to permutation, stable sorting by a comparator's
compared fields, group-by with a map of lists, and the domain values.

Methods are the source's loops and state changes, each proved equal to a specification
function or against an independent predicate; lemmas state what follows. `dafny verify
dfyconfig.toml` checks everything.

## What the proofs found

* **Shutdown can hang.** `Run` is documented to wait for complete cancellation
  (`internal/scheduler/runner.go:122`). A worker may leave on cancellation while a
  reference is queued; its deferred `clearRunning` then lets one more tick through, whose
  send blocks for ever. `ShutdownCanHang` reaches such a state under every configuration.
  After a cancellation the danger lasts exactly as long as some ticker has not stopped whose
  worker has not returned, or has returned and left a reference behind
  (`ShutdownIsSafeIffNobodyCanHang`); a complete wind-down stays possible exactly until a
  send has blocked (`ShutdownCompletesIffNoSendIsBlocked`).
* **Series can be counted twice.** The collectors' series counts equal the snapshot's
  exactly when no exposed account is claimed by two collectors of its target; otherwise the
  sum is too large (`SeriesAreConserved`). Two accepted publishes are enough
  (`SeriesCanBeCountedTwice`). The exporter's own wiring does not reach this: only
  `internal/collector/organizationmeta/collector.go:38` publishes accounts, with one fixed
  collector name and one job per target (`internal/app/bootstrap.go:167-184`). A second kind
  of collector that publishes a target's accounts would.
* **The uniqueness check trusts the records.** It looks at a forecast's mean only, at a
  total's value although that is no label, and at a tag window that is exported as one of
  two. A snapshot that passes it shows every series once if and only if no two forecasts of
  one source share the currency of a bound, no two exported totals differ in their values
  alone, and no two tag costs in their windows alone (`ExposedOnceIff`);
  `UniquenessNeedsWellFormedRecords` is a pair of forecasts that pass and collide. The
  exporter's readers build no such records: `MapForecast` reads all three amounts with one
  unit, `NewDimension` gives totals no value, and tag queries use the two known windows.
* **Target names must not shadow each other.** Two targets can interfere in the uniqueness
  check if and only if one's name followed by `|` begins the other's
  (`TargetsInterfereIff`). Configured target names cannot contain a `|`.
* **The tag overflow label is not reserved.** `LimitValues` can emit it twice
  (`OverflowLabelCanCollide`); `LimitKeepsTagLabelsIff` says exactly when it does not.
* **Aggregation ignores provider and basis when it sorts.** Its output is strictly ordered,
  and the only possible one, if and only if no dimension and currency occur under two
  providers or bases (`AggregateIsStrictIff`, `AggregateIsDeterminedIff`); one service under
  two bases loses both (`MixedBasesLoseTheOrder`). `MapUsage` maps one provider and basis at
  a time, so its rows always meet the condition.
* **The series budgets are exact.** What a configuration allows is never exceeded
  (`TagBudgetSuffices`, `CurBudgetSuffices`), and a configuration is refused for its budget
  only if some answer would exceed the limit (`TagBudgetIsExact`, `TagLimitIsExact`,
  `CurLimitIsExact`).

## Model

| member | source | states |
|---|---|---|
| `Domain.NewDimension` | internal/domain/cost/dimension.go:33-54 | which kind and value pairs are refused, that only totals go without a value, and that a blank region is global |
| `Domain.MoneyRoundTrips` | internal/domain/cost/money.go:28-39 | money made once can be made again from its parts unchanged, whatever space surrounded its currency |
| `Domain.AddUpIff` | internal/domain/cost/money.go:62-71 | adding a list up succeeds exactly when it is all of one currency, and yields the total in it |
| `Ranking.SortOrders` | internal/domain/snapshot/snapshot.go:41-74 | the sort yields an order in which no later element ranks before an earlier one |
| `Ranking.SortIsStable` | internal/domain/snapshot/snapshot.go:41-74 | elements tied under the comparator keep their relative order |
| `Ranking.SortForgetsOrder` | internal/domain/cost/snapshot.go:112-133 | without ties the sorted sequence is the same for every arrangement of the input |
| `Orders.CostRankIs` | internal/domain/cost/snapshot.go:112-133 | the rank compares target, provider, basis, window, kind, value, currency and start, in this order |
| `Orders.TagRankIs` | internal/domain/tagcost/tagcost.go:21-43 | the rank compares the tag cost's fields in the comparator's order |
| `Orders.SnapshotsAreSorted` | internal/domain/snapshot/snapshot.go:41-74 | every family of a new snapshot is in its comparator's order, field after field |
| `Text.LessIff` | internal/domain/cost/snapshot.go:112-133 | a text is less iff it is a proper prefix or has the smaller character where they first differ |
| `Text.TrimMeaning` | internal/domain/cost/money.go:28-39 | trimming cuts all space at both ends and nothing else |
| `Snapshots.MergeKeepsRecords` | internal/domain/snapshot/snapshot.go:77-95 | merging loses, invents and duplicates no record of any family |
| `Walks.MergeAll` | internal/domain/snapshot/snapshot.go:77-95 | the append loops and sorts compute the merge |
| `Walks.AddKey` | internal/domain/snapshot/snapshot.go:258-266 | the seen set and the valid flag say exactly whether the keys offered so far are distinct |
| `Walks.ValidateUnique` | internal/domain/snapshot/snapshot.go:250-323 | accepts exactly when all identities are bounded and all keys of all records are pairwise different; what that means record by record is `Uniqueness.UniqueIff` |
| `Uniqueness.UniqueIff` | internal/domain/snapshot/snapshot.go:250-323 | without a delimiter in any text, a snapshot passes iff identities are bounded and no two records of a family agree in the fields named one by one (two costs: target, provider, basis, window, kind, value, currency): nothing else is refused |
| `Uniqueness.UniqueRecordsIff` | internal/domain/snapshot/snapshot.go:250-323 | the same of any list of records, as merging and isolation use it |
| `Text.JoinInjective` | internal/domain/snapshot/snapshot.go:267-318 | joined texts without the delimiter are equal only if they are the same texts |
| `Walks.ValidatePartial` | internal/domain/snapshot/snapshot.go:228-247 | accepts exactly when every record of every family belongs to the target and costs, forecasts and tag costs have one of the two providers and three bases |
| `Walks.CountSeries` | internal/domain/snapshot/snapshot.go:184-225 | the running count is the sum of every record's series |
| `Walks.Collect` | internal/metrics/cost.go:120-172 | the visitor loops push exactly the records' samples: each indexed cost once under its family and labels with its amount, forecast bounds 0, 1 and 2 with mean, lower and upper, every other family field by field, nothing else; per currency the cost samples total the indexed costs; no two equal identities if the snapshot is unique and well formed |
| `Scrapes.ExposedIsScrape` | internal/metrics/cost.go:120-212 | a sample is pushed iff some record shows it, with family, labels and value written out for all seven families |
| `Scrapes.CostsAreExported` | internal/metrics/cost.go:120-133 | every indexed cost is in the scrape with its amount, and every cost sample comes from such a cost |
| `Scrapes.CostsAreExportedOnce` | internal/metrics/cost.go:120-133 | while no identity repeats (as in a unique snapshot of well-formed records) exactly one sample has that cost's family and labels |
| `Scrapes.ExposedTotals` | internal/metrics/cost.go:120-133 | per currency the cost samples total the amounts of the indexed costs |
| `Scrapes.ForecastsAreExported` | internal/metrics/cost.go:134-137 | bounds 0, 1 and 2 carry mean, lower and upper, and every forecast sample comes from a forecast |
| `Scrapes.BoundsAreExportedInOrder` | internal/metrics/cost.go:134-137 | ordered forecasts are exported ordered |
| `Exposition.ExpositionHasNoDuplicates` | internal/metrics/cost.go:120-172 | a unique snapshot of well-formed records exposes no family and label set twice |
| `Collisions.UniquenessNeedsWellFormedRecords` | internal/domain/snapshot/snapshot.go:250-323 | without well-formedness a unique snapshot can expose a duplicate |
| `Collisions.ExposedOnceIff` | internal/metrics/cost.go:120-172 | a unique snapshot exposes every series once iff no two of its costs, forecasts or tag costs collide |
| `Collisions.Pair` | internal/metrics/cost.go:120-172 | two records with different keys share a series iff they collide in one of the three ways |
| `Collisions.WellFormedNeverCollide` | internal/domain/snapshot/snapshot.go:250-323 | in a unique snapshot of well-formed records nothing collides |
| `Usage.MapForecast` | internal/aws/costexplorer/forecast.go:75-113 | succeeds iff one result covers the requested period with three ordered amounts and a unit; then each amount is in its field, for the requested period and basis, and the forecast is well formed with a known identity |
| `Exposition.SampleFieldsAreKeyFields` | internal/metrics/cost.go:120-212 | every emitted series carries the fields of one of its record's uniqueness keys |
| `Exposition.ExpositionMatchesSeriesCount` | internal/domain/snapshot/snapshot.go:184-225 | a scrape emits `SeriesCount` samples less one per cost without a descriptor, and exactly that many iff all have one |
| `Stores.MergeMeaning` | internal/cache/memory/store.go:172-229 | merging, uniqueness check and account policy together accept exactly the acceptable records and keep exactly the visible ones |
| `AccountPolicy.SnapshotExposes` | internal/cache/memory/store.go:181-229 | an exposed account is one whose target has a policy, and whose number is listed there or, without a list, occurs as a twelve-digit account cost of that target |
| `AccountPolicy.AcceptableIff` | internal/cache/memory/store.go:172-229 | partials are accepted iff their records together are unique and no target exposes more accounts than its limit |
| `Caches.CacheAgreesWithRebuild` | internal/cache/memory/store.go:83-126 | after any run the parts are the last accepted partials, the snapshot is their rebuild from scratch and the series counts describe it |
| `Caches.SnapshotIsVisibleRecords` | internal/cache/memory/store.go:172-229 | the snapshot's records are, as a bag, the policy-filtered records of all parts |
| `Caches.MapOrderIsInvisible` | internal/cache/memory/store.go:172-180 | any two iteration orders give the same verdict, identical costs, forecasts, anomalies and tag costs, and the same bag of records |
| `Caches.EveryOrderServes` | internal/cache/memory/store.go:172-180 | whether a merge is accepted is the same in every iteration order |
| `Caches.CostsNeverTie` | internal/domain/cost/snapshot.go:112-133 | in a unique snapshot no two costs tie under `costLess` |
| `Caches.TagsNeverTie` | internal/domain/tagcost/tagcost.go:21-43 | in a unique snapshot no two tag costs tie under the sort |
| `Store.New` | internal/cache/memory/store.go:34-80 | a store exists exactly for admissible policies and ordered positive limits, and starts empty |
| `Store.Store.Publish` | internal/cache/memory/store.go:83-110 | accepted exactly when specified, then the state is rebuilt and this collector alone has a new attempt and success; a refusal changes nothing; the history stays a run |
| `Store.Store.RecordFailure` | internal/cache/memory/store.go:113-126 | only the collector's attempt time and up flag change |
| `Store.Store.Load` | internal/cache/memory/store.go:132-154 | the view is the current state; a collector is missing iff it never succeeded, fresh up to the first limit, aging up to the second, stale after |
| `Store.ApplyPolicies` | internal/cache/memory/store.go:181-229 | the observed, allowed and counting loops compute the specified filter and limit |
| `Store.Rebuild` | internal/cache/memory/store.go:172-229 | accepts exactly the acceptable parts and yields their rebuild, whatever the map order |
| `Store.CollectValues` | internal/cache/memory/store.go:172-180 | the ranged-over values are the parts in some enumeration of their keys |
| `Store.CountPublished` | internal/cache/memory/store.go:243-255 | a collector's series are its plain records plus, if it publishes accounts, its target's exposed accounts |
| `Store.Recount` | internal/cache/memory/store.go:99-107 | every collector's status is recounted against the merged snapshot |
| `Isolation.AcceptanceIsLocal` | internal/cache/memory/store.go:83-110 | unless target names shadow each other, a publish is accepted iff its own target's partials alone are acceptable |
| `Isolation.PublishLeavesOthersAlone` | internal/cache/memory/store.go:83-110 | a publish leaves every other target's exposed records unchanged as a bag |
| `Isolation.TargetsDoNotInterfere` | internal/cache/memory/store.go:83-126 | both of these at every step of every run |
| `Isolation.DelimiterFreeOpsAreSeparable` | internal/domain/snapshot/snapshot.go:250-323 | names without the delimiter never shadow each other |
| `Isolation.UniqueSplits` | internal/domain/snapshot/snapshot.go:250-323 | the global uniqueness check is the conjunction of the check of one target and of the rest |
| `Isolation.TargetsInterfereIff` | internal/domain/snapshot/snapshot.go:250-323 | partials of two targets, acceptable alone, can be refused together iff one name followed by the delimiter begins the other |
| `Conservation.SeriesAreConserved` | internal/cache/memory/store.go:103-107 | in every reachable state the collectors' series sum to at least the snapshot's, with equality iff no exposed account is claimed twice |
| `Conservation.CreditsCountAccounts` | internal/cache/memory/store.go:243-255 | account credits are the exposed accounts that have a publisher plus the repeated claims |
| `Conservation.SeriesCanBeCountedTwice` | internal/cache/memory/store.go:103-107 | a run of two accepted publishes after which the sum is too large |
| `Readiness.ReadyIffEveryCollectorIsCurrent` | internal/httpserver/server.go:147-162 | ready iff each required collector's last accepted publish of the run is at most staleAfter old |
| `Runner.NewJobs` | internal/scheduler/runner.go:88-120 | a runner exists exactly for bounded settings and valid, pairwise different jobs; it starts in the initial protocol state of those jobs with their startup wishes |
| `Runner.Runner.Start` | internal/scheduler/runner.go:133-139 | a startup refresh is dispatched and never skipped |
| `Runner.Runner.Dispatch` | internal/scheduler/runner.go:161-173 | sets the flag and sends exactly when the flag was clear; one protocol step |
| `Runner.Runner.Send` | internal/scheduler/runner.go:161-173 | the queue then holds exactly that tick |
| `Runner.Runner.Receive` | internal/scheduler/runner.go:175-188 | takes the one queued tick and leaves the queue empty |
| `Runner.Runner.ClearRunning` | internal/scheduler/runner.go:286-290 | clears the flag after a collection or on the way out |
| `Runner.Runner.AcquireTarget` | internal/scheduler/runner.go:190-209 | takes the target's only slot |
| `Runner.Runner.AcquireSemaphore` | internal/scheduler/runner.go:190-209 | takes a slot within the concurrency bound |
| `Runner.Runner.ReleaseSemaphore` | internal/scheduler/runner.go:190-209 | gives the slot back |
| `Runner.Runner.ReleaseTarget` | internal/scheduler/runner.go:190-209 | gives the target back, after an attempt or on giving up |
| `Scheduling.StepKeepsInv` | internal/scheduler/runner.go:133-209 | every step of every goroutine keeps token, tick and slot accounting |
| `SchedulingTheorems.SingleFlightInEveryRun` | internal/scheduler/runner.go:133-188 | until the worker has returned the flag holds iff exactly one reference is being sent, queued or collected, and no send blocks; a blocked send means the worker left a reference behind |
| `SchedulingTheorems.EveryTickOnce` | internal/scheduler/runner.go:133-188 | every tick is skipped, being sent, queued or begun: exactly one of these, and begun at most once |
| `SchedulingTheorems.SlotSafety` | internal/scheduler/runner.go:88-131 | channel lengths are the numbers of holders; at most MaxConcurrency collectors run and at most one per target |
| `SchedulingTheorems.ReleasesNeverBlock` | internal/scheduler/runner.go:190-209 | every release is possible the moment it is due |
| `SchedulingTheorems.NoCircularWait` | internal/scheduler/runner.go:190-209 | a blocked worker waits for somebody, always of a strictly lower level |
| `SchedulingTheorems.BlockedWorkersGetTheirSlot` | internal/scheduler/runner.go:190-209 | from every reachable state ordinary steps of the slot holders alone free a blocked worker, without cancellation or timer |
| `SchedulingTheorems.SlotsFreeAtTheEnd` | internal/scheduler/runner.go:123-131 | once every worker has returned all slots are free |
| `SchedulingTheorems.ShutdownCompletesIffNoSendIsBlocked` | internal/scheduler/runner.go:123-188 | after cancellation the runner can wind down iff no ticker is blocked in a send |
| `SchedulingTheorems.BlockedSendsStayBlocked` | internal/scheduler/runner.go:161-188 | a send to a returned worker's full queue never completes |
| `SchedulingTheorems.ShutdownIsSafeIffNobodyCanHang` | internal/scheduler/runner.go:123-188 | after cancellation no continuation blocks a send iff no ticker is left whose worker has not returned or has left a reference behind |
| `SchedulingTheorems.ShutdownCanHang` | internal/scheduler/runner.go:175-188 | under every configuration some run ends in a send that blocks for ever |
| `Retrying.Collect` | internal/scheduler/runner.go:190-252 | at most MaxAttempts attempts and one successful publish, one recorded failure per failed attempt not seen as cancelled; the first delay is Initial, each next one is Max if the previous times the multiplier reaches it, else that product rounded down; the total is bounded |
| `Retrying.RunAttempts` | internal/scheduler/runner.go:190-252 | the loop stops exactly at the first attempt that does not retry, and counts what it did; its delays are those of `DelaysMultiply` |
| `Retrying.DelaysAreOrdered` | internal/scheduler/runner.go:278-284 | the delays between attempts never shrink and stay between Initial and Max |
| `Retrying.DelaysMultiply` | internal/scheduler/runner.go:278-284 | every consecutive pair of delays is related by the multiplier and the maximum alone |
| `Retrying.NextBackoffFollows` | internal/scheduler/runner.go:278-284 | one delay and the next: the product rounded down, or the maximum |
| `Retrying.OutcomesAreCounted` | internal/scheduler/runner.go:190-252 | one failure is recorded per attempt that failed before its cancellation was seen |
| `Verifying.PassedMeansVerified` | internal/aws/clientfactory/factory.go:239-308 | whoever passes does so on a completed check of the same fingerprint that saw the configured account, re-read the fingerprint and has not expired |
| `Verifying.RefusedMeansFailed` | internal/aws/clientfactory/factory.go:262-287 | a refusal repeats a failed check of the same fingerprint within the failure time to live |
| `Verifying.OneOwnerIffInFlight` | internal/aws/clientfactory/factory.go:244-287 | one owner exactly when `inFlight` is set, and completed checks never overlapped |
| `Verifying.WaitersAreServed` | internal/aws/clientfactory/factory.go:252-260 | a waiter's channel is closed or belongs to the one owner, which has a step to take |
| `Verifying.CallsAreSpaced` | internal/aws/clientfactory/factory.go:244-287 | with a constant fingerprint a call starts no sooner than the matching time to live after the previous check; a success without expiry is the last call |
| `Verifying.VerdictsAreReused` | internal/aws/clientfactory/factory.go:246-266 | with a constant fingerprint and within the time to live every caller gets the last verdict at once, without waiting or calling |
| `Verifying.StepKeepsInv` | internal/aws/clientfactory/factory.go:239-308 | every step of every caller keeps ownership, channels, cached verdicts and outcomes consistent |
| `Verifier.TargetVerifier.Consult` | internal/aws/clientfactory/factory.go:244-270 | the first critical section is one protocol step, and begins a call exactly when the caller becomes the owner |
| `Verifier.TargetVerifier.Settle` | internal/aws/clientfactory/factory.go:271-308 | the verdict is positive exactly for the configured account and an unchanged fingerprint; nobody owns the flight afterwards |
| `Limiters.LimitCosts` | internal/collector/cardinality.go:30-65 | grouping, key sorting and limiting compute the specified result in every map order, errors included |
| `Limiters.LimitOneGroup` | internal/collector/cardinality.go:68-106 | the sort and the summing loop compute the limited group |
| `Limiters.EachIdentityIsLimited` | internal/collector/cardinality.go:30-106 | per provider and basis: min(n, limit) values, every currency's total unchanged; only the last by amount, then name, are folded, within one currency, and the first of them stands for them under the overflow label |
| `Limiters.LimitSucceedsIff` | internal/collector/cardinality.go:30-106 | values that can be folded are limited iff limit and label are usable, identities bounded, the label unused and no group must fold across currencies |
| `Limiters.LimitKeepsCostLabelsUnique` | internal/collector/cardinality.go:39-48 | unique labels stay unique, because the overflow label is reserved |
| `Limiters.GroupsAreIdentities` | internal/collector/cardinality.go:46-48 | two values share a group exactly when provider and basis agree |
| `TagLimits.LimitTagValues` | internal/collector/tag/collector.go:75-112 | the loop computes the specified result or the first error |
| `TagLimits.ValuesAreLimited` | internal/collector/tag/collector.go:75-112 | min(n, limit) values, totals unchanged; only the last by amount, then name, are folded, within one currency and boundary, and the first of them stands for them under the overflow label |
| `TagLimits.LimitTagsSucceedsIff` | internal/collector/tag/collector.go:75-112 | values with a currency are limited iff they fit, or the limit is positive and what must be folded shares currency and boundary |
| `TagLimits.LimitKeepsTagLabelsIff` | internal/collector/tag/collector.go:101-111 | unique labels stay unique iff no kept value carries the label that the overflow takes |
| `TagLimits.OverflowLabelCanCollide` | internal/collector/tag/collector.go:101-111 | an input where it does not |
| `Budgets.ValidateTags` | internal/config/validation.go:313-356 | accepts exactly the tag configurations with sound unique keys that match the columns and fit the series limit |
| `Budgets.ValidateCURSeriesBudget` | internal/config/validation.go:358-370 | accepts exactly when cost and tag series fit the CUR limit |
| `Budgets.TagSeriesBudget` | internal/config/validation.go:372-378 | the loop sums the allowed values |
| `Budgets.ValidateBases` | internal/config/validation.go:210-217 | accepts exactly a non-empty list of different known bases |
| `TagCollector.Collect` | internal/collector/tag/collector.go:42-71 | the nested loops gather every request's limited rows in order, or the first failure; a success holds the sum of min(rows answered, maxValues) over all calls, every currency's answered total, rows of the collector's target only, and no record of another family |
| `TagCollector.SnapshotHoldsAnswers` | internal/collector/tag/collector.go:42-71 | the published snapshot holds exactly what the answers allow |
| `TagCollector.GatheredHolds` | internal/collector/tag/collector.go:42-71 | number of rows, totals per currency and origin of every row, over all answers |
| `TagCollector.RequestAt` | internal/collector/tag/collector.go:44-61 | which basis, key and window the n-th call asks for, and how many calls there are |
| `TagCollector.TagBudgetSuffices` | internal/collector/tag/collector.go:42-71 | under a validated configuration no reader can make the series limit error happen |
| `TagCollector.TagBudgetIsExact` | internal/config/validation.go:372-378 | some reader makes the series limit error happen iff the budget exceeds the limit |
| `CurCollector.LimitTagsForgetsMapOrder` | internal/collector/cur/collector.go:87-118 | any two map orders both fail or yield the same rows, in the same sequence if labels are unique |
| `CurCollector.LimitTagsIsDeterministic` | internal/collector/cur/collector.go:87-118 | with an unused overflow label unique rows stay unique and every map order gives the same sequence |
| `CurCollector.TagsAreLimitedIffAllowlisted` | internal/collector/cur/collector.go:87-118 | rows with a currency are refused iff a key is not allowlisted |
| `CurCollector.TagTotalsAreConserved` | internal/collector/cur/collector.go:87-118 | every currency's total survives the limiting |
| `CurCollector.TagsAreHeld` | internal/collector/cur/collector.go:87-118 | of every key, provider, basis, window and currency min(n, maxValues) of n rows come out, no money is lost, and every row is an input row or takes the place of one of its group |
| `CurBudget.CurBudgetSuffices` | internal/collector/cur/collector.go:45-74 | a validated configuration and rows as queried exclude the tag, total and currency limit errors in every map order |
| `CurBudget.Collect` | internal/collector/cur/collector.go:45-74 | the collector computes the specified verdict for some map order; a success is within all three limits and holds a rearrangement of the answered costs, the limited tag costs and nothing else |
| `CurBudget.VerdictHolds` | internal/collector/cur/collector.go:45-74 | the same of the verdict in any map order |
| `CurBudget.CollectsIffAllowlisted` | internal/collector/cur/collector.go:45-74 | on rows as queried under a validated configuration collecting succeeds iff no tag row has a key that is not configured |
| `CurExactness.CurLimitIsExact` | internal/config/validation.go:358-370 | the CUR series limit error can happen on rows as queried iff the configuration check fails |
| `CurExactness.TagLimitIsExact` | internal/config/validation.go:372-378 | the CUR tag series limit error can happen on rows as queried iff the tag budget exceeds the limit |
| `CurBudget.NoVerdictIsALimitError` | internal/collector/cur/collector.go:45-74 | so no verdict under those conditions is a limit error |
| `CurBudget.LimitTags` | internal/collector/cur/collector.go:87-118 | the loops compute the specified limiting for some map order |
| `CurBudget.CurrencyCount` | internal/collector/cur/collector.go:76-85 | the number of different currencies of both lists |
| `CurBudget.TagsAreFew` | internal/config/validation.go:372-378 | limited tag rows number at most two windows times bases times currencies times the allowed values |
| `Athena.Query` | internal/aws/athena/reader.go:78-144 | the query is stopped exactly once iff it was begun and no terminal state was seen; polls number at most the timeout over the interval, rounded up; success iff the query succeeded and its pages can be listed |
| `Athena.Poll` | internal/aws/athena/reader.go:107-143 | polling ends at the first status that is not pending or when the context is done |
| `Athena.Results` | internal/aws/athena/reader.go:146-202 | succeeds iff a chain of good pages with fresh tokens ends within the page and row limits; then row i of page k stands behind all data rows of the pages before it, the header of page 0 is gone, and there is no other row; else none |
| `Athena.ListedIsDelivered` | internal/aws/athena/reader.go:146-202 | a listing that ends holds every data row of every page in its place |
| `Athena.DeliveredIsListed` | internal/aws/athena/reader.go:146-202 | pages that deliver, as spelled out page by page, are listed |
| `Athena.AcceptPage` | internal/aws/athena/reader.go:158-191 | a page is accepted iff metadata, header and every row are as expected and the rows fit |
| `Athena.ValidateMetadata` | internal/aws/athena/reader.go:221-241 | accepts exactly the expected names and types |
| `Athena.EqualColumns` | internal/aws/athena/reader.go:254-264 | compares two rows |
| `Athena.PollsAreFew` | internal/aws/athena/reader.go:136-142 | polls spaced by the interval and within the timeout are few |
| `Athena.NewReader` | internal/aws/athena/reader.go:46-60 | a reader exists exactly for positive bounds and a poll interval below the timeout |
| `Athena.MapTagCosts` | internal/aws/athena/reader.go:352-378 | all rows or none, each column in its field: window, currency, basis, amount, key, value; the provider is CUR, basis and window are known |
| `Athena.MapTagRowMeaning` | internal/aws/athena/reader.go:352-378 | when a row can be mapped, and which column lands in which field |
| `Athena.MapCosts` | internal/aws/athena/reader.go:321-350 | the same for totals, over the day or the month that the row's window names |
| `Pagination.Read` | internal/aws/costexplorer/pagination.go:51-93 | at most maxPages calls, no non-empty token twice; succeeds iff the pages lead to one without a token within the budget; then row i of page k stands at the sum of the earlier page lengths plus i, and there is no other row; else nothing |
| `Pagination.RowsInOrder` | internal/aws/costexplorer/pagination.go:66-91 | the rows of n pages, position by position |
| `Pagination.CompleteIff` | internal/aws/costexplorer/pagination.go:66-91 | a listing is complete iff every answer is a page, every token but the last is present and fresh, and the last is absent |
| `Pagination.Unreadable` | internal/aws/costexplorer/pagination.go:66-91 | a call that fails, repeats a token or exceeds the budget rules out every complete listing |
| `Pagination.LeadingTokensAreFresh` | internal/aws/costexplorer/pagination.go:84-91 | while pages lead on no token is sent twice |
| `Aggregation.AggregateMonthToDate` | internal/aws/costexplorer/mapping.go:78-126 | never fails and yields a group-by sum: every key once, with the sum of its rows, in order |
| `Aggregation.AggregateSumsUp` | internal/aws/costexplorer/mapping.go:78-126 | every row joins exactly one sum and every sum is joined by a row; it is a month-to-date row of the given period whose amount is the sum over its dimension, currency, provider and basis |
| `Aggregation.AggregateIsStrictIff` | internal/aws/costexplorer/mapping.go:112-120 | the output is strictly ordered by kind, value and currency iff no dimension and currency occur under two providers or bases |
| `Aggregation.AggregateIsDeterminedIff` | internal/aws/costexplorer/mapping.go:108-120 | map order and comparator leave one possible output iff the same holds |
| `Aggregation.MixedBasesLoseTheOrder` | internal/aws/costexplorer/mapping.go:112-120 | one service under two bases is not strictly ordered |
| `Aggregation.AggregateIsStrictlyOrdered` | internal/aws/costexplorer/mapping.go:112-120 | rows of one provider and basis come out strictly ordered |
| `Aggregation.AggregateConserves` | internal/aws/costexplorer/mapping.go:78-126 | every currency's total is unchanged |
| `Aggregation.AggregateForgetsOrder` | internal/aws/costexplorer/mapping.go:78-126 | row order never changes which rows come out, nor their order unless a cell mixes providers or bases |
| `Usage.MapUsage` | internal/aws/costexplorer/mapping.go:22-66 | succeeds iff the metric is named, the group is known and every value can be read; then value i of result k stands in its place with its period, dimension, amount and unit and the query's window and basis; month-to-date queries get the strictly ordered sums of these rows instead |
| `Usage.MapResultsMeaning` | internal/aws/costexplorer/mapping.go:22-66 | when mapping succeeds, and which metric and key land in which row and field |
| `Usage.UsageForgetsOrder` | internal/aws/costexplorer/mapping.go:22-66 | the order of the results in a response does not matter for month-to-date |
| `Usage.MappedRowsIdentity` | internal/aws/costexplorer/mapping.go:146-156 | all rows of one call share provider and basis |
| `Jitter.CappedDelay` | internal/aws/common/retry.go:24-35 | equals min(base times 2 to the attempt less one, max), and no intermediate value exceeds the larger of base and max |
| `Jitter.BackoffDelay` | internal/aws/common/retry.go:24-37 | the jittered delay is the truncated product, between zero and the capped delay |
| `Jitter.DelaysNeverShrink` | internal/aws/common/retry.go:24-35 | the delay before jitter never shrinks with the attempt |

## Left out

- Floating point: amounts and multipliers are exact; rounding, NaN and infinity and the checks against them are not modelled.
- Clocks, randomness, AWS answers and map iteration are parameters or arbitrary choices; instants are whole seconds counted from Go's zero time, so an exported Unix time has no fraction.
- Contexts: a context is done from one instant on and reports so at once; for `Athena.Query` that instant is at most the query timeout after the start.
- Fairness of goroutine scheduling: progress results say which steps are possible and by whom, not that the Go runtime takes them.
- SchedulingTheorems.ShutdownCompletesIffNoSendIsBlocked: states that a complete wind-down remains possible, because the model has no fairness assumption.
- Credential loading, AssumeRole and the SHA-256 fingerprint: the fingerprint is an opaque number.
- TargetVerifier's mutex: each critical section is one atomic step, as the mutex makes it.
- SQL text, date and number parsing and type-name case: rows and periods come parsed or as the failure to parse them.
- Error texts and classification: errors are told apart only where a branch depends on them.
- Observers, logging and telemetry calls.
- The timer jitter of `nextDelay`: a tick may come at any time.
- The rate limiter, the SDK retryer, HTTP routing, configuration loading and the flat range checks of `validateBase`.
- Readers for Budgets, Organizations, commitments, anomalies and Cost Explorer tags: they repeat the pagination and aggregation patterns.
- Sorting in place: `sort.SliceStable` is a function on sequences proved ordered, stable and a permutation; `sort.Slice` promises only the first and the last.
