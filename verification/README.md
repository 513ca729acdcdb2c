# Sealos state metrics: verification

Models of the algorithms of the state metrics exporter and proofs about them, for Dafny 4.11. Run
`dafny verify dfyconfig.toml`.

The program watches a Kubernetes cluster and some databases and exports what it sees as Prometheus
metrics. The parts modelled are those that hold state between events or that are concurrent:

- **Derived metrics of custom resources.** The informer trims every object to the paths that the
  configured metrics read (`CrdInformer`), the store keeps per-object series and running counts up to
  date in place (`MetricStore`), and `CrdWatch` relates the two over whole event histories: the store
  is what a rebuild from the live objects would be, exactly when no deletion went by without its
  object. `Unstructured`, `CrdHelpers` and `CrdMetrics` define reading and writing nested objects and
  what one object gives rise to. `CrdLabels` says, label name by label name, what a sample has to say and
  proves that an object gives just those samples, and `CrdScrapes` the same of a whole scrape.
- **Billing.** `Mongo` gives the aggregation stages their meaning, as a relation, since the server
  groups in an order of its own. `Billing` has the pipelines, the fold over their rows and the direct
  aggregation; `BillingPipelines` proves what every outcome of a pipeline sums to, and
  `BillingCollector` that both forms agree, that owners add up, and that hourly windows partition
  time. `Totals` is the arithmetic of sums by key, and `BillingSums` says of every total which
  rows, and which entries of which documents, it is the sum of.
- **Licenses.** `Wire` is the Protocol Buffers wire format, `Base64` unpadded base64 (sections 3.2 and
  4 of RFC 4648), `License` the decoder, `LicenseMessages` what messages mean, and `WireSkips` that
  skipping a value of any type takes what writing it puts out.
- **Life of a collector.** `Lifecycle` takes each critical section as one step and lets the steps of
  different callers come in any order.
- **Hot reload.** `Registry` is the collector registry; `Server` interleaves the steps of Init, Reload
  and Shutdown with the callbacks of one elector per leader-managed collector, and has the server whose
  methods take those steps. `ServerReload` proves what every step keeps, with Shutdown free to begin
  anywhere in a Reload, and `ServerOverlap` what holds however the two overlap.
- **Pools.** `WorkerPool` (with `DomainChecker` and `RegistryChecker`), `DatabasePool` (with
  `DatabaseCollector`) and `FanIn` are transition systems over channels, semaphores and wait groups,
  each with its safety, its conservation, its freedom from deadlock and a bound on its runs.
- **Image pulls.** `ImagePull` is the tracker and its classifier `PullReasons`; `ImagePullRuns` lets pod
  events, expiring timers and the functions of timers that wait for the lock come in any order, and
  `ImagePullHistory` and `ImagePullReports` say what is held and reported after any such history.
- **Configuration and endpoints.** `Reloader` is the debounce over time, `ReloaderRuns` the same reloader
  with reloads that take time and a Stop that comes in two halves, and `ReloaderHistory` what its runs
  come to; `Endpoint` and `Decimal`.

Where the source changes things in place the model is a class whose methods are proved against
functions on the state (`Now()`), and the lemmas speak about those functions. What a function computes
is stated apart from its definition wherever a method and its specification share it: by the names under
which values stand, by reading back what was written, or by the history that led to a state.

## What the proofs found

Things the source does not do, each with the exact condition under which it does and a run or a family
of inputs on which it does not:

- An object deleted while the watch was down, whose tombstone carries no object, keeps its metrics
  (`CrdWatch.StoreAgreesIff`, `CrdWatch.DeletedWithoutTraceLingers`).
- Nothing in a configuration keeps the label names of a metric apart from each other and from the common
  ones, and then no sample of it can be made without a panic (`CrdMetrics.SamplesMadeIff`,
  `CrdMetrics.SharedLabelNeverMade`, `CrdMetrics.TypeLabelNeverMade`).
- A count metric whose name a later metric has too may not fit its descriptor (`CrdMetrics.CountsFitIff`,
  `CrdMetrics.CountMisfits`).
- A billing document whose `app_costs` is one document instead of an array is billed by the pipelines
  and not by the direct form, and usage given as text the other way round; the forms agree exactly when
  that adds nothing to any total (`BillingCollector.FormsAgreeIff`, `BillingCollector.OneCostDiffers`,
  `BillingCollector.TextDiffers`).
- `SetReady` closes a closed channel when it comes after the Stop of a cycle that was ready; a poll loop
  that outlives its cycle brings it about (`Lifecycle.ReadyPanicsIff`, `Lifecycle.ReadyCanPanic`).
- The late rollback of a failed Start ends a newer cycle (`Lifecycle.FailEndsOthersIff`,
  `Lifecycle.FailCanEndNewer`).
- A Shutdown that begins in the middle of a Reload can be over before the new collectors are started
  (`ServerOverlap.AtRestAfterShutdownIff`, `ServerOverlap.ShutdownInReload`).
- A Reload that begins while Shutdown waits for its electors drops collectors that are still led, and
  nothing ever stops them (`ServerOverlap.CurrentIff`, `ServerOverlap.ReloadInShutdown`). `ServerReload`
  is about all other runs.
- A launcher of database checks that returns early because its context is cancelled lets the status
  channel be closed under a check of the same type; a plan can panic exactly when two of its tasks share
  a type whose limit is at least one (`DatabasePool.PanicsIff`).
- A slow-pull timer whose function waits for the lock while its timer is stopped runs all the same, and
  can report a failing pull as slow or lose sight of a newer timer (`ImagePullRuns.InStepThroughoutIff`,
  `ImagePullReports.LateTimerHarms`, `ImagePullReports.LateTimerLosesNewer`).
- Two containers of one pod that fail alike on one image, or are slow on it, give the same series twice,
  since the labels leave the container out (`ImagePullReports.FailuresClashIff`,
  `ImagePullReports.OneImageTwice`, `ImagePullReports.SlowPullsClashIff`,
  `ImagePullReports.OneImageTwiceSlow`).
- A poll of databases with a type whose limit is zero never finishes by itself
  (`DatabasePool.FinishesIff`, `DatabasePool.ZeroLimitGivesUp`).
- A host between nested brackets, or with white space inside them, is printed so that parsing gives another
  host (`Endpoint.ParsePrintedIff`, `Endpoint.NestedBrackets`).
- A reload that outlasts the debounce can be overtaken by the next and deliver old content last
  (`ReloaderRuns.FinalIsCurrentIff`, `ReloaderRuns.StaleIsDelivered`).
- An event that is being handled while the reloader's Stop runs sets the timer anew, and the file is
  delivered after Stop (`ReloaderRuns.DeliversAfterStopIff`, `ReloaderRuns.DeliveredAfterStop`).

## Assumptions

- Metric names are distinct within one configuration where `CrdMetrics.CountsFitDescriptors` says so,
  and nowhere else.
- The configuration file changes only when the watcher reports a relevant event: in `Reloader` at a tick
  with one (`Reloader.ChangesAreSeen`, for `Reloader.FinalFileDelivered`), in `ReloaderRuns` by the step
  that changes it.
- An informer's update carries the object known before, and equal resource versions mean equal objects.
- Billing: owner and namespace are text, null or absent, `used` is a document, null or absent, and costs
  inside `app_costs` are not arrays (`BillingPipelines.GoodDocument`). Both pipelines of a poll see the
  same documents. Integers are unbounded and stand for the floats of the snapshot.
- A factory that returns no error returns a collector. An elector's start callback returns before its
  stop callback runs.
- In `Reloader` time goes in ticks, Stop comes before the timer and the timer before the events of its
  tick, and a reload takes no time; `ReloaderRuns` assumes none of that. A timer that has not expired can
  be stopped, and one that has cannot.
- Names of pods and namespaces hold no slash where `ImagePullRuns.DeleteIsExact` and
  `ImagePullReports.FailuresClashIff` say so. Time does not
  run backwards in `ImagePullReports.SlowPullsAreSlow`.
- The regular expressions of the image pull classifier, the platform's path functions, the library's test
  for IP addresses and its rules for names of metrics and labels are left as functions that may be
  anything.

## Model

| member | source | states |
|---|---|---|
| `CrdHelpers.SameAtSameExtracts` | pkg/collector/crds/helpers/helpers.go:12-69 | Objects that read the same at a path give the same string, float, map and slice there. |
| `Unstructured.JoinSplit` | pkg/collector/crds/helpers/helpers.go:17-17 | No part of a split path has a dot, and the parts joined by dots are the path. |
| `CrdHelpers.ExtractField` | pkg/collector/crds/helpers/helpers.go:12-69 | A path without a dot reads the field of that name: as a string, a number, a map or a slice, and as nothing if it is missing or of another kind. |
| `CrdHelpers.ExtractWithin` | pkg/collector/crds/helpers/helpers.go:12-69 | Reading a path with a dot, by any of the four extractors, is reading what follows its first dot in the object under what precedes it, and nothing without that object. |
| `CrdHelpers.ExtractTrailingDot` | pkg/collector/crds/helpers/helpers.go:12-69 | A path that ends in its only dot reads the field with the empty name in the object before it. |
| `CrdHelpers.NumberRead` | pkg/collector/crds/helpers/helpers.go:71-101 | Numbers stand for themselves, true and false for 1 and 0, a text for what the parser makes of it, anything else for 0. |
| `CrdHelpers.MetadataFields` | pkg/collector/crds/informer/informer.go:230-235 | Name, namespace, UID, resource version and generation are read from the fields of those names in the object under metadata. |
| `CrdMetrics.SameReadsSameDerived` | pkg/collector/crds/metric_store.go:337-383 | Objects that read the same at every configured path give the same series and the same count contributions. |
| `CrdMetrics.SamplesFitDescriptors` | pkg/collector/crds/metric_store.go:120-179 | Every sample has exactly as many label values as its descriptor has label names. |
| `CrdMetrics.ValidDescIff` | pkg/collector/crds/metric_store.go:120-179 | The descriptor compiled for any metric but a count is valid if and only if its names are legal and its own label names differ from each other and from the common ones. |
| `CrdMetrics.SamplesMadeIff` | pkg/collector/crds/metric_store.go:385-529 | For any configuration and object: all its samples can be made, without a panic, if and only if each metric that gives any has such names. |
| `CrdMetrics.SharedLabelNeverMade` | pkg/collector/crds/metric_store.go:385-398 | A failing family: an info metric with a label of the same name as a common one gives, of every object, a sample that cannot be made. |
| `CrdMetrics.TypeLabelNeverMade` | pkg/collector/crds/metric_store.go:489-529 | A failing family: with a common label called type no sample of a conditions metric can be made. |
| `CrdMetrics.CountsHaveDescriptors` | pkg/collector/crds/metric_store.go:578-591 | Every count contribution names a configured metric, so its descriptor exists. |
| `CrdMetrics.CountsFitIff` | pkg/collector/crds/metric_store.go:578-591 | For any configuration: the one label value of a count sample fits its descriptor exactly when the last metric of that name counts, or has one label in all. |
| `CrdMetrics.CountMisfits` | pkg/collector/crds/metric_store.go:578-591 | The failing family: a count and then a gauge of the same name, and any object that has something at the path. |
| `CrdMetrics.CountsFitDescriptors` | pkg/collector/crds/metric_store.go:120-179 | With metrics of different names every count sample fits the descriptor compiled for it. |
| `CrdMetrics.ResourceKeyInjective` | pkg/collector/crds/metric_store.go:603-612 | With no slash in names, different objects have different keys. |
| `CrdLabels.SamplesSay` | pkg/collector/crds/metric_store.go:337-529 | For every configuration, object and sample: the object gives that sample exactly as often as its parts call for it. What it has to say is written out by label name: each common label carries the string at its path; an info label the string at its own; key and state the map key and the entry's state; type, status and reason the entries at the three configured fields; and the value is 1, the number read, or whether the status is true in any case. |
| `CrdLabels.CountsSay` | pkg/collector/crds/metric_store.go:352-359 | An object contributes to a counted value once for each count metric that reads that value of it, and to no other. |
| `CrdLabels.CountDescribed` | pkg/collector/crds/metric_store.go:120-179 | A count is described by its own full name and help, and its one label is called as configured, or else value, as long as no later metric has its name. |
| `CrdLabels.AllowsIff` | pkg/collector/crds/metric_store.go:593-601 | Objects of every namespace count when no namespace is configured, and else exactly those of the configured ones. |
| `CrdInformer.IdentityFields` | pkg/collector/crds/informer/informer.go:224-242 | The separately written metadata fields are part of the source object. |
| `CrdInformer.CopyField` | pkg/collector/crds/informer/informer.go:244-257 | Copying a path without a dot copies the field of that name, if there is one. |
| `CrdInformer.CopyWithin` | pkg/collector/crds/informer/informer.go:244-257 | Copying a path with a dot copies what follows its first dot into the object under what precedes it, which is made when missing; nothing changes when there is nothing to copy or something else is in the way. |
| `CrdInformer.CopyPathsExact` | pkg/collector/crds/informer/informer.go:244-257 | Whatever the order and the overlap of the paths, after copying them all each reads exactly as in the source. |
| `CrdInformer.TrimKeepsIdentity` | pkg/collector/crds/informer/informer.go:224-242 | Name, namespace, UID, resource version, generation and key survive any trimming. |
| `CrdInformer.TrimKeepsMetrics` | pkg/collector/crds/informer/informer.go:224-257 | Trimming to a list of paths that has every path the metrics read changes no series and no count. |
| `CrdInformer.TrimTwice` | pkg/collector/crds/informer/informer.go:224-242 | Trimming a trimmed object changes nothing. |
| `CrdInformer.TrimKeepsOnly` | pkg/collector/crds/informer/informer.go:224-257 | Every leaf left by trimming lies under a listed path or is an identity field, and has its old value. |
| `MetricStore.AddOne` | pkg/collector/crds/metric_store.go:549-560 | Adding a contribution raises its count by one and no other, and keeps counts and count samples in step. |
| `MetricStore.RemoveOne` | pkg/collector/crds/metric_store.go:562-576 | Removing a stored contribution lowers its count by one and no other, and leaves no zero entry. |
| `MetricStore.UpsertedKeeps` | pkg/collector/crds/metric_store.go:301-335 | Replacing an object keeps every count equal to the number of stored contributions. |
| `MetricStore.DeletedKeeps` | pkg/collector/crds/metric_store.go:189-206 | Deleting an object keeps every count equal to the number of stored contributions. |
| `MetricStore.PositionsCount` | pkg/collector/crds/metric_store.go:549-560 | Counting an object's contributions one by one is counting its stored positions. |
| `MetricStore.ChangesCounted` | pkg/collector/crds/metric_store.go:189-335 | Every change of an object is counted once, as added, updated or deleted, by what was there before and what is there then. |
| `MetricStore.Store.constructor` | pkg/collector/crds/metric_store.go:73-118 | A new store is empty, sound, and has the descriptors of its configuration. |
| `MetricStore.Store.Add` | pkg/collector/crds/metric_store.go:181-183 | The store afterwards shows the old objects with this one put in, or taken out if its namespace is not allowed. |
| `MetricStore.Store.Update` | pkg/collector/crds/metric_store.go:185-187 | As for Add: an update is an upsert. |
| `MetricStore.Store.Delete` | pkg/collector/crds/metric_store.go:189-206 | The store afterwards shows the old objects without this one, with all counts adjusted. |
| `MetricStore.Store.UpsertLocked` | pkg/collector/crds/metric_store.go:301-335 | The in-place update of the three maps and the counters is the stated state change. |
| `MetricStore.Store.RemoveLocked` | pkg/collector/crds/metric_store.go:540-547 | The contributions of the removed object are taken off the counts one by one. |
| `MetricStore.Store.AddCountLocked` | pkg/collector/crds/metric_store.go:549-560 | One contribution more in the counts and its sample refreshed. |
| `MetricStore.Store.RemoveCountLocked` | pkg/collector/crds/metric_store.go:562-576 | One contribution less; an entry that would be zero goes. |
| `MetricStore.Store.RefreshCountMetricLocked` | pkg/collector/crds/metric_store.go:578-591 | The sample of a count carries the count, or goes with it. |
| `MetricStore.Store.BuildObjectMetrics` | pkg/collector/crds/metric_store.go:337-383 | The loops append exactly the bag of series and the list of contributions the configuration calls for, or nothing outside the allowed namespaces. |
| `MetricStore.Store.BuildMapStateMetrics` | pkg/collector/crds/metric_store.go:421-453 | One sample for each entry that has a state; what it says is in CrdLabels.SamplesSay. |
| `MetricStore.Store.BuildConditionMetrics` | pkg/collector/crds/metric_store.go:489-529 | One sample for each condition that has a type, in order; which value stands under type, status and reason, and what the sample's value is, is in CrdLabels.SamplesSay. |
| `MetricStore.Store.RequiredPaths` | pkg/collector/crds/metric_store.go:269-299 | Exactly the non-empty paths that some metric or common label reads. |
| `MetricStore.Store.SnapshotMetrics` | pkg/collector/crds/metric_store.go:215-231 | Each stored series once and each positive count once, and nothing else. |
| `MetricStore.Store.Len` | pkg/collector/crds/metric_store.go:246-251 | The number of objects stored, which is those added less those deleted. |
| `CrdWatch.Informer.TransformObject` | pkg/collector/crds/informer/informer.go:224-242 | The in-place copying path by path is the trimming the lemmas speak of; how a dotted path is copied is in CrdInformer.CopyField and CopyWithin. |
| `CrdWatch.Informer.OnAdd` | pkg/collector/crds/informer/informer.go:277-286 | An add event upserts the object it carries, and an unrecognised one does nothing. |
| `CrdWatch.Informer.OnUpdate` | pkg/collector/crds/informer/informer.go:289-310 | An update with a new resource version upserts the new object; with the same it does nothing. |
| `CrdWatch.Informer.OnDelete` | pkg/collector/crds/informer/informer.go:313-322 | A delete event, or a tombstone with an object, deletes it; a tombstone without one does nothing. |
| `CrdWatch.FeedRebuilds` | pkg/collector/crds/metric_store.go:301-335 | A store built from scratch depends only on the last object of each key. |
| `CrdWatch.ReplayIsRebuild` | pkg/collector/crds/informer/informer.go:192-222 | After any legal history of events on trimmed objects the store equals one built from the whole live objects and the forgotten ones. |
| `CrdWatch.StoreAgreesIff` | pkg/collector/crds/informer/informer.go:192-222 | It equals one built from the live objects exactly when no allowed object was deleted without the event carrying it and not seen again. |
| `CrdWatch.DeletedWithoutTraceLingers` | pkg/collector/crds/informer/informer.go:326-354 | The failing case: such a deletion leaves the object's metrics in the store. |
| `CrdWatch.TracedDeletesLeaveNothing` | pkg/collector/crds/informer/informer.go:326-354 | Histories whose deletions all carry an object leave nothing behind. |
| `CrdWatch.ScrapeShowsLiveObjects` | pkg/collector/crds/metric_store.go:208-244 | A scrape after such a history emits exactly what the live objects, taken whole, call for. |
| `CrdScrapes.ScrapeSays` | pkg/collector/crds/metric_store.go:215-231 | A scrape emits a sample once for every object of an allowed namespace, every metric and every part that call for it in the sense of SamplesSay, and once for every counted value whose number of objects and metrics it states under that metric's descriptor: nothing else and nothing less. |
| `CrdScrapes.HistorySays` | pkg/collector/crds/informer/informer.go:192-222 | The same of a scrape after any history of events on trimmed objects that leaves nothing lingering, in terms of the whole objects then live. |
| `Billing.AggregateBillingRows` | pkg/collector/billing/billing.go:528-583 | The fold gives the snapshot of the rows, with owners only when asked for; what its four maps sum, under which names, units and owners, is in the rows of BillingSums. |
| `Billing.AggregateBillingDocuments` | pkg/collector/billing/billing.go:585-644 | The direct form gives the snapshot of every used entry of every cost, whatever order the maps are ranged over; which entries those are is in BillingSums.DocumentsBill. |
| `Billing.SameEntriesSameBag` | pkg/collector/billing/helpers.go:105-125 | The entries of a used map make the same bag of items in any order. |
| `BillingSums.ResourceSums` | pkg/collector/billing/billing.go:538-558 | For any rows, properties, name and unit: the cluster has a total under them exactly when some row's enum is configured with that name and unit, or is unconfigured and they are resource_unknown_ with the enum and 1; and the total is the sum of those rows. |
| `BillingSums.OwnerResourceSums` | pkg/collector/billing/billing.go:549-557 | The same for one owner and namespace, over the rows of that owner and namespace, and only with owner metrics on. |
| `BillingSums.AmountSums` | pkg/collector/billing/billing.go:560-569 | The same for amounts, by name whatever the unit. |
| `BillingSums.OwnerAmountSums` | pkg/collector/billing/billing.go:571-578 | The same for amounts of one owner and namespace. |
| `BillingSums.ClusterHasNoOwners` | pkg/collector/billing/billing.go:538-569 | Every key of the two cluster maps has neither owner nor namespace. |
| `BillingSums.DocumentsBill` | pkg/collector/billing/billing.go:592-642 | The direct form bills an item exactly as often as there are costs of documents, with its owner and namespace, whose used field has that enum with that value; and nothing else. |
| `BillingSums.PipelinesBill` | pkg/collector/billing/billing.go:271-421 | What the pipelines total bills an item exactly as often as costs, in an array or lone, have that entry with that number, texts counting as nothing; and nothing else. |
| `BillingSums.RowSays` | pkg/collector/billing/billing.go:235-238 | A returned row is read when its three texts are texts, null or absent, and says them and its number; a missing number is 0. |
| `BillingPipelines.UsedListed` | pkg/collector/billing/billing.go:294-306 | The projected expression lists the used entries of every well-formed cost, and nothing for a missing or null field. |
| `BillingPipelines.DocumentsRun` | pkg/collector/billing/billing.go:339-343 | The stages up to the grouping leave one document for every used entry of every cost, and never fail on well-formed documents. |
| `BillingPipelines.RowsDecoded` | pkg/collector/billing/billing.go:353-353 | The last stage returns documents that decode to a row for each group. |
| `BillingPipelines.PipelineTotals` | pkg/collector/billing/billing.go:271-421 | Whatever order the server groups in, summing the returned rows by any fitting key is summing the matching documents' items. |
| `BillingPipelines.PipelineSucceeds` | pkg/collector/billing/billing.go:271-289 | On well-formed documents the pipeline has an outcome. |
| `Totals.GroupsThenCoarse` | pkg/collector/billing/billing.go:344-352 | Grouping by a fine key and then summing by a coarser one is summing by the coarser key. |
| `Totals.FineSumsToCoarse` | pkg/collector/billing/billing.go:528-583 | Sums by a fine key add up to the sums by any coarser key. |
| `BillingCollector.RowsGiveSnapshot` | pkg/collector/billing/billing.go:528-583 | Every possible outcome of the two aggregations folds to the same four maps. |
| `BillingCollector.UnwoundSplits` | pkg/collector/billing/billing.go:597-603 | What unwinding bills for a document is what its array of costs bills, and what a lone cost bills. |
| `BillingCollector.PipelineTotalsAdd` | pkg/collector/billing/billing.go:585-644 | Under any key and for any documents, what the pipelines total is what the direct form totals plus a difference: less what it reads from texts, and more what lone costs bill. |
| `BillingCollector.FormsAgreeIff` | pkg/collector/billing/billing.go:585-644 | For any documents, with owners on or off, the two forms give the same snapshot if and only if that difference adds zero to every key and brings no new key. |
| `BillingCollector.PositiveFormsAgreeIff` | pkg/collector/billing/billing.go:585-644 | Where no value is a text and lone costs use only positive amounts, the forms agree if and only if no document has lone costs. |
| `BillingCollector.FormsAgree` | pkg/collector/billing/billing.go:585-644 | With array costs of numbers the two forms give the same four maps; with owners off, the same two cluster maps. |
| `BillingCollector.FormsAgreeOnOneIff` | pkg/collector/billing/billing.go:585-644 | On one document the forms agree if and only if its costs are not one document that uses something and its texts cancel. |
| `BillingCollector.OneCostDiffers` | pkg/collector/billing/billing.go:598-598 | A failing family: a document whose costs are one document is billed by the pipelines and not by the direct form. |
| `BillingCollector.TextDiffers` | pkg/collector/billing/helpers.go:71-75 | A failing family: a text that is a number is billed by the direct form and not by the pipelines. |
| `BillingCollector.OwnersAddUp` | pkg/collector/billing/billing.go:528-583 | The owner totals add up to the cluster totals, and have the same keys when the owner is dropped. |
| `BillingCollector.OneWindowEach` | pkg/collector/billing/billing.go:125-126 | Every time lies in exactly one hourly window. |
| `BillingCollector.LastFullHour` | pkg/collector/billing/billing.go:125-126 | A poll's window ends at the last multiple of an hour of milliseconds, and is that long. |
| `BillingCollector.MatchingAre` | pkg/collector/billing/billing.go:276-285 | What a window is computed from is the records of type 0 whose time is after its start and not after its end, each as often as it is there. |
| `BillingCollector.ReportedForAnHour` | pkg/collector/billing/billing.go:125-126 | A poll covers a record exactly during the hour that starts when the record's window ends. |
| `BillingCollector.WindowsJoin` | pkg/collector/billing/billing.go:276-285 | Two adjoining windows bill together what one window over both bills. |
| `BillingCollector.HoursAddUp` | pkg/collector/billing/billing.go:125-146 | The totals of n consecutive hours add up to the totals of the whole span, keys included. |
| `BillingCollector.Collector.Poll` | pkg/collector/billing/billing.go:110-162 | A successful poll reports the last full hour's totals; a failed one leaves the last report. |
| `Wire.VarintRoundTrip` | pkg/collector/cockroachlicense/license_test.go:107-108 | Reading a varint undoes writing it, whatever follows. |
| `Wire.TagRoundTrip` | pkg/collector/cockroachlicense/license.go:60-65 | Reading a tag undoes writing it. |
| `Wire.BytesRoundTrip` | pkg/collector/cockroachlicense/license.go:106-115 | Reading length-prefixed bytes undoes writing them. |
| `Wire.ValueStays` | pkg/collector/cockroachlicense/license.go:147-153 | What follows a value of any type, nested groups included, does not change how it is skipped. |
| `WireSkips.FieldValueSkipped` | pkg/collector/cockroachlicense/license.go:147-153 | Skipping a value of any type takes exactly what writing it puts out, whatever follows: numbers, four bytes, eight bytes, length-prefixed bytes, and groups within groups, if and only if no more than 10001 are nested. |
| `WireSkips.WrongEnd` | pkg/collector/cockroachlicense/license.go:147-153 | A group that ends with the tag of another number cannot be skipped. |
| `WireSkips.NoSuchType` | pkg/collector/cockroachlicense/license.go:147-153 | A wire type that there is none of, or the end of a group outside one, cannot be skipped. |
| `Base64.RoundTrip` | pkg/collector/cockroachlicense/license.go:54-54 | Decoding unpadded base64 undoes encoding it. |
| `Base64.LineBreaksSkipped` | pkg/collector/cockroachlicense/license.go:54-57 | A line break anywhere in the text changes nothing. |
| `Base64.AlphabetIs` | pkg/collector/cockroachlicense/license.go:54-57 | A digit is written as the character in its place of the alphabet, and only that character is read as it. |
| `Base64.ReadIff` | pkg/collector/cockroachlicense/license.go:54-57 | A text can be read exactly when it has only characters of the alphabet and line breaks. |
| `Base64.BytesIff` | pkg/collector/cockroachlicense/license.go:54-57 | One digit too many is an error, and otherwise four digits make three bytes. |
| `License.UUIDForm` | pkg/collector/cockroachlicense/license.go:179-181 | An id is written as 8, 4, 4, 4 and 12 hex digits between hyphens. |
| `License.UUIDReadsBack` | pkg/collector/cockroachlicense/license.go:179-181 | Without its hyphens an id has two digits for every byte in order, which by their own values are its sixteens and its ones. |
| `License.UUIDInjective` | pkg/collector/cockroachlicense/license.go:179-181 | Different ids are written differently. |
| `License.DecodeLicense` | pkg/collector/cockroachlicense/license.go:43-156 | The decoder gives the empty result, the error or the license that the message's records make, and always ends; what the text of an id says is in UUIDReadsBack. |
| `License.DecodeMessage` | pkg/collector/cockroachlicense/license.go:59-155 | The loop over the buffer is the fold of the updates of its records. |
| `License.DecodeRecord` | pkg/collector/cockroachlicense/license.go:59-155 | One round takes at least one byte and does what its record says, or fails as it must. |
| `License.DecodeField` | pkg/collector/cockroachlicense/license.go:67-154 | The switch gives each field its value and range, and each error its cause. |
| `LicenseMessages.UUIDFieldRead` | pkg/collector/cockroachlicense/license.go:158-181 | Reading an id gives its text and the bytes taken, or the error for another type, another length or bytes cut short. |
| `LicenseMessages.NumberFieldRead` | pkg/collector/cockroachlicense/license.go:67-140 | A number field gives its value up to the largest of its type of int, and an overflow of that field above it. |
| `LicenseMessages.FieldTypesChecked` | pkg/collector/cockroachlicense/license.go:67-177 | A known field of another wire type than its own is an error of that field. |
| `LicenseMessages.CutFieldFails` | pkg/collector/cockroachlicense/license.go:67-177 | A known field that is cut short is an error of that field. |
| `LicenseMessages.TextsRefused` | pkg/collector/cockroachlicense/license.go:43-57 | No text is no license; a text without the prefix, or with other than base64 behind it, is invalid. |
| `LicenseMessages.NothingGiven` | pkg/collector/cockroachlicense/license.go:59-60 | What no record gives is zero or empty. |
| `LicenseMessages.ReadRecordSteady` | pkg/collector/cockroachlicense/license.go:59-155 | A record is read the same whatever follows it, and always takes something. |
| `LicenseMessages.DecodingContinues` | pkg/collector/cockroachlicense/license.go:59-155 | Decoding a message and then more is decoding more on top of what the message gave. |
| `LicenseMessages.UnknownField` | pkg/collector/cockroachlicense/license.go:147-153 | A well-formed field of any other number and any type is a record that does nothing. |
| `LicenseMessages.UnknownFieldSkipped` | pkg/collector/cockroachlicense/license.go:147-153 | Such a record anywhere in a message changes nothing. |
| `LicenseMessages.LaterFieldWins` | pkg/collector/cockroachlicense/license.go:67-146 | When a field comes again later its earlier record might as well not be there. |
| `LicenseMessages.CutRecordFails` | pkg/collector/cockroachlicense/license.go:60-66 | A message that is cut inside a record is rejected, whatever came before. |
| `LicenseMessages.FieldsCommute` | pkg/collector/cockroachlicense/license.go:67-146 | Two different fields may come in either order. |
| `LicenseMessages.LicenseRoundTrip` | pkg/collector/cockroachlicense/license_test.go:88-120 | Decoding the encoding of any license gives back its fields, with ids as text. |
| `LicenseMessages.EncodingLosesNothing` | pkg/collector/cockroachlicense/license_test.go:88-120 | Licenses whose encodings decode alike are alike. |
| `Lifecycle.BaseCollector.BeginStart` | pkg/collector/base/base.go:137-154 | The first critical section begins a cycle with new channels, or fails when one is running. |
| `Lifecycle.BaseCollector.RollBack` | pkg/collector/base/base.go:161-176 | The second critical section ends whatever cycle is running. |
| `Lifecycle.BaseCollector.Stop` | pkg/collector/base/base.go:185-208 | Stop ends the running cycle, or fails. |
| `Lifecycle.BaseCollector.SetReady` | pkg/collector/base/base.go:234-250 | SetReady marks the collector ready, unless closing the ready channel panics. |
| `Lifecycle.BaseCollector.BeginWait` | pkg/collector/base/base.go:261-267 | WaitReady takes note of the state without changing it. |
| `Lifecycle.StepKeepsInv` | pkg/collector/base/base.go:137-250 | Every critical section keeps the flags, channels and contexts in step. |
| `Lifecycle.OneContextWhileStarted` | pkg/collector/base/base.go:145-150 | Over every run: started iff a cancel is stored iff a stopped channel is, and exactly then one context is uncancelled. |
| `Lifecycle.StartedSince` | pkg/collector/base/base.go:137-208 | Over every run: started exactly when a Start has come since the last Stop and the last failed hook. |
| `Lifecycle.ReadySince` | pkg/collector/base/base.go:137-250 | Over every run: ready exactly when SetReady has come and since then no cycle was begun and none was ended. |
| `Lifecycle.CyclesBegun` | pkg/collector/base/base.go:137-154 | Over every run: as many cycles as Starts that found the collector stopped, and while started the context and both channels are those of the last. |
| `Lifecycle.ChannelsCloseOnce` | pkg/collector/base/base.go:171-174 | No channel is closed twice, and every cycle that is over has closed its stopped channel. |
| `Lifecycle.ReadyWhileStarted` | pkg/collector/base/base.go:234-250 | While started, SetReady cannot panic and ready says whether the ready channel is closed. |
| `Lifecycle.ReadyPanicsIff` | pkg/collector/base/base.go:247-249 | SetReady panics exactly when the collector is stopped, not ready, and was ready in its last cycle. |
| `Lifecycle.ReadyCanPanic` | pkg/collector/base/base.go:331-349 | A run in which a poll loop outlives its cycle and the next cycle has been ready and has ended brings that about. |
| `Lifecycle.ReadyWhenWaited` | pkg/collector/base/base.go:261-287 | WaitReady says ready only if the collector was ready when it looked, or at some time in the cycle it looked at. |
| `Lifecycle.WaitAnswersIff` | pkg/collector/base/base.go:261-288 | The exact condition for each answer of WaitReady: ready, not started, stopped, or given up. |
| `Lifecycle.WaitersAreReleased` | pkg/collector/base/base.go:279-286 | Nobody waits past the end of a cycle or past readiness. |
| `Lifecycle.EmitsWhenReady` | pkg/collector/base/base.go:416-448 | A collection emits only for a collector that was started, and ready in that cycle or a later one. |
| `Lifecycle.FailEndsOthersIff` | pkg/collector/base/base.go:159-179 | The rollback of a failed Start ends a cycle that is not its own exactly when a newer one is running. |
| `Lifecycle.FailCanEndNewer` | pkg/collector/base/base.go:159-179 | A run in which it does. |
| `Registry.CreateMakesDistinct` | pkg/registry/registry.go:136-193 | Every enabled name ends up with an instance or a failure, and no instance is shared or older than the call. |
| `Registry.CreatedIff` | pkg/registry/registry.go:158-192 | A name has an instance exactly when some factory call for it made one, and a failure exactly when one for it failed. |
| `Registry.LastCallCounts` | pkg/registry/registry.go:158-192 | The last call for a name that made an instance decides whether it needs a leader, and the last that failed decides the failure. |
| `Registry.Registry.Initialize` | pkg/registry/registry.go:99-110 | Initialising twice fails and changes nothing; otherwise the instances are those created. |
| `Registry.Registry.Reinitialize` | pkg/registry/registry.go:121-132 | The old instances are forgotten and new ones created. |
| `Registry.Registry.CreateCollectors` | pkg/registry/registry.go:136-193 | The loop over the enabled names creates them in order, a later one of the same name replacing an earlier. |
| `Registry.Registry.StartCollectors` | pkg/registry/registry.go:229-286 | The selected instances that start are started, in any order; an error is reported iff one was started or fails. |
| `Registry.Registry.StopCollectors` | pkg/registry/registry.go:289-314 | The selected instances are stopped; an error is reported iff one was not started. |
| `Registry.Registry.StartCollector` | pkg/registry/registry.go:213-223 | Only the named instance is started, if there is one and it can be. |
| `Registry.Registry.StopCollector` | pkg/registry/registry.go:353-363 | Only the named instance is stopped, if it was started. |
| `Registry.LeaderManagedOnce` | pkg/registry/registry.go:427-441 | The leader-managed names are listed each once, and no others. |
| `Server.Server.Init` | server/server.go:76-107 | Init makes the collectors as the step of the model does, all of them new. |
| `Server.Server.BeginReload` | server/reload.go:26-29 | Reload begins to stop by the configuration still in force: electors first, or everything at once. |
| `Server.Server.StopLeaderElections` | server/leader_election.go:142-161 | All handles are taken and exactly their electors are cancelled. |
| `Server.Server.FinishStop` | server/collectors.go:27-36 | Once the electors are done the collectors that need no leader are stopped. |
| `Server.Server.Configure` | server/reload.go:43-45 | The new election setting comes into force: over every run it is that of the last configuration (ServerReload.ElectionInForce). |
| `Server.Server.Recreate` | pkg/registry/registry.go:121-132 | New instances replace the old ones, which are dropped. |
| `Server.Server.StartCollectors` | server/collectors.go:8-21 | Everything is started, or what needs no leader while the rest is left to its electors. |
| `Server.Server.MakeElector` | server/leader_election.go:40-131 | One elector more runs, or all that were made are cancelled. |
| `Server.Server.Publish` | server/leader_election.go:134-138 | The electors made become the handles that the next stop takes. |
| `Server.Server.Abort` | server/leader_election.go:50-62 | Once the cancelled electors are done the failed set-up is over, with no handles. |
| `Server.Server.Lead` | server/leader_election.go:65-78 | A leading elector starts the collector that has its name now. |
| `Server.Server.End` | server/leader_election.go:79-131 | Any elector that is not done may end, and stops the collector that has its name now. |
| `Server.Server.BeginShutdown` | server/server.go:182-203 | Shutdown begins to stop by the configuration in force. |
| `Server.Server.FinishShutdown` | server/collectors.go:27-36 | Once the electors are done the collectors that need no leader are stopped. |
| `ServerReload.StepKeepsInv` | server/reload.go:15-83 | Every step of Init, Reload, Shutdown and the electors keeps started instances current and led, and live electors owned, as long as no reload begins while a shutdown waits for an elector; Shutdown may begin anywhere. |
| `ServerReload.StartedAreCurrent` | server/collectors.go:24-63 | Over every such run, whatever is started is in the current collectors map. |
| `ServerReload.ElectionInForce` | server/reload.go:43-45 | Over every run, overlapping or not: whether there is election is what the last Init or Configure says, and at first there is none. |
| `ServerReload.CancelledIff` | server/leader_election.go:141-159 | Over every run, overlapping or not, an elector is cancelled exactly when Reload or Shutdown takes its handle, or when one made after it could not be, and keeps its name. |
| `ServerReload.LedWhileStarted` | server/leader_election.go:64-93 | When the last configuration turns election on, a started collector that needs a leader has exactly one elector that leads it, over every run in which no reload begins while a shutdown waits. |
| `ServerReload.OldStayStopped` | server/reload.go:15-83 | Over every such run, no instance made before a completed reload is started after it. |
| `ServerReload.ReloadStopsFirst` | server/reload.go:27-29 | Over every such run, when a reload replaces the collectors nothing is started and no elector is alive. |
| `ServerReload.WaitingCanEnd` | server/leader_election.go:142-161 | Over every such run, each elector that an operation still waits for has been cancelled and can end. |
| `ServerOverlap.DoneStaysDone` | server/leader_election.go:108-131 | Over every run whatever, an elector that is done stays done. |
| `ServerOverlap.CurrentIff` | pkg/registry/registry.go:121-132 | At any point of any run, all that is started is in the registry if and only if no replacement so far found anything started. |
| `ServerOverlap.DroppedStaysStarted` | pkg/registry/registry.go:121-132 | An instance dropped while started is never stopped again, by any later reload or shutdown. |
| `ServerOverlap.ReloadInShutdown` | server/server.go:182-206 | A run from the start that shows it: a reload begun while Shutdown waits leaves a collector started though Shutdown finishes and every elector ends. |
| `ServerOverlap.AtRestAfterShutdownIff` | server/server.go:182-206 | At any point of any run where Shutdown can begin: nothing can run once it is over, until a new reload begins, if and only if the state is settled. |
| `ServerOverlap.Continues` | server/server.go:182-206 | What may follow the last state of a run, in the sense of the previous row, continues the run. |
| `ServerOverlap.ShutdownInReload` | server/reload.go:15-83 | A run from the start that shows the failure: a Shutdown begun in the middle of a Reload is over before the new collectors are started. |
| `ServerOverlap.ReloadRunsAgain` | server/reload.go:15-83 | A reload that begins after Shutdown is over can always bring collectors up again. |
| `WorkerPool.CheckInTurn` | pkg/collector/domain/checker.go:161-165 | The branch for one address leaves every slot fully checked, in place. |
| `WorkerPool.StepKeepsInv` | pkg/collector/domain/checker.go:166-190 | Every step keeps each slot exactly as far as its one check has come. |
| `WorkerPool.HandedOnce` | pkg/collector/domain/checker.go:177-186 | No index is handed out twice. |
| `WorkerPool.OneWorkerEach` | pkg/collector/domain/checker.go:169-175 | No two workers ever check the same index. |
| `WorkerPool.TenAtMost` | pkg/collector/domain/checker.go:167-169 | There are never more than ten workers, and never more than addresses. |
| `WorkerPool.DoneChecksPrefix` | pkg/collector/domain/checker.go:177-190 | A pool that is done, cancelled or not, has checked the addresses up to some index fully and the rest not at all. |
| `WorkerPool.PoolIsSequential` | pkg/collector/domain/checker.go:160-190 | Without cancellation the pool leaves what checking in turn leaves, under every schedule. |
| `WorkerPool.NeverStuck` | pkg/collector/domain/checker.go:166-190 | The pool cannot deadlock. |
| `WorkerPool.StepLeavesLess` | pkg/collector/domain/checker.go:166-190 | Every step leaves less to do. |
| `WorkerPool.RunsEnd` | pkg/collector/domain/checker.go:166-190 | Every run of the pool ends within a bound known at its start. |
| `DomainChecker.CheckIPs` | pkg/collector/domain/checker.go:83-249 | The health of a domain in all cases: failed lookup, no addresses, and the counts of healthy and unhealthy. |
| `DomainChecker.HealthyArePassing` | pkg/collector/domain/checker.go:194-214 | Without cancellation the healthy addresses are those whose enabled checks pass. |
| `DomainChecker.ResultsSay` | pkg/collector/domain/checker.go:160-190 | A finished pool leaves, for each address it got to, what each enabled check found; for every other address, and for every check that is off, that nothing was checked. |
| `DomainChecker.CancelledCount` | pkg/collector/domain/checker.go:177-214 | After a cancellation the unchecked addresses count as unhealthy, unless no check is enabled. |
| `RegistryChecker.CheckIPs` | pkg/collector/registryproxy/checker.go:102-216 | The health of a registry in all cases: failed lookup, no addresses, and the counts of healthy and unhealthy. |
| `RegistryChecker.CountHealthy` | pkg/collector/registryproxy/checker.go:189-198 | Healthy are those whose API and manifest checks passed, and healthy and unhealthy add up. |
| `RegistryChecker.HealthyArePassing` | pkg/collector/registryproxy/checker.go:156-198 | However the pool ends, the healthy addresses are those it got to whose two requests were accepted. |
| `RegistryChecker.AcceptedStatuses` | pkg/collector/registryproxy/checker.go:297-327 | A manifest is accepted with a status of two hundred and something, the API also with 401, and nothing without an answer. |
| `RegistryChecker.ResultsSay` | pkg/collector/registryproxy/checker.go:218-245 | A finished pool leaves both statuses of each address it got to and whether each was accepted, and of the others that nothing was checked. |
| `DatabasePool.LimitsHold` | pkg/collector/database/database.go:392-421 | Never more checks of a type at once than its limit. |
| `DatabasePool.SendingNeverBlocks` | pkg/collector/database/database.go:357-357 | A finished check never waits for room in the status channel. |
| `DatabasePool.NoPanicUnlessGaveUp` | pkg/collector/database/database.go:370-373 | Unless a launcher gave up nothing is sent on the closed channel, and it closes only when every task is through. |
| `DatabasePool.EachStatusOnce` | pkg/collector/database/database.go:375-382 | Unless a launcher gave up every task's status is received exactly once. |
| `DatabasePool.PanicsIff` | pkg/collector/database/database.go:400-404 | For any plan: some run panics, sending on the closed channel, if and only if two tasks share a type whose limit is at least one. |
| `DatabasePool.PanicNeedsShare` | pkg/collector/database/database.go:370-445 | Any run that panics has two tasks of one type whose limit is at least one. |
| `DatabasePool.SharePanics` | pkg/collector/database/database.go:400-445 | For any such plan a run from the start that panics. |
| `DatabasePool.NeverStuck` | pkg/collector/database/database.go:344-445 | With limits of at least one the pool cannot deadlock. |
| `DatabasePool.ZeroLimitGivesUp` | pkg/collector/database/database.go:395-413 | A poll that is over has given up every type whose limit is zero: by itself it never finishes. |
| `DatabasePool.FinishesIff` | pkg/collector/database/database.go:344-445 | A plan can be finished without giving up if and only if each of its types has a limit of at least one. |
| `DatabasePool.StepLeavesLess` | pkg/collector/database/database.go:344-445 | Every step leaves less to do. |
| `DatabasePool.RunsEnd` | pkg/collector/database/database.go:344-445 | Every run of the pool ends. |
| `DatabaseCollector.KeyInjective` | pkg/collector/database/database.go:378-378 | With no slash in namespaces different databases have different keys. |
| `DatabaseCollector.CollectStatuses` | pkg/collector/database/database.go:375-382 | The map has, under every key, the last status received for it. |
| `DatabaseCollector.PollCoversTasks` | pkg/collector/database/database.go:344-383 | Unless a launcher gave up, the map has exactly the tasks' databases, as many as tasks iff no two share a key, and then each with the result of its own check. |
| `DatabaseCollector.CalculateStatistics` | pkg/collector/database/database.go:464-485 | Total, available and unavailable are the numbers of databases, of connected ones and of the others. |
| `DatabaseCollector.CalculateTypeStatistics` | pkg/collector/database/database.go:681-706 | The same figures for every type that some database has. |
| `DatabaseCollector.StatsSay` | pkg/collector/database/database.go:464-485 | Of all databases and of those of any one type: available are the connected ones, unavailable the others, and a type has figures exactly when some database has it. |
| `DatabaseCollector.StatsAddUp` | pkg/collector/database/database.go:464-485 | Available and unavailable add up to total. |
| `DatabaseCollector.TypesSumToAll` | pkg/collector/database/database.go:637-678 | The figures of the types sum to the figures for all. |
| `DatabaseCollector.Collector.Poll` | pkg/collector/database/database.go:156-185 | The statuses that a finished run of the pool has delivered replace the old ones together with their figures; each is the result of a check of its own task, and all tasks are covered unless a launcher gave up. |
| `DatabaseCollector.Collector.Collect` | pkg/collector/database/database.go:598-678 | At every collection the figures fit the databases and add up. |
| `FanIn.StepKeepsInv` | pkg/registry/collector.go:153-205 | Every step keeps every metric sent somewhere on its way, in the order of sending. |
| `FanIn.NoSendAfterClose` | pkg/registry/collector.go:187-195 | Nothing is sent on the wrapper's channel after it is closed. |
| `FanIn.OutputIsComplete` | pkg/registry/collector.go:153-220 | The output is every metric of every collector exactly once, labelled, and then two metrics about each collector exactly once. |
| `FanIn.OutputSays` | pkg/registry/collector.go:127-220 | Whatever is in the output is a metric of a collector, labelled with the instance exactly when there is one, or says of a collector how long it took or whether it did not panic; there are two of the latter a collector. |
| `FanIn.OutputKeepsOrder` | pkg/registry/collector.go:208-220 | The metrics of one collector keep their order and the metrics about collectors come last. |
| `FanIn.QueueBounded` | pkg/registry/collector.go:166-173 | No more than a hundred metrics wait for the wrapper, and without an instance none does. |
| `FanIn.PanicsAreReported` | pkg/registry/collector.go:80-120 | A collector's success metric says whether it panicked, and what it sent before reaches the output either way. |
| `FanIn.RoomForResult` | pkg/registry/collector.go:178-178 | The result channel has room for every collector. |
| `FanIn.NeverStuck` | pkg/registry/collector.go:153-205 | While the reader drains the output the collection cannot deadlock. |
| `FanIn.RunsEnd` | pkg/registry/collector.go:153-205 | Every collection ends. |
| `PullReasons.StoredIsLastOther` | pkg/collector/imagepull/imagepull.go:173-180 | The last reason that is not backoff is kept if it is specific, and an unknown one gives way to a later backoff. |
| `PullReasons.BackOffIff` | pkg/collector/imagepull/classifier.go:107-109 | Backoff is stored exactly when the last is backoff and nothing was specific since the last unknown. |
| `PullReasons.FirstTestDecides` | pkg/collector/imagepull/classifier.go:69-101 | Of the eight tests in their order the first that a message passes says the reason, and unknown if it passes none. |
| `PullReasons.WordsClassified` | pkg/collector/imagepull/classifier.go:65-105 | Only ErrImagePull and ImagePullBackOff, in any case, leave the reason to the lower-case message; any other word stands for itself in lower case. |
| `PullReasons.LowerCased` | pkg/collector/imagepull/classifier.go:66-67 | Every capital letter becomes its small one and no other character changes. |
| `PullReasons.RegistryBeforeSlash` | pkg/collector/imagepull/imagepull.go:386-397 | The registry is what stands before the first slash if it has a dot, docker.io for any other image, and unknown for none. |
| `PullReasons.PublicHosts` | pkg/collector/imagepull/imagepull.go:407-423 | Which images are public, by the host before the first slash and two kinds of substrings. |
| `PullReasons.ContainsIff` | pkg/collector/imagepull/imagepull.go:399-423 | A text contains another exactly when it is something, the other and something joined. |
| `ImagePull.SourceRulesSay` | pkg/collector/imagepull/imagepull.go:220-241 | A container fails by one of seven words for a public image, is being created by another word without a back-off message, and is classified by its reason and message. |
| `ImagePullReports.FailureReported` | pkg/collector/imagepull/imagepull.go:346-358 | After any history of plainly named pods, what is emitted for a container is nothing outside an attempt, and within one its namespace, pod, node, image, the image's registry and the reason its run of failures calls for. |
| `ImagePullHistory.SlowIff` | pkg/collector/imagepull/imagepull.go:272-326 | After any history a pull is slow exactly since the function of a timer for it found it still being created and as long as every event has left it alone. |
| `ImagePullHistory.WatchedIff` | pkg/collector/imagepull/imagepull.go:243-284 | After any history a pull is watched exactly since a pod showed it being created and as long as every event has left it alone and no function of a timer for it has run. |
| `ImagePullHistory.RunsOnce` | pkg/collector/imagepull/imagepull.go:256-284 | The function of a timer runs at most once, and its time does not come again. |
| `ImagePullReports.StoredReason` | pkg/collector/imagepull/imagepull.go:153-194 | After any history of pod events, deletions and timers, a failure is stored for a container if and only if it is in an attempt, with the attempt's node and image and the reason its run of failures calls for. |
| `ImagePullReports.BackOffStoredIff` | pkg/collector/imagepull/classifier.go:65-109 | By the source's own classifier: the stored reason is backoff if and only if the last message says so and none was specific since the last unknown one. |
| `ImagePullReports.SlowPullsAreSlow` | pkg/collector/imagepull/imagepull.go:359-377 | A slow pull is emitted with the pod, node and image of an event that showed it being created, and the image's registry; its seconds are the threshold and the time since its timer's function ran, a threshold or more after that event. |
| `ImagePullReports.SecondsCount` | pkg/collector/imagepull/imagepull.go:359-366 | The seconds of a slow pull count from when it is said to have begun, and are 0 for a clock before that. |
| `ImagePullReports.StoredFailuresClashIff` | pkg/collector/imagepull/imagepull.go:346-358 | At any point of any run the failures emitted are different series if and only if no two containers of one pod have the same failure stored. |
| `ImagePullReports.FailuresClashIff` | pkg/collector/imagepull/imagepull.go:346-358 | After any history of plainly named pods they are different series if and only if no two containers of one pod are in attempts on the same node and image whose runs of failures call for the same reason. |
| `ImagePullReports.SlowPullsClashIff` | pkg/collector/imagepull/imagepull.go:359-377 | The slow pulls emitted are different series if and only if no two containers of one pod are slow on the same node and image. |
| `ImagePullReports.OneImageTwiceSlow` | pkg/collector/imagepull/imagepull.go:359-377 | The failing family: any pod whose two containers are slow on one image, with a run from the start. |
| `ImagePullReports.OneImageTwice` | pkg/collector/imagepull/imagepull.go:346-358 | The failing family: any pod whose two containers fail alike on one image gives the same series twice. |
| `ImagePullRuns.StepKeepsInvIff` | pkg/collector/imagepull/imagepull.go:272-338 | A step keeps failures apart from slow pulls and timers, and every armed timer found under its key, unless it is a timer's function that runs too late and does harm: then exactly not. |
| `ImagePullRuns.InStepThroughoutIff` | pkg/collector/imagepull/imagepull.go:109-338 | Over any run, maps and timers stay in step throughout if and only if no timer's function does harm. |
| `ImagePullRuns.InTimeIsHarmless` | pkg/collector/imagepull/imagepull.go:272-326 | A timer's function that runs while its key still stands for its timer never does harm. |
| `ImagePullReports.LateTimerHarms` | pkg/collector/imagepull/imagepull.go:329-338 | A run from the start in which a function stopped too late reports a pull as failing and as slow at once. |
| `ImagePullReports.LateTimerLosesNewer` | pkg/collector/imagepull/imagepull.go:272-284 | A run from the start in which such a function takes a newer timer out of the map, so that deleting the pod does not stop it. |
| `ImagePullRuns.UnderIff` | pkg/collector/imagepull/imagepull.go:131-136 | A key is under a pod's prefix exactly when it is a key of that pod. |
| `ImagePullRuns.DeleteIsExact` | pkg/collector/imagepull/imagepull.go:109-150 | At any point of any run, deleting a pod removes its failures and slow pulls and no other pod's, and stops exactly its timers as long as each is found under its key. |
| `ImagePull.Tracker.HandlePodAdd` | pkg/collector/imagepull/imagepull.go:86-95 | A pod is processed, and anything else ignored. |
| `ImagePull.Tracker.HandlePodUpdate` | pkg/collector/imagepull/imagepull.go:97-106 | The new pod is processed, and anything else ignored. |
| `ImagePull.Tracker.ProcessPod` | pkg/collector/imagepull/imagepull.go:153-217 | The loop over the statuses changes the three maps as stated, container by container. |
| `ImagePull.Tracker.ProcessStatus` | pkg/collector/imagepull/imagepull.go:168-216 | One status sets, keeps or clears the failure, the slow pull and the timer of its container. |
| `ImagePull.Tracker.CheckSlowPull` | pkg/collector/imagepull/imagepull.go:243-269 | A timer is armed unless the container has one. |
| `ImagePull.Tracker.CleanupSlowPull` | pkg/collector/imagepull/imagepull.go:329-338 | The slow pull goes and its timer is stopped, if its function has not begun. |
| `ImagePull.Tracker.Expire` | pkg/collector/imagepull/imagepull.go:256-260 | A timer whose time has come can no longer be stopped. |
| `ImagePull.Tracker.HandleSlowPullTimer` | pkg/collector/imagepull/imagepull.go:272-326 | The timer under the key is forgotten, and a slow pull that began a threshold ago recorded iff the container is still being created. |
| `ImagePull.Tracker.HandlePodDelete` | pkg/collector/imagepull/imagepull.go:109-150 | For a pod given outright or as a last known state, the three loops remove what is under its prefix and stop its timers; anything else is ignored. |
| `ImagePull.Tracker.Collect` | pkg/collector/imagepull/imagepull.go:340-378 | One sample for each failure and each slow pull, whatever order the maps are ranged over. |
| `Reloader.Reloader.HandleEvent` | pkg/config/reloader.go:101-144 | Exactly the relevant events put the timer off by a debounce. |
| `Reloader.RelevantIff` | pkg/config/reloader.go:116-137 | A write, creation or removal matters for the file, its name, and ..data, and for no other path, and nothing else matters. |
| `Reloader.Reloader.ScheduleReload` | pkg/config/reloader.go:166-181 | One timer is pending, a debounce from now. |
| `Reloader.Reloader.Stop` | pkg/config/reloader.go:78-98 | A pending reload is called off. |
| `Reloader.Reloader.Watch` | pkg/config/reloader.go:101-202 | Until Stop, the callback gets the file exactly when a relevant event lies one debounce back and none since. |
| `Reloader.ReloadsAreApart` | pkg/config/reloader.go:166-181 | Two reloads are at least a debounce apart. |
| `Reloader.BurstMakesOne` | pkg/config/reloader.go:164-181 | Events that keep coming closer together than the debounce make one reload, after the last. |
| `Reloader.FinalFileDelivered` | pkg/config/reloader.go:184-202 | A run that ends in a quiet debounce, not stopped in it, has passed the final content of the file to the callback, last of all. |
| `ReloaderRuns.CurrentIsDelivered` | pkg/config/reloader.go:164-202 | With reloads that take time and overlap in any way: once nothing is under way the file as it is has been delivered. |
| `ReloaderRuns.FinalIsCurrentIff` | pkg/config/reloader.go:164-202 | Once nothing is under way, the last delivery is of the file as it is if and only if the last callback was not overtaken by one that read later. |
| `ReloaderRuns.FinalIsCurrent` | pkg/config/reloader.go:164-202 | If each reload is through before the next begins, the last delivery is of the file as it is. |
| `ReloaderRuns.StaleIsDelivered` | pkg/config/reloader.go:174-180 | A run from the start in which an overtaken reload delivers old content last. |
| `ReloaderRuns.DeliversAfterStopIff` | pkg/config/reloader.go:78-98 | Once Stop is over something can still be delivered if and only if a timer, a reload or an event is under way. |
| `ReloaderRuns.DeliveredAfterStop` | pkg/config/reloader.go:78-98 | A run from the start in which the timer is set anew after Stop stopped it, and the file is delivered. |
| `ReloaderHistory.TimerIff` | pkg/config/reloader.go:166-181 | Over every run the timer is pending exactly when it has been set since it last fired and was stopped, and then for a debounce after that. |
| `ReloaderHistory.FiresAfterDebounce` | pkg/config/reloader.go:176-180 | It fires a debounce or more after it was last set. |
| `ReloaderHistory.NothingMissed` | pkg/config/reloader.go:101-144 | Over every run, what the watch loop has yet to receive is what the watcher said after what it has received, in that order. |
| `ReloaderHistory.LoopSays` | pkg/config/reloader.go:101-162 | Between a relevant event and the next one received the timer is set, and once the loop has ended it receives and sets nothing more. |
| `ReloaderHistory.DeliveredWasFile` | pkg/config/reloader.go:184-202 | Whatever is delivered is what the file once had, and each callback delivers one content. |
| `Decimal.AtoiItoa` | pkg/collector/domain/runtime.go:326-337 | Reading a number undoes writing it. |
| `Decimal.AtoiSigned` | pkg/collector/domain/runtime.go:327-327 | A sign may stand before a number, and a number out of range is none. |
| `Decimal.AtoiOnly` | pkg/collector/domain/runtime.go:327-327 | After a sign, if any, come digits and nothing but digits. |
| `Decimal.ItoaDigits` | pkg/collector/domain/http.go:180-180 | Ten times a number and a digit is written with that digit behind it. |
| `Endpoint.Padded` | pkg/collector/domain/runtime.go:261-264 | White space around an endpoint does not matter, and white space alone is an empty target. |
| `Endpoint.SpaceIff` | pkg/collector/domain/runtime.go:261-261 | White space is the 25 code points that Unicode counts as such. |
| `Endpoint.SeparatorsRefused` | pkg/collector/domain/runtime.go:266-271 | Schemes, paths, queries and fragments are refused. |
| `Endpoint.HostAlone` | pkg/collector/domain/runtime.go:286-287 | A host alone has port 443. |
| `Endpoint.HostWithPort` | pkg/collector/domain/runtime.go:273-281 | A port behind a host is read as a number from 1 to 65535, and is an error of its own kind otherwise. |
| `Endpoint.ColonsAlone` | pkg/collector/domain/runtime.go:288-297 | Several colons without brackets are an address with port 443, or an error. |
| `Endpoint.Bracketed` | pkg/collector/domain/runtime.go:273-287 | In brackets a host is taken without them, alone with port 443 or with the port that follows. |
| `Endpoint.SplitJoined` | pkg/collector/domain/runtime.go:273-281 | Splitting host and port undoes joining them. |
| `Endpoint.ParsePrinted` | pkg/collector/domain/http.go:172-181 | Parsing undoes printing for every host without white space, brackets and separators, with colons or without, and for port 443 as for others. |
| `Endpoint.ParsePrintedIff` | pkg/collector/domain/http.go:172-181 | Over all hosts and ports whatever, parsing undoes printing if and only if the port is in range and the host has no separators and meets the stated condition on white space and brackets. |
| `Endpoint.PrintParsed` | pkg/collector/domain/runtime.go:260-324 | What parses has a host and a port in range, and printing it and parsing again gives the same if and only if the host meets that condition. |
| `Endpoint.NestedBrackets` | pkg/collector/domain/runtime.go:303-306 | A failing family: a name between two pairs of brackets is parsed, printed and parsed again to two different hosts. |

## Left out

- HTTP servers, routes, authentication, TLS certificates, pprof, the debug server and logging: plumbing around libraries.
- Kubernetes, MongoDB, PostgreSQL, Redis, DNS and cloud clients: only the values and events they deliver are modelled.
- The leader election algorithm itself: only the callbacks of an elector are.
- The node, zombie, LVM, cloud balance, user balance and identity collectors: short single-branch facts.
- Start and Stop of the CRD informer, its resync and its statistics: one flag and one channel.
- CrdHelpers: the float parser of strings is left symbolic, so two strings give the same number only if they are the same string.
- CrdMetrics: the case-insensitive comparison of states folds ASCII letters only; no other character folds to a letter of the one word it is used for, true.
- MetricStore.Store.BuildObjectMetrics: goes on where the source panics because a sample cannot be made; `CrdMetrics.SamplesMadeIff` says when that is.
- MetricStore.Store.SnapshotMetrics: states the bag of samples and not their order, which the source takes from maps; its inner count maps may be left empty rather than removed, as in the source, and this is not observable.
- Mongo: a document is a map, so repeated and ordered fields are not modelled; arrays in the matched `type` and `time` fields are not either.
- Billing.AggregateBillingDocuments: usage values are integers or texts; floats and decimals, which the source converts, are not among the values here.
- Loading the billing properties, and the window's times as text among the labels of the snapshot metrics.
- License: the name strings of license types and environments.
- Lifecycle: Start hands its hook the context it finds in the field when it calls it, without the lock; which context that is, when another Start comes in between, is not modelled. Health, the poll loop's ticker and the order of its log lines are not either.
- Server: one loop over the registry's collectors is one step, though it holds only a read lock, so that a stopping loop of Shutdown and a starting loop of Reload could interleave. The lease names are not modelled.
- ServerReload.StepKeepsInv: leaves out a reload that begins while a shutdown still waits for an elector, because it is false of that one step; `ServerOverlap` covers it.
- WorkerPool: a check is a fixed number of writes to its slot whose values depend on the index alone, not on when they happen.
- DatabasePool.EachStatusOnce: stated for runs in which no launcher gave up, since one that did leaves tasks unlaunched.
- FanIn: sending on the output never waits, as its reader drains it; a metric is known by its collector and its place.
- ImagePull: the informer, the client that reads a pod again, and the state of a pod between two readings.
- Reloader: watcher errors, which are only logged, and the end of the watch loop when its context is done, which is that of Stop without the timer.
- The retry loops of the domain checker's connections, and the parsing of configured headers, paths and status codes.
