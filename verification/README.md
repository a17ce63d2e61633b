# TallyOwl: delivery, group commit, distributed reads and decisions, in Dafny

This project models the parts of TallyOwl in which a mistake loses or doubles
telemetry, shortens an answer without saying so, or lets two nodes disagree,
and proves what those parts promise. `dafny verify dfyconfig.toml` checks all
of it.

| file | what it models |
|---|---|
| `Batches.dfy` | items, frames, batches, and the order of what is in flight |
| `Network.dfy` | the collector, the reconnecting client and the pipelining client |
| `Ledger.dfy` | one moment of a driver, and every step another thread sees as whole |
| `Conservation.dfy` | runs of those steps: conservation, one logical commit, the byte bound |
| `Driver.dfy` | the app driver's methods, each recorded on such a run |
| `Spool.dfy` | the group-commit spool: steps of any number of threads, and the code |
| `Query.dfy`, `Fanout.dfy` | planning, merging and fanning out a distributed read |
| `Metrics.dfy` | metric aggregation in delta and cumulative mode |
| `Health.dfy` | slow detection against a median, with a hold time |
| `Seed.dfy` | the first voter set, read out of each node's own configuration |
| `Voters.dfy` | spreading voters over failure domains |
| `CratesPlan.dfy` | the order in which crates are published |
| `Orders.dfy`, `Sorting.dfy`, `Common.dfy` | the order of strings, sorting by any order, and shared types |

## How the pieces fit

**The driver.** `Driver` is a class with the fields the Go struct has. Two locks
let a capturing thread run between any two locked sections of the delivering
one, so wherever the delivering thread does not hold the buffer lock its method
calls `Others`, which performs any number of capture steps in any order. A ghost
field `run` is the sequence of ledgers the driver went through. Every method
proves that it only extended the run (`Onward` over its `Trail`), the lemmas of
`Conservation` hold at every moment of every run, and so each call of `Flush`,
`Submit`, `Drain` and `Shutdown` proves that whatever was captured before it is,
after it, in exactly one place. What the network does is chosen nondeterministically
at every dial, send and receive; the collector commits a batch ID once and
acknowledges only what is durable. What the application will ever capture is a
finite list, which is how the delivery loops end. `orphans` counts the calls that
stay outstanding without a batch: what is in flight is what is pending and those. A
request that does not encode makes orphans of exactly what was in flight, and every
other outcome of a call leaves no more of them than there were.

**The spool.** `Spools.Step` is one section of `put` under its lock, or one call
on the file. Runs range over every interleaving of any number of calls, with any
write or sync failing at any time. The class `Spool` holds the fields of the Go
struct, and each of its methods is one of those sections.

**Reads.** The merge is proved against independent sums over its parts and then
against the rows a single store would hold. The fan-out is a method over a cell
in which every node may answer anything.

**Where the code falls short of what its comments say.** Each of these is proved,
with the exact condition under which the code does what is promised.

- A spool waiter whose group could not be written is told that its payload is
  durable (`Spools.WaiterOfATornGroupIsTold`); what a publish releases is durable
  exactly when its group was written and synced
  (`Spools.ReleasedIsDurableIffSynced`). A leader can also be given an error for
  a payload that is durable (`Spools.LeaderOfALaterTornGroupIsRefused`): it is
  durable exactly when the mark had passed it before the failed group
  (`Spools.RefusedIsDurableIffCovered`).
- The bound of a distributed scan is a product that wraps. It never cuts a row
  exactly when the tablets' bounds fit it (`Fanouts.ScanTruncatesIffBoundIsSmall`),
  and with a per-tablet bound of 2^56 it drops every row and stays marked complete
  (`Fanouts.WrappedBoundDropsEverything`).
- A driver exceeds `MaxUnacknowledgedBytes` when an item is taken between the two
  updates of a seal (`Conservation.OverlapExceedsBound`), by at most one batch
  (`Conservation.HeldWithinBound`). It keeps the bound throughout a run exactly when
  each item taken also fitted beside the seal under way
  (`Conservation.BoundKeptIffNoOvershoot`).
- A connection that opened and could not be prepared, and a request that did not
  encode, cost a batch an attempt although its call never left, and a batch that was
  never sent can be given up so (`Conservation.NeverSentIsGivenUp`). Throughout a run
  whatever was charged or given up had been sent exactly when no step charges an
  unsent batch (`Conservation.AttemptsEarnedIffNoneUnsent`), and the attempts of a
  batch count its sends of unknown fate exactly when every charge is for a call that
  left (`Conservation.AttemptsAreSendsIff`). `Drivers.Driver.CallLocked` and
  `Drivers.Driver.SendLocked` say for every failure whether that batch's frame left.
- A label that contains a NUL byte shares its series with another label set, and so
  does every set of two labels or more (`Metrics.NulMakesLabelsCollide`). A key tells
  its labels from all others exactly when there are none, or one without a NUL
  (`Metrics.KeyIsUniqueIff`); among labels without NUL bytes every key does
  (`Metrics.KeyIdentifiesLabels`).
- A delta snapshot whose clock was read before the last one, and which took the lock
  after it, reports periods that end before they start
  (`Metrics.LateReadingRunsBackward`), and exactly such a snapshot does
  (`Metrics.PeriodsRunForwardIff`).
- A node can be called slow by the first assessment that finds it over, with every
  factor with which a node can be over at all (`Healths.SlowAtOnceIffFactor`), and is
  exactly when the report is as old as the hold time
  (`Healths.SlowAtOnceIffReportIsOld`). It was seen over for the hold time exactly
  when the assessment that first saw it was no later than the report
  (`Healths.SeenThatLongIffReportIsNotOlder`). A factor of zero can call a whole group
  slow, and no other can (`Healths.NeverAllSlowIffFactor`).
- A merge that is given more parts than planned tablets counts the surplus and stays
  complete (`Queries.SurplusIsCounted`); a right answer stays right exactly when the
  surplus adds nothing (`Queries.SurplusIsRightIffItAddsNothing`). The fan-out never
  gives it more.

## Model

| member | source | states |
|---|---|---|
| Network.Collector.Commit | packages/driver-go/driver.go:268-283 | a batch ID is one logical commit: a later frame under a committed ID changes nothing |
| Network.Client.Call | packages/driver-go/client.go:116-149 | at most two copies of the one frame leave, a failure is the kind that says "sent" exactly when something was sent, and a committed answer means the batch is durable |
| Network.Pipeline.constructor | packages/driver-go/pipeline.go:52-63 | a window below one is one, and nothing is outstanding |
| Network.Pipeline.Send | packages/driver-go/pipeline.go:124-149 | an ID is the next one and its frame is then outstanding; on a failure other than a broken connection nothing left and everything outstanding stays |
| Network.Pipeline.Recv | packages/driver-go/pipeline.go:153-189 | nothing is waiting exactly when nothing is in flight; a broken or unreadable reply leaves no connection and nothing in flight |
| Network.Pipeline.Reset | packages/driver-go/pipeline.go:193-200 | no connection means nothing in flight, and IDs are not reused |
| Batches.FlightOrderFollowsIds | packages/driver-go/driver.go:697-709 | the batches in flight, in order, are the pending batches by ascending send ID |
| Ledgers.NumberKeeps | packages/driver-go/driver.go:315-326 | numbering an item keeps the invariant: no two items share a number, and no item is too large for a frame |
| Ledgers.BufferKeeps | packages/driver-go/driver.go:327-351 | taking or refusing an item keeps the invariant, also while a seal is part-way |
| Conservation.StepKeeps | packages/driver-go/driver.go:469-528 | every step of either thread, or of the network, keeps the invariant |
| Conservation.RunKeeps | packages/driver-go/driver.go:315-351 | the invariant holds at every moment of every interleaving |
| Conservation.PlacesCover | packages/driver-go/driver.go:469-528 | the captured items are, as a multiset, the buffer, the batch in hand, what is in flight, what is held, what was acknowledged and what was given up |
| Conservation.InExactlyOnePlace | packages/driver-go/driver.go:645-709 | a captured item is in exactly one of those places, once |
| Conservation.CountersAddUp | packages/driver-go/driver.go:865-876 | `captured` is the sum of the sizes of those places |
| Conservation.EveryRunConserves | packages/driver-go/driver.go:315-351 | conservation of each item at every moment of every run |
| Conservation.EveryRunAccounts | packages/driver-go/driver.go:982-1014 | a driver that holds nothing has acknowledged or lost everything it captured |
| Conservation.RunIsLater | packages/driver-go/driver.go:315-351 | along a run what was captured, sealed and acknowledged only grows at its end, what was lost only at its front, no counter falls, and a committed frame stays |
| Conservation.ExtendingConserves | packages/driver-go/driver.go:402-403 | whatever was captured at some moment is at every later moment of the run in exactly one place |
| Conservation.SealedOnce | packages/driver-go/driver.go:454-528 | an item is in at most one sealed batch |
| Conservation.RetransmissionsAreIdentical | packages/driver-go/driver.go:268-283 | two frames that travelled under one batch ID are the same |
| Conservation.OneLogicalCommit | packages/driver-go/driver.go:268-283 | no item is in two logical commits |
| Conservation.AcknowledgedIsCommitted | packages/driver-go/driver.go:645-658 | a batch is acknowledged only if the collector committed that very frame |
| Conservation.EveryRunCommitsOnce | packages/driver-go/driver.go:882-919 | an acknowledged item is in one commit, the one of its own batch, and in no other, at every moment of every run |
| Conservation.AttemptsStayBelowLimit | packages/driver-go/driver.go:670-709 | no batch held or in flight has used up its attempts, at every moment of every run |
| Conservation.HeldWithinBound | packages/driver-go/driver.go:327-346 | with no seal part-way `sealedBytes` is the size of all that is sealed and unacknowledged; held bytes keep the bound when no item was taken inside a seal, and stay within one batch of it however often one was |
| Conservation.StepHolds | packages/driver-go/driver.go:327-346 | a step takes a driver from within its bound to over it exactly when it takes an item that fits the counted bytes and does not fit beside the seal under way |
| Conservation.BoundKeptIffNoOvershoot | packages/driver-go/driver.go:327-346 | the bound is kept at every moment of a run exactly when no step of it was such a capture |
| Conservation.OverlapExceedsBound | packages/driver-go/driver.go:505-526 | a run in which a capture between the two updates of a seal puts the driver over its bound |
| Conservation.FlightHasTravelled | packages/driver-go/driver.go:882-892 | at every moment of every run whatever is in flight was sent at least once |
| Conservation.StepEarns | packages/driver-go/driver.go:670-692 | a step leaves a batch charged or given up that was never sent exactly if it charges one, and only a failed preparation or encoding does |
| Conservation.AttemptsEarnedIffNoneUnsent | packages/driver-go/driver.go:670-692 | throughout a run whatever was charged an attempt, or fits a frame and was given up, had been sent, exactly when no step charges an unsent batch |
| Conservation.TraceTallies | packages/driver-go/driver.go:281 | at every moment of a run the attempts of every batch in hand, in flight or held are the failures of unknown fate charged to it |
| Conservation.AttemptsAreSendsIff | packages/driver-go/driver.go:281 | whenever a batch is charged its attempts are its sends of unknown fate, the one that gives it up included, exactly when every failure charged is of a call that left |
| Conservation.NeverSentIsGivenUp | packages/driver-go/driver.go:670-681 | a run in which a batch that was never sent is given up |
| Drivers.SurvivorsConcat | packages/driver-go/driver.go:670-681 | which batches a failure leaves is decided batch by batch |
| Drivers.KnownFateHoldsAll | packages/driver-go/driver.go:670-681 | a failure of known fate costs no attempt and ends no batch |
| Drivers.UnknownFateCostsOneAttempt | packages/driver-go/driver.go:670-681 | a failure of unknown fate costs each batch one attempt, and ends it exactly at the limit |
| Drivers.FailureKeepsCount | packages/driver-go/driver.go:670-681 | each batch is held or given up, never both or neither |
| Drivers.BackoffWait | packages/driver-go/driver.go:713-733 | the wait is the floor doubled for each failure and capped, positive and never above the ceiling |
| Drivers.Driver.CaptureNumber | packages/driver-go/driver.go:315-326 | an item gets the next number, and is refused exactly when it has no payload or fits no frame |
| Drivers.Driver.CaptureLocked | packages/driver-go/driver.go:327-351 | an item is taken exactly when it and all that is held fit the bound |
| Drivers.Driver.CountForBatch | packages/driver-go/driver.go:470-478 | as many items as the limits permit and no fewer |
| Drivers.Driver.EncodeToFit | packages/driver-go/driver.go:485-494 | the frame is a prefix of what was taken, halved only while it overflowed, and fits or is a single item |
| Drivers.Driver.SealLocked | packages/driver-go/driver.go:469-528 | what is removed is what was encoded, at the front and in order, and what is left is the rest of the buffer as it was or longer; one event that fits no frame is lost and counted |
| Drivers.Driver.NextBatchLocked | packages/driver-go/driver.go:454-461 | the oldest held batch goes first, and a new one is sealed only when none is held |
| Drivers.Driver.SettleLocked | packages/driver-go/driver.go:616-634 | an answer acknowledges, loses or holds exactly the batch it answers |
| Drivers.Driver.AckedLocked | packages/driver-go/driver.go:645-658 | the batch is acknowledged, the counters rise by its receipt, and the driver may send at once |
| Drivers.Driver.LoseLocked | packages/driver-go/driver.go:660-665 | the batch leaves the held bytes and its items are counted as lost |
| Drivers.Driver.RetainLocked | packages/driver-go/driver.go:670-681 | the batch goes to the front of what is held, with one more attempt if its fate is unknown, or is given up at the limit |
| Drivers.Driver.RetainPendingLocked | packages/driver-go/driver.go:697-709 | nothing stays in flight, and what was in flight is held in ascending send order before what was held already |
| Drivers.Driver.BackoffLocked | packages/driver-go/driver.go:713-733 | the next attempt is between half the wait and the wait away, and later than now when the wait is at least 2 |
| Drivers.Driver.WaitingLocked | packages/driver-go/driver.go:736-741 | a wait is reported exactly while one is open, and is positive |
| Drivers.Driver.CallLocked | packages/driver-go/driver.go:581-593 | one call settles the batch; nothing but copies of its frame leaves, and they do exactly when there is an answer or the failure is of a call that was sent |
| Drivers.Driver.SendLocked | packages/driver-go/driver.go:882-892 | a batch sent is last in flight; otherwise what was in flight, then this batch, then what was held is the new held list, less what was given up; its frame and no other left, exactly if the failure is of a call that was sent; and only a request that did not encode leaves calls without a batch, as many as were in flight |
| Drivers.Driver.NextReply | packages/driver-go/driver.go:896-912 | a reply that names no pending call costs the connection |
| Drivers.Driver.CollectOneLocked | packages/driver-go/driver.go:896-919 | "no batch waiting" exactly when nothing is in flight; one reply settles its own batch and no other; a lost connection returns everything in order |
| Drivers.Driver.FlushLocked | packages/driver-go/driver.go:418-437 | it ends, with buffer and held list empty or a typed reason, and the receipt is the merge of the receipts of exactly the batches that were acknowledged meanwhile |
| Drivers.Driver.Flush | packages/driver-go/driver.go:409-416 | each item captured before the call is after it in exactly one place; without an error buffer and held list are empty and nothing was lost; the receipt merges those of exactly the batches acknowledged meanwhile |
| Drivers.Merge | packages/driver-go/driver.go:439-450 | a merged receipt adds what was accepted and claims no more copies than the least of them |
| Drivers.Driver.MakeRoom | packages/driver-go/driver.go:814-822 | the window has room afterwards or a call failed, no receipt is dropped on the way, and no more calls are left without a batch |
| Drivers.Driver.SubmitLocked | packages/driver-go/driver.go:787-831 | it ends with buffer and held list empty or a reason, never "no batch waiting"; only a request that does not encode leaves a call in flight without a batch; and it returns one receipt for each batch acknowledged meanwhile, in order, also when it fails |
| Drivers.Driver.Submit | packages/driver-go/driver.go:778-785 | each item captured before the call is after it in exactly one place; what is pending is what the pipeline counts, unless a request did not encode, and within the window; one receipt for each batch acknowledged meanwhile |
| Drivers.Driver.DrainLocked | packages/driver-go/driver.go:843-853 | it ends with nothing in flight or a failed call, and returns one receipt for each batch acknowledged meanwhile, in order |
| Drivers.Driver.Drain | packages/driver-go/driver.go:834-841 | each item captured before the call is after it in exactly one place; without an error nothing is pending and nothing was lost; what is pending stays what the pipeline counts |
| Drivers.Driver.OutstandingItems | packages/driver-go/driver.go:865-876 | the items in flight and held |
| Drivers.Driver.Shutdown | packages/driver-go/driver.go:982-1014 | it returns captured less acknowledged less lost before: of everything captured when nothing else is waiting to be captured, and otherwise of what was captured at a moment between the call and its return; and each item captured before is in exactly one place |
| Drivers.Driver.CloseAll | packages/driver-go/driver.go:1031-1038 | no connection and nothing in flight on the pipeline |
| Spools.FrameOf | prototypes/delivery-bench/spool.go:48-56 | a frame is 40 bytes longer than its payload and holds the digest and then the payload |
| Spools.JoinKeeps | prototypes/delivery-bench/spool.go:58-76 | a call that appends and waits, lingers or leads keeps the invariant |
| Spools.TakeKeeps | prototypes/delivery-bench/spool.go:78-97 | a leader that comes back from the linger always has a group to take, so the empty-group branch is dead |
| Spools.WriteKeeps | prototypes/delivery-bench/spool.go:98 | a full or partial write beside other threads' steps keeps the invariant |
| Spools.SyncKeeps | prototypes/delivery-bench/spool.go:99-102 | a sync that succeeds or fails keeps the invariant |
| Spools.PublishGoodKeeps | prototypes/delivery-bench/spool.go:103-123 | after a good group the leader leaves exactly when nothing is pending |
| Spools.PublishBadKeeps | prototypes/delivery-bench/spool.go:103-117 | after a torn group nobody leads and the mark has been raised all the same |
| Spools.RunKeeps | prototypes/delivery-bench/spool.go:58-125 | the invariant holds in every interleaving of any number of calls |
| Spools.PutIsDurable | prototypes/delivery-bench/spool.go:45-70 | when `put` returned its address the synced file holds the frame in its place, unless the group that carried it was torn |
| Spools.DurableStays | prototypes/delivery-bench/spool.go:45-46 | what is durable stays durable, in the same place |
| Spools.FramesNeverOverlap | prototypes/delivery-bench/spool.go:59-61 | no two frames overlap |
| Spools.OneThreadCommits | prototypes/delivery-bench/spool.go:63-71 | at most one thread commits, and every call is counted in one group or is pending |
| Spools.ReleasedIsDurableIffSynced | prototypes/delivery-bench/spool.go:103-117 | a frame released by a publish is durable exactly when its group was written and synced |
| Spools.NobodyIsStranded | prototypes/delivery-bench/spool.go:118-122 | when nobody commits and nothing was torn, nothing is pending, the mark is at the end and every waiter can return |
| Spools.StrandedIffPending | prototypes/delivery-bench/spool.go:109-117 | when nobody commits, some call is not covered exactly when something is pending |
| Spools.StepsRunOut | prototypes/delivery-bench/spool.go:58-125 | every step but a new call lowers a well-founded measure |
| Spools.EveryPutReturns | prototypes/delivery-bench/spool.go:63-70 | with no new calls and no failures some schedule ends with every call returned |
| Spools.EveryScheduleEndsReturned | prototypes/delivery-bench/spool.go:63-70 | with no new calls and no failures every schedule that nobody can continue has ended with every call returned |
| Spools.ErrorMeansTorn | prototypes/delivery-bench/spool.go:109-117 | an error is returned only if some group was torn |
| Spools.WaiterOfATornGroupIsTold | prototypes/delivery-bench/spool.go:105-108 | a run in which a waiter is told its payload is durable and it is not |
| Spools.RefusedIsDurableIffCovered | prototypes/delivery-bench/spool.go:109-117 | a leader whose group failed gets an error, and its payload is durable all the same exactly when the mark was past it before |
| Spools.LeaderOfALaterTornGroupIsRefused | prototypes/delivery-bench/spool.go:109-117 | a run in which a leader gets an error for a payload that is durable |
| Spools.Spool.Join | prototypes/delivery-bench/spool.go:58-97 | the fields follow the step, and the caller learns its end and whether it waits, lingers or commits |
| Spools.Spool.TakeGroup | prototypes/delivery-bench/spool.go:78-94 | the group is everything pending, at the old write offset |
| Spools.Spool.Publish | prototypes/delivery-bench/spool.go:103-123 | the leader returns, with the error if there was one, or commits the next group |
| Spools.Spool.Recheck | prototypes/delivery-bench/spool.go:64-68 | a woken waiter sleeps again exactly while its bytes are not covered |
| Queries.PlanAsksEveryReadableTablet | crates/tallyowl-cluster/src/query.rs:132-171 | a plan names each tablet that is not retired once, in order, and is refused exactly when there are more than the fan-out permits |
| Queries.Merge | crates/tallyowl-cluster/src/query.rs:269-372 | sums, lists, the least watermark, the largest staleness and completeness over the parts; refused exactly when incomplete and partial answers were not asked for |
| Queries.AddBuckets | crates/tallyowl-cluster/src/query.rs:298-300 | each bucket start holds the sum over the parts that report it |
| Queries.ListBuckets | crates/tallyowl-cluster/src/query.rs:327 | the listed buckets ascend and are exactly those some part reports |
| Queries.MergedIsTheWhole | crates/tallyowl-cluster/src/query.rs:263-372 | a complete merge is the answer one store would give, in count, every bucket and rows, and no merge is larger |
| Queries.MergedByNameIsTheWhole | crates/tallyowl-cluster/src/query.rs:329-345 | the same with the parts in any order and known only by name, when there are as many as planned tablets |
| Queries.SurplusIsCounted | crates/tallyowl-cluster/src/query.rs:280-345 | parts beyond a complete answer are added to its count, buckets and rows, and the answer stays complete exactly if they are |
| Queries.SurplusIsRightIffItAddsNothing | crates/tallyowl-cluster/src/query.rs:329-372 | for every kind of read an answer that was right stays right exactly when the surplus counts nothing, fills no bucket and sends no row before the cut |
| Queries.CountInPermuted | crates/tallyowl-cluster/src/query.rs:64-66 | a trend does not depend on the order of rows |
| Fanouts.RequestCarriesThePlan | crates/tallyowl-cluster/src/fanout.rs:384-421 | two plans whose requests are equal ask the same, apart from the bound of a detail read |
| Fanouts.AddressesOf | crates/tallyowl-cluster/src/fanout.rs:320-344 | every member's address once, the known leader's first; not found or unavailable exactly when the tablet is unknown or has none |
| Fanouts.Ask | crates/tallyowl-cluster/src/fanout.rs:275-300 | this node's own answer if it holds the tablet, else the first reply that is no reason to ask the next, else the last |
| Fanouts.OneHealthyReplicaIsEnough | crates/tallyowl-cluster/src/fanout.rs:280-296 | one replica that answers is enough if none refuses for a reason they share |
| Fanouts.ClusterReads.Run | crates/tallyowl-cluster/src/fanout.rs:224-273 | one part for each planned tablet in plan order, merged; without partial mode an answer exactly when every planned tablet answered completely; this thread's misses are remembered and no other thread's list changes |
| Fanouts.ClusterReads.Scan | crates/tallyowl-cluster/src/fanout.rs:434-461 | refused exactly when there are too many tablets, otherwise the merged rows and whether they are incomplete; with a product of the limits below 2^64 every row of every part |
| Fanouts.ClusterReads.ReadTrend | crates/tallyowl-cluster/src/fanout.rs:463-491 | refused exactly when there are too many tablets, otherwise the merged buckets, total and watermark |
| Fanouts.FanOutIsTheWhole | crates/tallyowl-cluster/src/fanout.rs:224-273 | the fan-out answers what one store would, exactly if complete and never more, and names every tablet that did not answer |
| Fanouts.AnswerIffAllAnswered | crates/tallyowl-cluster/src/query.rs:347-358 | without partial mode there is an answer exactly when every planned tablet answered completely, by name |
| Fanouts.ScanTruncatesIffBoundIsSmall | crates/tallyowl-cluster/src/query.rs:366-370 | the final cut never drops a row exactly when full tablets fit the bound |
| Fanouts.ScanNeverTruncates | crates/tallyowl-cluster/src/fanout.rs:441-454 | with a product below 2^64 every row of every part is returned, in plan order |
| Fanouts.WrappedBoundDropsEverything | crates/tallyowl-cluster/src/fanout.rs:447-452 | a product that wraps to zero drops every row of a complete answer |
| Metrics.KeyOf | packages/driver-go/metrics.go:77-94 | the key is each name in order and its value, each ended by a NUL |
| Metrics.KeyIdentifiesLabels | packages/driver-go/metrics.go:73-94 | without NUL bytes two label sets have one key exactly when they are equal |
| Metrics.NulMakesLabelsCollide | packages/driver-go/metrics.go:77-94 | any label set with a NUL in it, or with two labels or more, has the key of a different label set |
| Metrics.KeyIsUniqueIff | packages/driver-go/metrics.go:73-94 | a key belongs to one label set only, among all label sets, exactly when the set is empty or one label without a NUL |
| Metrics.SortedBounds | packages/driver-go/metrics.go:203-205 | the declared bounds are kept, in ascending order |
| Metrics.ModesAgree | packages/driver-go/metrics.go:344-446 | after any calls, what a delta meter reported and holds is what a cumulative meter holds, for every series and measure |
| Metrics.DeltasAddUpToCumulative | packages/driver-go/metrics.go:342-446 | after a snapshot the delta points of a counter or histogram add up to what the cumulative meter reports, skipped series included |
| Metrics.PeriodsChain | packages/driver-go/metrics.go:344-371 | delta periods run from one snapshot's reading to the next, end to start, and a gauge point has no width |
| Metrics.PeriodsRunForwardIff | packages/driver-go/metrics.go:344-371 | a snapshot with a moved series reports no period that ends before it starts exactly when its clock reading is no earlier than the last snapshot's |
| Metrics.PeriodsRunForward | packages/driver-go/metrics.go:344-371 | a snapshot whose reading is no earlier than any before reports no such period |
| Metrics.LateReadingRunsBackward | packages/driver-go/metrics.go:348-352 | calls after which a snapshot reports a period that ends before it starts |
| Metrics.SeriesStayWithinBudget | packages/driver-go/metrics.go:307-333 | admitted series never exceed the budget of their metric |
| Metrics.AdmittedStaysAdmitted | packages/driver-go/metrics.go:311-314 | a call recorded once is recorded whenever it is made again |
| Metrics.HistogramSummarisesObservations | packages/driver-go/metrics.go:260-276 | a histogram is the count, the sum and the number at or below each bound of its recorded observations |
| Metrics.HistogramRises | packages/driver-go/metrics.go:264-270 | counts never fall from one bound to the next and never exceed the count |
| Metrics.GaugePointIsTheLastSet | packages/driver-go/metrics.go:240-250 | a gauge point is the last value set and the moment it was set, in either mode and whatever was reset in between |
| Metrics.Meter.Declare | packages/driver-go/metrics.go:203-219 | a first declaration adds an empty family last, a second changes nothing |
| Metrics.Meter.Record | packages/driver-go/metrics.go:226-337 | the first failed check decides the outcome, a refusal only counts pressure, and otherwise exactly one series of one metric changes |
| Metrics.Meter.Snapshot | packages/driver-go/metrics.go:344-446 | one point for each series to report, in order, and the state that reporting leaves |
| Healths.FewLieAboveTheMedian | crates/tallyowl-cluster/src/health.rs:183-192 | at most n - 1 - n/2 of n values lie above the median |
| Healths.FewExceed | crates/tallyowl-cluster/src/health.rs:297-302 | with a factor of at least one, at most n - 1 - n/2 nodes exceed on a measure |
| Healths.NeverTheWholeGroupIffFactor | crates/tallyowl-cluster/src/health.rs:195-206 | every group has a node that is not over exactly when the factor is at least one |
| Healths.NeverAllSlowIffFactor | crates/tallyowl-cluster/src/health.rs:211-229 | no assessment of any group calls every node slow, exactly when the factor is at least one |
| Healths.RecordedIffUnbroken | crates/tallyowl-cluster/src/health.rs:214-229 | what is recorded of a node is when an unbroken stretch of assessments that found it over and writable began, and every such stretch is recorded |
| Healths.SlowIffHeldThatLong | crates/tallyowl-cluster/src/health.rs:215-224 | a node is slow exactly if an unbroken stretch of assessments, this one too, found it over and writable and started the hold time ago, and the condition names that start |
| Healths.SlowAtOnceIffReportIsOld | crates/tallyowl-cluster/src/health.rs:215-220 | a node over for the first time is called slow at once exactly when its report is as old as the hold time |
| Healths.SeenThatLongIffReportIsNotOlder | crates/tallyowl-cluster/src/health.rs:215-220 | a node called slow had been seen over for the hold time, whenever that is, exactly when the first assessment that saw it was no later than the report it read |
| Healths.SlowAtOnceIffFactor | crates/tallyowl-cluster/src/health.rs:195-224 | a first sight can be called slow under every factor below the largest, and under that none can |
| Healths.HealthWatch.MedianOf | crates/tallyowl-cluster/src/health.rs:185-192 | the middle of the sorted values of the group, or zero |
| Healths.HealthWatch.Assess | crates/tallyowl-cluster/src/health.rs:195-279 | one condition for each reporting node in name order, and since when each is over |
| Seeds.ReadSeed | crates/tallyowl-cluster/src/seed.rs:74-194 | the first fault in the order of the code decides the refusal, and otherwise the members in name order |
| Seeds.FindRepeat | crates/tallyowl-cluster/src/seed.rs:175-186 | the first member whose name an earlier one has |
| Seeds.SeedIsTheUnion | crates/tallyowl-cluster/src/seed.rs:96-194 | the members are this node and its peers, each once, in strict name order |
| Seeds.SeedsAgreeIffUnited | crates/tallyowl-cluster/src/seed.rs:3-24 | two nodes that succeed return the same names and addresses in the same order exactly when their lists united with themselves are the same |
| Seeds.SeedSucceedsIff | crates/tallyowl-cluster/src/seed.rs:82-186 | exactly which configurations yield a voter set |
| Voters.ChooseVoters | crates/tallyowl-cluster/src/controller.rs:361-422 | the choice of the two loops, or the refusal with both numbers |
| Voters.ChoiceSpreads | crates/tallyowl-cluster/src/controller.rs:356-422 | exactly the wanted number of distinct eligible nodes over as many domains as can be; refused exactly when too few; warned exactly when domains are shared |
| Voters.NoChoiceSpansMore | crates/tallyowl-cluster/src/controller.rs:384-397 | no other choice of as many eligible nodes spans more domains |
| Voters.FirstVotersAreFreest | crates/tallyowl-cluster/src/controller.rs:378-397 | each domain's first pick is its freest node, and ranks before every node of a domain left out |
| CratesPlans.Planner.Visit | tools/tallyowl_tools/release.py:660-669 | ends on every graph, restores what is being visited, and gives the order or the crate at which a cycle closed |
| CratesPlans.CratesPlan | tools/tallyowl_tools/release.py:649-676 | the plan, no such crate, or a cycle |
| CratesPlans.PlanIsTheOrder | tools/tallyowl_tools/release.py:649-676 | a plan exists exactly when no cycle can be reached from the driver crate, and names each reachable crate once, after its dependencies |

## Left out

- The dry-run path, `OnError` notes, `Run`, `ShouldFlush`, linger of the driver, and call timeouts: host integration around the modelled methods.
- Batch IDs are the numbers 0, 1, 2 and so on: only their freshness matters here.
- The pipeline is made with the driver rather than at the first submit, and connections are only open or not.
- Random jitter is any value from half the wait to the wait, and the clock is any value that does not go back.
- Drivers.Driver.Shutdown: other threads only capture while it runs, and the correspondence of `pending` with the pipeline is not claimed after `closeAll`, which clears one and not the other.
- Network.Client.Call: a call that fails on an open connection counts as having left, although it may have failed before the first byte.
- Unsigned counters, the spool's offsets and the counts of a merge are unbounded; only the product in `scan`, the saturating product in the slow test and the length field of a spool frame are modelled at their width.
- Go durations are unbounded, so the doubling of the back-off does not overflow before the cap.
- Spools.EveryScheduleEndsReturned: fairness of the scheduler is not modelled; the claim is that steps run out and that a schedule nobody can continue has returned every call.
- Spools.Spool.Join: the payload digest is an argument, because hashing is not modelled.
- A failed sync is taken to make nothing durable for certain; a later sync of the same file covers what was written before.
- The aggregate form carries opaque bytes, so only their order is kept, and `lookup_correlated` sorts what the merge returns and is not modelled.
- `replica_satisfies`, the storage node's side of a request, frame codecs and error texts.
- A read that fails with a panic is an internal error of that tablet; a panic of a chunk of one is not modelled.
- The label of a metric point, its envelope, service and release, and `PublishMetrics`.
- Metric values are reals, so rounding, infinities and NaN are not modelled.
- The cause, the action and the controller commands of a slow node, and all other measures of its report.
- `Controller::decide`, `split_point`, movement, routing, recovery and consensus: they wrap code that is not shown, or add easy members.
- Reading manifests from disk: a workspace is a map from crate to its dependencies.
