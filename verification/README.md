# Postie: a verified model

Postie captures rows of PostgreSQL tables through Debezium into Kafka and delivers each record to
HTTP endpoints, at least once and in order per partition. This project models the parts in which
that promise is won or lost (partition ownership and commits, the order of effects for one record,
the control plane of several workers, provisioning) and the exact text transformations around them,
and proves what they guarantee over all inputs, interleavings and runs.

`dafny verify dfyconfig.toml` checks everything.

## The parts

**One partition of one destination** (`Partition*.dfy`). `PartitionMachine` is a transition system
over Kafka's log, committed offset and in-flight commit requests, the started marker and the skip
rows, and any number of partition workers, each at a program point of `initialize` or of finishing
one record. Crashes, cancellation, revocation, failed calls, late effects of failed calls, appends,
retention, backward offset resets and lost offsets are steps like any other. `PartitionBounds`,
`PartitionSafety`, `PartitionSkips`, `PartitionCommits`, `PartitionRecovery` and `PartitionBlocks` prove
properties of all runs; `PartitionCounterexamples` builds the runs in which a guarantee stops holding;
`PartitionWorker` writes the goroutine's methods imperatively and proves that everything they do is a
run of the machine, interference included; `PartitionTables` ties the machine's marker and skips to
the rows of the control store. `Consumer` is the table of partition workers with its rebalance
callbacks, routing and shutdown.

**One record** (`Delivery.dfy`). `completeRecord`, `Retry` and `Processor.Process` as methods that
write every effect and its answer to a journal. An automaton over journals is the independent
statement of the safe order.

**The control plane** (`Control*.dfy`). `ControlStore` is the scope's tables with the exact update
conditions of the SQL. `ControlService` is one worker's service: the reconcile pass, the block latch,
the dispatch fence and `Change`, with blocks, other workers and the clock acting between any two
critical sections or store calls. What the surroundings answer during a pass (renewal, rows, Kafka,
inspections, consumers, reports) is an argument of the pass, and the contract says what follows from
it. `ControlMachine` puts any number of workers over one subscription, each with its stored lease, its
local deadline and its attempts; `ControlPass` shows that what a pass makes of one subscription, and
what stopping everything makes of it, are sequences of that machine's steps. Renewals, the fence and
reports follow the same rules in both, but no theorem joins them; what a pause means for one service is
also proved of its passes directly (`ControlService.Service.PausedPass`).

**Provisioning and decoding** (`Streams.dfy`, `Provision.dfy`, `ProvisionService.dfy`, `Debezium.dfy`).
The capture contract, both health checks, the order in which a stream is established, and the
identity check and column conversion of the decoder.

**Texts and buffers** (`JsonNumber.dfy`, `Decimal.dfy`, `Environment.dfy`, `ActivityLog.dfy`).
Expansion of JSON numbers against the grammar of section 6 of RFC 8259 and its values as reals;
`${NAME}` expansion; the activity ring buffer against its unbounded history.

## What the guarantees assume

- *Where fetching starts.* That offsets below the committed one are finished, and that records are sent
  in order, assumes that a worker takes records only after its Kafka client was positioned at a
  committed offset or at the first record ever written (`PartitionMachine.SoundTakes`).
  `PartitionRecovery.RetentionMakesFetchingSound` shows that this follows when retention leaves a
  partition alone until its first commit and offsets are not lost. What is said about skips and commits
  does not need it. The log end never moves back.
- *Kafka fences commits.* A commit takes effect only while its sender is the owner Kafka knows.
- *Ownership periods.* Safety of commits, order, and skips for later owners allow workers that overlap.
  Only the claim that no worker at all resends a skipped record, and crash safety of `initialize`, ask
  that at most one worker is alive at a time (`PartitionSkips.OneLive`), and the first also that a skip
  row does not appear after its writer has gone (`PartitionSkips.OwnSkip`). Each of these is needed:
  see the runs below.
- *What Kafka keeps.* Crash safety also asks that retention stops at the committed offset, that resets
  stay within the log, that offsets are not lost (`PartitionRecovery.Lossless`), and that a commit which
  takes effect late does not land below the log start (`PartitionRecovery.LandInLog`). The last is
  exact.
- *Leases.* The local deadline is stamped after the calls have returned, the stored expiry when the
  renewal takes effect. Nothing here says that the first lies inside the second: `ControlMachine` bounds
  the difference by an explicit slack, and has one clock for the store and the workers.
- *Reasons.* A source monitor that reports a source blocked gives a reason; for the real monitor this is
  `Provision.BlockedHasReason`.

## What turned out not to hold

- `internal/stream/stream.go:78-80` needs ownership periods that do not overlap and skip rows that do
  not appear late. `PartitionCounterexamples.OverlapResends` and `LateSkipResends` each break one of the
  two, and a record is sent whose skip is stored. `PartitionSkips.ResendExplained` is what all such runs
  have in common, and `PartitionCounterexamples.MissedSkipResends` says that it suffices.
- `PartitionCounterexamples.OverlapBlocks` is a run in which nothing is lost and a slow worker that
  overlaps still blocks the source for good, through the baseline protocol.
- `PartitionCounterexamples.LateBaselineBlocks` is a run without overlap in which nothing is lost
  either: a baseline commit fails, its retry succeeds, the partition is consumed and cleaned up to the
  committed offset, and then the first commit lands. The next worker blocks the source.
- `PartitionCounterexamples.RetentionDuringInitializeLosesRecord`: when retention removes the first
  record after `initialize` has read the log start and before the client is positioned, a record nobody
  finished ends below the committed offset.
- `internal/control/service.go:245` says that after a successful `Change` to paused every worker "has
  stopped delivering". `ControlCounterexamples.ExpiredWorkerMayDeliver` is a run in which a worker whose
  stored lease has expired may start another attempt: its local deadline, stamped later, has not passed.
  `ControlMachine.PausedMeansStopped` and `AttemptAfterAgreedPause` are what holds.
- `Block` with an empty reason lifts the in-memory latch instead of setting it (`LatchReason`); no caller
  passes an empty reason.
- A configuration may list a column twice: it is loaded and provisioned, and then no record can be
  decoded (`Debezium.RepeatedColumnCannotBeDecoded`). `Debezium.FrozenIdentityIsAccepted` is the exact
  condition.
- Inspection blocks a source whose table breaks the capture contract
  (`ProvisionService.TableBreachBlocksOnInspection`), provisioning only reports it (`ProvisionSource`):
  the verdict is the same, the durable effect is not.

## Model

| member | source | states |
|---|---|---|
| PartitionBounds.StepBounded | internal/adapters/kafka/consumer.go:212-317 | every step, with no assumption on fetching, keeps: no offset anywhere lies beyond the log end, a worker with a record holds a fetched one, and finished records stay finished |
| PartitionSafety.StepKeepsInv | internal/adapters/kafka/consumer.go:247-317 | every step, of the environment or of any worker at any point, keeps: all offsets below the committed offset, below every request in flight and below a positioned worker's next record are finished; finished records stay finished |
| PartitionSafety.CommittedIsFinished | internal/adapters/kafka/consumer.go:212-317 | in every run with crashes, revocations, resets, truncation and late requests, every offset below the committed offset was delivered, filtered, or skipped with a stored skip row |
| PartitionSafety.SentInOrder | internal/adapters/kafka/consumer.go:225-252 | a record is sent only after every earlier offset has a terminal outcome, across batches, restarts and changes of owner |
| PartitionSkips.StoredSkipNotResent | internal/adapters/kafka/consumer.go:247-280 | in every run, once a skip row is stored no worker that takes the partition later sends the record, though only records below the horizon are looked up |
| PartitionSkips.SkipNeverResent | internal/stream/stream.go:78-81 | in every run without overlapping ownership and late skip rows, no worker at all sends a record whose skip is stored |
| PartitionSkips.ResendExplained | internal/stream/stream.go:78-81 | in every run, a worker that attempts a record whose skip is stored was assigned before it was stored, and by then had passed its lookup or the record lies at or above its horizon |
| PartitionCounterexamples.MissedSkipResends | internal/stream/stream.go:78-81 | and each of the two is enough: from any state reached, a worker past its lookup of a record, or at a record at or above its horizon, comes to send it though its skip is stored, or is on its way and lands |
| PartitionCounterexamples.OverlapResends | internal/stream/stream.go:78-81 | every skip row appears while its own worker waits for it, yet an older overlapping worker sends the record after a newer one has stored its skip |
| PartitionCounterexamples.LateSkipResends | internal/stream/stream.go:78-81 | workers never overlap, yet a skip row on its way when its worker crashed lands after the next worker's lookup, and the record is sent |
| PartitionCommits.NoCommitAfterCleared | internal/adapters/kafka/consumer.go:371-394 | in every run, once stopWorkers has cleared ownership the worker sends no commit and completes none |
| PartitionCommits.CommitWasChecked | internal/adapters/kafka/consumer.go:308-317 | behind every commit that takes effect, acknowledged or late after its call has failed, lies a check under the worker's lock that found it owned, not cancelled and allowed, for exactly that offset |
| PartitionCommits.RequestWasChecked | internal/adapters/kafka/consumer.go:308-317 | the same for every request that ever left a worker |
| PartitionCommits.OwnedWhileInFlight | internal/adapters/kafka/consumer.go:308-317 | while a commit is in flight the worker's ownership is not cleared |
| PartitionCommits.OnlyCommitsMoveOffsets | internal/adapters/kafka/consumer.go:308-317 | the committed offset moves by such commits, by resets and by losses, and in no other way |
| PartitionRecovery.InitializeChecksHistory | internal/adapters/kafka/consumer.go:254-306 | when initialize succeeds, the offset it goes on from lies between the log start and end it read, and every record already dropped was finished |
| PartitionRecovery.InitializeIsCrashSafe | internal/adapters/kafka/consumer.go:254-306 | if retention stops at the first offset needed, resets stay within the log, offsets are kept, at most one worker is alive at a time and no late commit lands below the log start, then no crash, retry or late effect in any run blocks the source for lost history, and the log keeps everything still needed |
| PartitionRecovery.RetentionMakesFetchingSound | internal/adapters/kafka/consumer.go:119 | the fetching assumption holds in every run in which retention waits for the first commit and offsets are not lost |
| PartitionBlocks.BlocksExactly | internal/adapters/kafka/consumer.go:254-306 | in every run a source is blocked for a reason exactly when some step before found it: lost history of a started partition, an offset outside the log, a fetch position outside the log, or a record that cannot be decoded |
| PartitionCounterexamples.OverlapBlocks | internal/adapters/kafka/consumer.go:289-294 | with overlapping workers a run exists that loses nothing and still blocks the source |
| PartitionCounterexamples.LateBaselineBlocks | internal/adapters/kafka/consumer.go:295-303 | without overlap and with nothing lost, a failed baseline commit that lands after its partition was consumed and cleaned up blocks the source |
| PartitionCounterexamples.StaleOffsetBlocks | internal/adapters/kafka/consumer.go:299-303 | the condition on late commits is exact: from any state such a run leaves with the committed offset below the log start, the next worker blocks the source |
| PartitionCounterexamples.RetentionDuringInitializeLosesRecord | internal/adapters/kafka/consumer.go:260-304 | without the fetching assumption a run exists that leaves an unfinished record below the committed offset |
| PartitionWorker.Partition.Do | internal/adapters/kafka/consumer.go:45-59 | one atomic step extends the recorded run by exactly the machine's step |
| PartitionWorker.CommitOnce | internal/adapters/kafka/consumer.go:308-317 | one guarded commit: success needs an owned, live worker at the check, an open gate and the acknowledgement, and moves exactly to the marker or to the next record |
| PartitionWorker.InitializeOnce | internal/adapters/kafka/consumer.go:257-305 | one try of initialize ends with the marker stored, back at the start, or with the goroutine over, whatever interferes; the first only if every call was answered, the last only if the four reads were |
| PartitionWorker.Initialize | internal/adapters/kafka/consumer.go:254-306 | success means the marker is stored and records may be taken; otherwise the goroutine is over |
| PartitionWorker.LookUp | internal/delivery/worker.go:45-50 | an answered lookup decides by the stored rows for records below the horizon, and passes every other record on |
| PartitionWorker.SendRecord | internal/delivery/worker.go:60-69 | a record the filter excludes becomes filtered; any other is answered exactly when the destination answers some attempt, and then delivered or waiting for its audit as the first answer says |
| PartitionWorker.AttemptRecord | internal/delivery/processor.go:43-56 | attempts stay on the same record until the destination answers one: a delivering answer leaves it delivered, a rejecting one waiting for its audit, and without an answer the goroutine ends |
| PartitionWorker.ProcessRecord | internal/delivery/worker.go:34-57 | success means that the position is exactly one further and this record is finished as its answers say: its skip was found, below the horizon; or it was filtered; or the first answer delivered it; or the first answer rejected it and its skip row is stored. A skip stored before is found. A shut gate changes nothing, and a record that cannot be decoded blocks the source |
| PartitionWorker.Run | internal/adapters/kafka/consumer.go:212-245 | the goroutine takes only steps of the machine, whatever interferes, and ends; how many records it finishes first is not stated |
| PartitionWorker.WorkedPartitionIsFinished | internal/adapters/kafka/consumer.go:212-317 | so the committed offset of a partition the methods have worked on covers finished records only |
| PartitionTables.WritesExactly | internal/adapters/controlpg/store.go:205-243 | which step of the machine writes the marker or a skip row, and that no other does |
| PartitionTables.Take | internal/adapters/controlpg/store.go:205-243 | a step together with the store operation it stands for: the machine's skips and marker stay the rows of its partition, and the rows of every other partition stay as they are |
| PartitionTables.LookUpSkip | internal/delivery/worker.go:45-50 | the store is asked only below the horizon, and its answer is the machine's decision |
| PartitionTables.LookUpMarker | internal/adapters/kafka/consumer.go:285-304 | the stored marker and the offsets read decide between blocking for one reason or the other, a baseline, and the marker, and nothing else changes |
| Consumer.Group.OneRunningWorker | internal/adapters/kafka/consumer.go:337-394 | one consumer never has two running or owning workers for one partition |
| Consumer.Group.Ready | internal/adapters/kafka/consumer.go:133-145 | ready exactly when partitions were assigned and every worker in the table has checked its offset |
| Consumer.Group.OnAssigned | internal/adapters/kafka/consumer.go:337-355 | a fresh owned worker for exactly the partitions that had none; existing workers stay |
| Consumer.Group.TakeOut | internal/adapters/kafka/consumer.go:371-387 | exactly the workers of the given partitions, or all, are cancelled and leave the table; no other worker changes |
| Consumer.Group.StopWorkers | internal/adapters/kafka/consumer.go:371-394 | when it returns, every worker removed is over and owns nothing; the others are untouched |
| Consumer.Group.OnRevoked | internal/adapters/kafka/consumer.go:357-360 | exactly the revoked partitions lose their workers |
| Consumer.Group.OnLost | internal/adapters/kafka/consumer.go:362-369 | the same, and the consumer is no longer ready |
| Consumer.Group.Route | internal/adapters/kafka/consumer.go:182-199 | the batch is appended for exactly the running worker in the table for its partition, unless it is empty or a context ends while it waits, and the log of what was handed on says so; nothing else changes |
| Consumer.Group.SeeErrors | internal/adapters/kafka/consumer.go:171-181 | a consumer not yet cancelled ends exactly when some error has lost history, and blocks the source of the first such error's topic; without one nothing changes, and an ended consumer blocks nothing |
| Consumer.Group.Run | internal/adapters/kafka/consumer.go:160-203 | the first poll before the context ends from outside that reports lost history ends the run and blocks the source of its first lost topic, and nothing else is blocked; the batches of all polls before that, and no others, are handed on in order, and each worker has received exactly what was handed on to it, all of its own partition; on return every worker ever started is over and the table is empty |
| Delivery.JournalExplained | internal/delivery/worker.go:108-142 | what each stage of the safe order says about the effects behind it; finished exactly when a commit succeeded |
| Delivery.SendsOnce | internal/delivery/worker.go:108-134 | a record is sent at most once per completion |
| Delivery.FoundSkipIsNotSent | internal/delivery/worker.go:110 | a record whose stored skip was found is never sent |
| Delivery.SendAfterLookup | internal/delivery/worker.go:119-132 | a send comes only after a lookup that found no skip |
| Delivery.CommitAfterTerminal | internal/delivery/worker.go:111-114 | a commit is attempted only after a terminal outcome, and for a skipped record only after its audit succeeded |
| Delivery.Retry | internal/delivery/processor.go:107-119 | only failures of the one action, then its success; it gives up only when the context has ended |
| Delivery.RetryAdvances | internal/delivery/processor.go:100-102 | retrying leaves the stage of the record where it was until the action succeeds |
| Delivery.SendAndAudit | internal/delivery/worker.go:136-142 | on success only the commit is left to do; on failure the record is not finished, and the context has ended or the envelope cannot be encoded |
| Delivery.CompleteRecord | internal/delivery/worker.go:118-134 | for any schedule of failures the journal follows the safe order, what was sent became what filter and first answer say, and success means exactly that a commit succeeded |
| Delivery.Deliver | internal/delivery/processor.go:39-57 | a filtered record is never attempted, nor one whose envelope cannot be encoded; otherwise attempts go on to the first that is answered, whose answer is the outcome, and only the end of the context leaves none |
| ControlStore.Desire | internal/adapters/controlpg/subscriptions.go:85-88 | the revision moves by one with a real change and not otherwise |
| ControlStore.DesireAlternates | internal/adapters/controlpg/subscriptions.go:85-88 | a row that is running at odd and paused at even revisions stays so |
| ControlStore.RevisionDecidesState | internal/control/state.go:63-65 | two rows of one subscription with the same revision ask for the same state |
| ControlStore.Upsert | internal/adapters/controlpg/subscriptions.go:109-114 | an observation of an older revision never replaces a newer one |
| ControlStore.Store.EnsureSubscriptions | internal/adapters/controlpg/subscriptions.go:19-45 | missing IDs start running at revision 1, existing rows stay, and an empty ID rolls all of it back |
| ControlStore.Store.SetDesired | internal/adapters/controlpg/subscriptions.go:77-97 | changes exactly the one registered row, or nothing |
| ControlStore.Store.ObserveSubscription | internal/adapters/controlpg/subscriptions.go:102-119 | stores the observation under the revision guard, or refuses and changes nothing |
| ControlStore.Store.SubscriptionObserved | internal/adapters/controlpg/subscriptions.go:125-151 | true exactly when some lease is unexpired and every unexpired lease's worker observed that state at that revision or later |
| ControlStore.Store.RenewLease | internal/adapters/controlpg/store.go:137-155 | only the lease of the named worker moves, to the given time and lifetime |
| ControlStore.Store.ReleaseLease | internal/adapters/controlpg/store.go:157-185 | the lease and all of the worker's observations go together, and no other worker's |
| ControlStore.Store.SaveSkip | internal/adapters/controlpg/store.go:224-243 | saving is idempotent and exact, and refused without destination or topic |
| ControlStore.Store.HasSkip | internal/adapters/controlpg/store.go:245-261 | finds exactly the stored skips |
| ControlStore.Store.MarkPartitionStarted | internal/adapters/controlpg/store.go:205-222 | exactly one marker is added, and marking again changes nothing |
| ControlStore.Store.RegisterStream | internal/adapters/controlpg/streams.go:46-97 | the first registration is stored; later ones succeed only with the same identity, names and topic, and never overwrite; no block is lifted |
| ControlStore.Store.BlockSource | internal/adapters/controlpg/streams.go:99-119 | only the reason of a registered stream changes, and it is never blank; the set of blocked rows grows by exactly this one |
| ControlMachine.StepKeepsInv | internal/control/reconcile.go:70-193 | every step of every worker keeps: no consumer at an applied or reported paused revision, and observations that somebody really reported |
| ControlMachine.RevisionsGrow | internal/control/state.go:63-65 | neither the stored revision nor the revision a worker applied ever goes back |
| ControlMachine.RowsReadGrow | internal/adapters/controlpg/subscriptions.go:49-72 | the rows a worker reads, pass after pass, never go back |
| ControlMachine.ViewNamesExactly | internal/control/state.go:14-20 | the stored names tell the five states apart |
| ControlMachine.PausedMeansStopped | internal/control/service.go:259-287 | once the store says paused was observed, no worker with an unexpired stored lease holds a consumer, then or later, until a newer revision is stored |
| ControlMachine.AttemptAfterAgreedPause | internal/control/service.go:240-287 | after paused was observed, and until a newer revision is stored, only a worker that had joined by then, whose stored lease had expired by then and whose local deadline has not passed can start an attempt |
| ControlMachine.DeadlineLags | internal/control/reconcile.go:46-62 | a local deadline outlives the stored lease by at most the time between the renewal taking effect and its stamp |
| ControlMachine.AttemptWithinSlack | internal/adapters/httpdelivery/client.go:111-135 | no attempt starts later than that slack after its worker's stored lease has expired |
| ControlMachine.AttemptNeedsHealth | internal/control/reconcile.go:46-62 | in every run an attempt starts only after a pass of its worker whose renewal, read and ping were all answered, with no failed pass or report since |
| ControlCounterexamples.ExpiredWorkerMayDeliver | internal/control/service.go:244-245 | a reachable state in which the pause was observed and a worker whose stored lease has expired may start another attempt, within the four seconds a pass may take |
| ControlPass.RestIsPass | internal/control/reconcile.go:96-116 | what rest does to a subscription is a sequence of steps of the many-worker machine, whatever revision its consumer was created for |
| ControlPass.ConsumeIsPass | internal/control/reconcile.go:89-93 | so is what creating, keeping and advancing a consumer does |
| ControlPass.StopIsPass | internal/control/reconcile.go:195-218 | and so is what stopAll makes of it, wherever the pass stood |
| ControlService.New | internal/control/service.go:75-99 | a service exists exactly for a valid generation and destinations with IDs that could be registered; it keeps closed exactly the sources whose rows are stored blocked; rows that existed stay, and a failure stores nothing |
| ControlService.Service.constructor | internal/control/service.go:75-99 | nothing is allowed and no consumer exists before the first pass |
| ControlService.Service.SetSourceState | internal/control/reconcile.go:274-288 | a latched block overrides whatever was observed |
| ControlService.Service.LatchReason | internal/control/reconcile.go:293-297 | sets the local reason; an empty one lifts the latch |
| ControlService.Service.BlockInMemory | internal/control/reconcile.go:292-298 | the two in-memory steps alone latch the source and show it blocked, whatever happens between them |
| ControlService.Service.Interfere | internal/control/reconcile.go:290-303 | whatever blocks, other workers and time do in between: a latched source stays latched, a source's state changes only by a block, a local block that appears was raised by a delivery worker, desired revisions only grow, no row that is blocked is unblocked, what a pass has found registered keeps its identity, names and topic, and this worker's own observations and lease stay |
| ControlService.Service.Block | internal/control/reconcile.go:290-303 | after a Block with a reason the source is latched, not running and not allowed; if the store is in reach, the reason not blank and the source registered, exactly this reason is stored, and the row is one of those that stay blocked |
| ControlService.Service.CacheStream | internal/control/reconcile.go:263-272 | a block raised while the registration was being read survives |
| ControlService.Service.InspectSource | internal/control/reconcile.go:230-261 | one inspection changes one source, to exactly what store and monitor answered unless it is blocked by then; a local block is stored again; what the monitor reports blocked is blocked in the store as well, unless a delivery worker has begun to block it; a row stored blocked, by whomever, blocks the source here; no inspection reopens a latched source or lifts a block stored meanwhile |
| ControlService.Service.InspectSources | internal/control/reconcile.go:25-29 | afterwards a source runs exactly as store and monitor have just said, unless a block of it is under way; those whose rows were stored blocked are blocked here |
| ControlService.Service.DestinationReady | internal/control/reconcile.go:305-315 | ready exactly when every source that the first configured destination of this ID lists is running, otherwise naming the first of them that does not; an unknown ID has no sources |
| ControlService.WhereConfigured | internal/control/reconcile.go:220-228 | looking a destination up gives the first one configured with the ID, or nothing if there is none |
| ControlService.Service.StopConsumer | internal/control/reconcile.go:99-104 | exactly the held consumer stops, and then none of the destination runs |
| ControlService.Service.CreateInstance | internal/control/reconcile.go:131-140 | a consumer is created only when every earlier one of the destination has stopped |
| ControlService.Service.Rest | internal/control/reconcile.go:96-116 | the subscription ends without consumer, paused or blocked, at the row's revision |
| ControlService.Service.EnsureConsumer | internal/control/reconcile.go:118-142 | a live consumer is kept, a finished one replaced after it has stopped, and without a new one the subscription is blocked |
| ControlService.Service.MarkProgress | internal/control/reconcile.go:154-170 | only a ready consumer applies the revision |
| ControlService.Service.Consume | internal/control/reconcile.go:89-93 | a running request ends running if its consumer is ready, starting if it is not, and blocked exactly when none could be created |
| ControlService.Service.ReconcileSubscription | internal/control/reconcile.go:70-94 | one subscription is left as the row read asks and no other is touched; a running request is carried out if all its sources run, and rests blocked without consumer if one does not; the whole is a pass of the many-worker machine |
| ControlService.Service.FollowRows | internal/control/reconcile.go:34-37 | after the loop every row is followed, running ones as their sources allow: later subscriptions do not undo earlier ones |
| ControlService.Service.ListSubscriptions | internal/adapters/controlpg/subscriptions.go:47-72 | every subscription exactly once, with its stored row |
| ControlService.Service.ReportObservations | internal/control/reconcile.go:172-193 | succeeds exactly when no applied revision is lost on its way; then this worker's stored observation of every applied subscription is its present revision and state, unless a newer revision was there before |
| ControlService.Service.RenewLease | internal/control/reconcile.go:49 | a renewal that reaches the store moves this worker's stored lease to 30 s after it was sent, and nothing moves it otherwise |
| ControlService.Service.RefreshDependencies | internal/control/reconcile.go:46-62 | healthy exactly when renewal, read and ping were answered; each failure closes its half of the fence; the local deadline moves to 30 s from now exactly when the renewal was confirmed, and then the stored lease ends 30 s after it was sent; the rows are stored ones, none older than at the start |
| ControlService.Service.StopAll | internal/control/reconcile.go:195-218 | no consumer is held or running, and exactly the subscriptions that had one are blocked |
| ControlService.Service.Reconcile | internal/control/reconcile.go:21-44 | completes exactly when every dependency answered, the context lives and no applied revision was lost; after a failed dependency no consumer is left and no source is allowed, after a completed pass every source that runs is allowed for 30 s from its beginning, and the status is ready exactly when all sources run and all subscriptions run or are paused; a confirmed renewal leaves the local deadline at most the length of the pass beyond the stored lease; registrations stay, and so do stored blocks, those stored during the pass included; a completed pass leaves every subscription as its stored row, or one stored since, asks, its sources as just inspected, and every applied revision stored; after every pass each subscription is settled |
| ControlService.Service.PausedPass | internal/control/reconcile.go:21-44 | a pass that began after paused was stored ends without a consumer, completed or not, unless a newer revision has been stored meanwhile |
| ControlService.Service.Start | internal/control/service.go:103-125 | exactly the passes asked for are made, each ending as what it met demands; when the loop ends no consumer is held or running, registrations and stored blocks have stayed, and neither lease nor observations of this worker are left if the store is in reach, while otherwise a lease renewed in some pass is still there |
| ControlService.RestartBlocked | internal/control/service.go:75-99 | a new service never runs or allows any source whose row is blocked when it is created, after any passes |
| ControlService.BlockSurvivesRestart | internal/adapters/controlpg/streams.go:99-119 | a block that Block has just stored, any stored before, and any stored in the passes that follow survive those passes, the end of the service, other workers meanwhile, a restart and all passes after: none of these sources runs or is allowed in the new service |
| ControlService.Service.Change | internal/control/service.go:240-287 | stores the desired state, or changes nothing if it cannot; the stored revision never falls below the one this call stored; success means that this worker applied it, or a later one, and now either runs with a consumer that is not stopped or is paused without one, and the store confirmed exactly it for every worker with an unexpired lease; superseded means that a later revision was applied here and something else is desired; and if the context ends first, neither was so at the last poll |
| ControlService.Service.AwaitConvergence | internal/control/service.go:259-287 | success means that the last poll found the revision applied here in the state asked for, running with a consumer or paused without one, and confirmed by the store for everyone; superseded means that it found a later revision and something else desired; and if the context ends first, the last poll found neither |
| ControlService.RoundTrip | internal/adapters/httpdelivery/client.go:111-135 | an attempt starts exactly when both halves of the fence are open, the deadline has not passed and the source runs; it is bounded by a deadline that no pass in between brought forward |
| JsonNumber.ReadText | internal/protocol/payload.go:172-188 | every number of the grammar is read back from its text |
| JsonNumber.TextRead | internal/protocol/payload.go:172-188 | and nothing else is read |
| DecimalExpansion.ParseText | internal/protocol/payload.go:230-248 | parsing yields sign, digits and point of the number, or refuses it exactly when exponent or point is out of range |
| DecimalExpansion.AcceptsExactly | internal/protocol/payload.go:230-248 | accepted are exactly the number literals whose exponent and point are within 2^20 of zero |
| DecimalExpansion.RenderIsPlaced | internal/protocol/payload.go:250-298 | what is written is the text of one grammatical number without exponent |
| DecimalExpansion.ExpansionIsExact | internal/protocol/payload.go:300-308 | the output has no exponent, conforms to the grammar, keeps the sign and denotes the same real number |
| DecimalExpansion.ExpansionIsBounded | internal/protocol/payload.go:288-290 | the output is at most 2^20 + 2 characters longer than the input |
| DecimalExpansion.PlainIsUnchanged | internal/protocol/payload.go:300-308 | a number without exponent is returned as it is |
| DecimalExpansion.ExpansionIsIdempotent | internal/protocol/payload.go:300-308 | expanding an expanded number changes nothing |
| Strings.TrimSpaceExactly | internal/protocol/payload.go:172-173 | trimming removes exactly the white space at both ends |
| ActivityLog.CursorRoundTrip | internal/activity/log.go:109-126 | parseCursor inverts cursorFor for every boot text without a colon |
| ActivityLog.CursorsExactly | internal/activity/log.go:116-126 | a cursor is exactly a boot text, a colon and the digits of a 64-bit number |
| ActivityLog.Log.Add | internal/activity/log.go:70-83 | the ring buffer keeps refining the history, which grows by the entry under its cursor, at this time, with level info if none was given |
| ActivityLog.Log.Read | internal/activity/log.go:85-107 | a page is exactly the entries after a valid cursor at most 1000 behind, otherwise a reset with the last 1000, or an error for an invalid cursor |
| ActivityLog.StartsPage | internal/activity/log.go:134-143 | the first unread number and the reset decision give that page of the unbounded history |
| ActivityLog.ResetsExactly | internal/activity/log.go:98 | a reader that follows its cursors is reset exactly when more than 1000 entries came since its last page |
| ActivityLog.FollowedHistory | internal/activity/log.go:63-65 | without a reset the pages joined are the history, with no gap and no entry twice |
| ActivityLog.OtherRunResets | internal/activity/log.go:109-111 | a cursor of another run of the process always resets |
| Environment.FindsExactly | internal/config/load.go:107-134 | the names found are exactly those referred to anywhere in the text |
| Environment.ReplacesReference | internal/config/load.go:109-123 | a reference in any surroundings becomes its value, and the value is not scanned again |
| Environment.ReplacesNothing | internal/config/load.go:109-123 | a text without references stays as it is |
| Environment.MissingVariables | internal/config/load.go:130-141 | the missing names are in order, distinct and complete |
| Environment.BeforeExactly | internal/config/load.go:139-140 | the order of names is the lexicographic one |
| Environment.JoinedFails | internal/config/load.go:87-96 | checking the scalars joined by newlines fails exactly when some scalar alone would |
| Environment.JoinedNames | internal/config/load.go:87-96 | and then names every missing variable of every scalar |
| Environment.ExpandScalars | internal/config/load.go:87-105 | all scalars are replaced in place, each by one substitution of its original text, or none is and all missing names are given |
| Provision.ConfiguredColumns | internal/provision/contract.go:145-166 | configured columns in order with their types, the first unsupported one, or all missing ones |
| Provision.IdentityExactly | internal/provision/contract.go:114-200 | an identity is frozen exactly for a table that meets the capture contract, and then holds the configured names and every configured column in order with the type the table gives it |
| Provision.BreachIsTrue | internal/provision/contract.go:114-200 | a table that is refused has the fault it is refused for |
| Provision.RegisteredBreachIsTrue | internal/provision/inspect.go:160-235 | and a registered stream has the fault it is found broken for |
| Provision.LowestMismatch | internal/provision/inspect.go:237-251 | no mismatch exactly when every partition has the replicas wanted, otherwise the lowest one that has not |
| Provision.ValidateReplication | internal/provision/inspect.go:239-251 | sorting and scanning finds it, whatever the order of the map |
| Provision.InspectSource | internal/provision/inspect.go:47-62 | the first finding of the five checks wins |
| Provision.SameVerdict | internal/provision/inspect.go:47-235 | on the same answers inspection blocks exactly when provisioning finds a broken contract, and is content exactly when provisioning is and the connector and its tasks run |
| Provision.BlockedHasReason | internal/provision/inspect.go:22-32 | a permanent verdict has a reason that the control store accepts |
| ProvisionService.Service.AwaitCapture | internal/provision/service.go:107-122 | the wait succeeds exactly when some poll saw the connector running and not failed, with at least one task and all tasks running, and a slot that is present and has neither lost nor unreserved WAL |
| ProvisionService.Service.Establish | internal/provision/service.go:86-105 | topic, connector, readiness and registration happen in this order, exactly up to the first that fails; success exactly when all are answered, some poll saw such a capture, and the store accepts a first registration or the same again |
| ProvisionService.Service.ConfirmEstablished | internal/provision/service.go:65-84 | success exactly when unblocked and valid; the row changes only by a block, for a broken contract; each failure is told apart |
| ProvisionService.Service.ProvisionSource | internal/provision/service.go:28-52 | a registered source is never established again and keeps identity, names and topic; an unregistered one gets exactly as far as its calls succeed and is registered only after some poll saw connector, tasks and slot in that state; a table that breaks the contract is reported and changes nothing; success returns the stored, unblocked row |
| ProvisionService.TableBreachBlocksOnInspection | internal/provision/inspect.go:64-88 | the same broken table blocks its source on inspection, whatever else is found |
| Debezium.ValidateIdentity | internal/adapters/debezium/decode.go:150-187 | accepted exactly when the identity matches the source column for column and is usable |
| Debezium.FrozenIdentityIsAccepted | internal/adapters/debezium/decode.go:150-187 | a frozen identity passes exactly when columns are distinct and named, include serial and partitioning, and table, partitions and generation are valid; it matches the configuration in any case and has an event id column exactly when one is configured |
| Debezium.RepeatedColumnCannotBeDecoded | internal/config/validate.go:70-84 | a loadable configuration that provisioning accepts and decoding always refuses |
| Debezium.ConfiguredValues | internal/adapters/debezium/decode.go:96-116 | every column converts, or nothing is returned; the keys are exactly the columns and the event id is the configured one |
| Debezium.Decode | internal/adapters/debezium/decode.go:14-48 | a record is decoded exactly when the identity is valid, operation, schema, table and row image are those of an insert or snapshot row of this table, the key is the row's partitioning value, and every column has a value of its type or an allowed null; the payload has exactly the configured columns with their converted values, and the identifiers are those of the row |
| Debezium.EnvelopeExactly | internal/adapters/debezium/decode.go:66-94 | the lookups in the envelope succeed exactly for such a record, and give its row image |
| Debezium.KeyIsThePartitioningValue | internal/adapters/debezium/decode.go:217-252 | the partitioning value of a payload is the conversion of the record's only key field |

## Left out

- Client libraries: Kafka and PostgreSQL are abstract state with atomic operations; wire traffic, connection pools and the YAML tree walk that collects string scalars are not modelled.
- JSON parsing and printing, base64, SHA-256 resource names and the calendar formatting of timestamps: the decoder works on JSON values, with the conversion of one non-null value as a parameter; the order of fields inside a JSON object used as a key is not kept.
- The range check of `floatLiteral` before expansion and the other column conversions.
- Real time, jitter and back-off lengths: clocks are logical, and every wait may be the last.
- Scheduling: interleavings are steps between atomic calls; Go's memory model is not represented.
- Several scopes, subscriptions and destinations at once in `ControlMachine` and `PartitionMachine`: each is one subscription, one partition of one destination; the tables and the service have all of them.
- Activity entries written by workers and the control loop, HTTP headers, response classification and the operator API.
- A log with more than 2^64 - 2 entries, where the sequence number would wrap.
- The wording of errors, except for cursors and block reasons.
- Pausing and resuming of fetches around a batch, and the resume after it.
- Eventual delivery and readiness: nothing says that a retry loop succeeds, only what holds when it does.
- PartitionWorker.Run: a retry loop is given the answers to its tries, and its context ends at the latest with them; the properties hold for all answers, and none says how many records are finished before the context ends.
- ControlService.Service.Change: polls between passes rather than inside one, where a subscription may briefly show a state in between; the view returned on errors is not modelled.
- ControlMachine.AttemptAfterAgreedPause: the state of the sources, which the fence also asks for, is not part of this machine, and store and workers share one clock.
- ControlService.New: the generated worker ID is given and not empty.
- ControlService.RoundTrip: only the check and the deadline; closing the body and the transport below are not modelled.
- ControlStore.Store.RegisterStream: identities and names are compared as values rather than as JSON texts.
- Consumer.Group.Run: what a worker does with the records it received is in the partition modules; a fetch error that loses nothing only passes by.
- ProvisionService.Service.ProvisionSource: the store is not changed by others between reading the row and writing it within one call; Establish and ConfirmEstablished hold for the store as it stands when they are called.
- Environment.ExpandScalars: the scalars are distinct nodes, as those of a tree are; texts are sequences of characters, so names are ordered as characters, which for their ASCII letters is Go's order of bytes.
