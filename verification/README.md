# Numaflow in Dafny

Numaflow runs streaming pipelines on Kubernetes. This project models the parts of it whose promises live in no
single function, and proves those promises for every input, every run and every interleaving. Check it with
`dafny verify dfyconfig.toml`.

**Source delivery and acknowledgement** (`AckHandles`, `Offsets`, `Tracking`, `SourceProtocol`, `SourceInvariant`,
`SourceTheorems`, `SourceHandles`, `SourceProgress`, `SourceIntake`, `SourceRetries`, `SourceDrain`, `Transforming`,
`Retrying`). A source takes semaphore permits, tracks each offset, hands out reference-counted message handles, and
reports each message upstream from a background task once its handles are gone. `SourceProtocol` is a labelled step
system over the read loop (streaming and batch mode), the background tasks and the handle owners. Read batches, upstream
replies, cancellation and handle operations are labels, so a statement about all label sequences covers all runs. One
inductive invariant (`SourceInvariant`) yields acknowledgement safety, exact permit and tracker accounting, the
in-flight bounds and the drain (`SourceTheorems`), and that the source cannot deadlock and comes to its end
(`SourceProgress`). `SourceHandles` says acknowledgement safety of a run's labels alone. `SourceIntake` follows the
messages that were read, `SourceRetries` ties the calls a task makes to the retry loop, and `SourceDrain` joins the
protocol to the transformer: what becomes of a batch that is given up.

**Pod rollout** (`Clusters`, `Decimal`, `RolloutStatus`, `PodRollout`, `Availability`). The cluster is a map of named
pods; which calls fail is an input (`Clusters`), listing order and name suffixes are nondeterministic. A pass is proved
against a function on the recorded status, and that function is followed over whole rollouts. `Availability` follows
the pods themselves: how many replicas can be without a ready pod at any time. The mono vertex controller
(pkg/reconciler/monovertex/controller.go) runs the same algorithm with `-mv-` in the pod name; `base` covers both.

**Pipeline graph validation** (`PipelineGraph`, `Cycles`, `Connectivity`). The depth-first searches, with their
shared `visited` set, are proved equivalent to statements about walks.

**Pause and resume** (`Lifecycle`). A reconcile pass as a function of what it observes, the controller's methods
proved to perform it, and what holds over every run of passes.

**Identity cookies** (`Cookies`) and the **unique string list** (`UniqueStrings`).

## What turned out differently from what one would expect

- The drain asks for the permit count cast to 32 bits. It waits for all tasks if and only if there are fewer than
  2^32 permits (`DrainExact`, counterexample `DrainLeak`).
- In batch mode, a batch whose ack ends in an error never sends its nacks, so a failed message can go unreported.
  Every settled message is reported, on every run, if and only if a task never has more than one message: in
  streaming mode, or if reads return one message at most (`ReportedExact`, counterexample `NeverReported`).
- The branch for a disposition channel closed without a message cannot be taken (`NeverLost`).
- A negative `maxUnavailable` is not rejected and can take the unsigned count of updated replicas below zero. The
  count ends beyond the desired replicas exactly if that happens and the counter does not wrap all the way round
  (`UpdatedWithinDesired`, counterexample `NegativeUnderflows`).
- The API comment for `maxUnavailable` (pkg/apis/numaflow/v1alpha1/update_strategy.go:60-70) says a percentage is
  rounded down; the code rounds up, and the model follows the code.
- A rollout pass looks at pod readiness only if the recorded ready count differs from the updated count
  (`ReadinessIgnoredIff`). Error-free passes never leave the two equal mid-rollout (`RolloutInvariant`), but a pass that
  counts all pods ready and then fails does; the next pass moves on without looking (`AdvanceNeedsFullCount`,
  counterexample `StaleCountAdvances`).
- A resume that removes the pause annotation and then fails to patch a vertex, or loses its status write, leaves the
  pipeline recorded as paused with vertices running; if pausing is wanted again, nothing changes that. Over runs with
  failing passes the lifecycle invariant holds at the end exactly if no such pass was left standing (`RunKeepsIff`,
  counterexample `PausedButRunning`, run by the controller itself in `BreakThenPause`).
- A failed pass that records the phase Failed, or ends a pause halfway, can wipe the last trace of a pause. The pipeline
  is then reported running while vertices stay paused, and no pass that wants it running ever looks at them
  (`StrandsIff` says exactly which passes do this, `StrandedStays`, counterexample `RunningButPaused`, run by the
  controller itself in `BreakThenRun`).
- Refreshing a tracked message's serving responses takes its entry out and puts it back under the offset given. For an
  untracked offset of the other variant this loses a message: its entry ends up under the offset given, or over another
  message's entry (`RefreshLoses`, inputs `RefreshUntracks` and `RefreshMisplaces`). The tracker stays consistent
  exactly if the offset is tracked, or clashes with none that is (`ServingRefresh`). The function accepts such an
  offset, but its one caller (rust/numaflow-core/src/mapper/map/stream.rs:101) passes that of the message being mapped.
- `Offset` comparison calls offsets of different variants equal. The tracker stays sound because such an offset is
  turned away as a duplicate, so each partition only ever holds one variant (`ContainsExactly`, `HistoryKeeps`).
- The chunk limit is on the unescaped value. An escaped cookie fits 4096 bytes exactly if the bytes that escaping
  enlarges leave room for it (`FitsExactly`, counterexample `ColonsDoNotFit`).
- No cookie is written for the empty value, so it does not survive the round trip (`RoundTrip`).

## Model

| member | source | states |
|---|---|---|
| `AckHandles.ApplyInv` | rust/numaflow-core/src/message.rs:177-262 | each atomic step of any owner keeps the reference count exact; zero is stable; nothing was sent before |
| `AckHandles.ExactlyOneVerdict` | rust/numaflow-core/src/message.rs:137-262 | over every interleaving, said of the operations alone: nothing is sent until the original handle and all that were derived were given up, exactly one disposition after; Ack iff every one of them was marked successful, else a Nak with the first options any failure gave; the count is live unmarked handles plus those ended without success |
| `AckHandles.RunRecorded` | rust/numaflow-core/src/message.rs:177-262 | what is recorded about the handles is what was done: as many as were derived, the options of the failures in order, and each marked and given up iff an operation did so |
| `AckHandles.AckHandle.constructor` | rust/numaflow-core/src/message.rs:154-163 | a new handle has count one, one reference and an empty channel |
| `AckHandles.AckHandle.WithMessage` | rust/numaflow-core/src/message.rs:254-262 | deriving a handle adds one reference and one to the count |
| `AckHandles.AckHandle.MarkSuccess` | rust/numaflow-core/src/message.rs:235-239 | decrements the count, then gives up the reference |
| `AckHandles.AckHandle.MarkFailed` | rust/numaflow-core/src/message.rs:244-249 | records the options unless some were recorded, leaves the count, gives up the reference |
| `AckHandles.AckHandle.Drop` | rust/numaflow-core/src/message.rs:177-196 | only the last reference sends a disposition, decided by the count |
| `Offsets.CmpBytesLaws` | rust/numaflow-core/src/message.rs:510-520 | string offsets: antisymmetric, transitive, Equal iff equal |
| `Offsets.CmpLaws` | rust/numaflow-core/src/message.rs:382-396 | a total order on one variant of one partition; never separates variants |
| `Offsets.CmpIntMeans` | rust/numaflow-core/src/message.rs:388-396 | of two integer offsets the one with the lower sequence number comes first |
| `Offsets.CmpBytesMeans` | rust/numaflow-core/src/message.rs:510-520 | of two strings the one comes first that, at the first difference, ends or has the lower byte |
| `Tracking.TrackedSeparated` | rust/numaflow-core/src/tracker.rs:205-227 | no two tracked offsets compare equal |
| `Tracking.ContainsExactly` | rust/numaflow-core/src/tracker.rs:205-227 | the ordered map's lookup finds a key iff a tracked offset clashes |
| `Tracking.NewEntryStored` | rust/numaflow-core/src/tracker.rs:205-227 | the entry of a message holds its watermark, its event time and, when serving, the callback of its headers; callback information is there iff all three parts are named |
| `Tracking.CallbackHeaders` | rust/numaflow-core/src/tracker.rs:205-227 | the two headers, by name, and the previous vertex are what a callback is made of |
| `Tracking.Tracker.Insert` | rust/numaflow-core/src/tracker.rs:205-227 | MissingCallbackInfo iff serving headers are absent, otherwise Duplicate iff an in-flight offset clashes; otherwise exactly this message joins the in-flight ones, whose watermarks, event times and callbacks the entries hold |
| `Tracking.Tracker.Delete` | rust/numaflow-core/src/tracker.rs:308-325 | takes out the offset's message, or the one the search runs into, counts it and hands over the callback its headers call for, with the responses to it so far; changes nothing iff no in-flight offset clashes |
| `Tracking.Tracker.ServingUpdate` | rust/numaflow-core/src/tracker.rs:231-258 | serving: the responses to the offset's message become the given ones, nothing else changes; not serving: nothing |
| `Tracking.Tracker.ServingAppend` | rust/numaflow-core/src/tracker.rs:282-305 | serving: one more response to the offset's message; not serving: nothing |
| `Tracking.Tracker.ServingRefresh` | rust/numaflow-core/src/tracker.rs:261-280 | serving: the responses to a tracked offset's message are forgotten; for an untracked one that clashes, the entry the search ran into is moved to it, or over another clashing one's entry, and nothing else changes; entries and in-flight messages still agree iff not serving, or the offset is tracked or clashes with none |
| `Tracking.RefreshLoses` | rust/numaflow-core/src/tracker.rs:270-278 | after refreshing an untracked, clashing offset one message in flight is not tracked any more; its callback is handed over for the given offset, or for another message if another one clashes; all others are tracked as before |
| `Tracking.RefreshUntracks` | rust/numaflow-core/src/tracker.rs:261-280 | such an input: one message in flight, not tracked after the refresh |
| `Tracking.RefreshMisplaces` | rust/numaflow-core/src/tracker.rs:261-280 | such an input with two messages: one is not tracked, and deleting the other would hand over the lost one's callback |
| `Tracking.Tracker.Find` | rust/numaflow-core/src/tracker.rs:231-325 | the key a lookup runs into: the offset itself if tracked, one that clashes otherwise, none iff none clashes |
| `Tracking.Tracker.LowestWatermark` | rust/numaflow-core/src/tracker.rs:335-348 | the least watermark among the partitions' first entries, or -1; it is the minimum over all in-flight messages if their watermarks follow offset order |
| `Tracking.Tracker.LowestOfFirsts` | rust/numaflow-core/src/tracker.rs:335-348 | looking at the first entry of each partition yields the least watermark among them |
| `Tracking.Tracker.FirstKey` | rust/numaflow-core/src/tracker.rs:335-348 | the least key of one partition |
| `Tracking.HistoryKeeps` | rust/numaflow-core/src/tracker.rs:205-325 | after any insert/delete history, redeliveries included, each partition holds one variant of offset |
| `Tracking.LowestIsMinimum` | rust/numaflow-core/src/tracker.rs:335-348 | if the watermarks of the messages inserted and not yet deleted follow offset order in each partition, the reported one is their minimum |
| `SourceInvariant.StepInv` | rust/numaflow-core/src/source.rs:526-1182 | every step of loop, task or handle owner keeps the protocol invariant |
| `SourceInvariant.RunInvariant` | rust/numaflow-core/src/source.rs:526-1182 | the invariant holds over every run |
| `SourceInvariant.NeverLost` | rust/numaflow-core/src/source.rs:1082-1094 | a task never finds the channel closed without a disposition |
| `SourceTheorems.AckOnlyIfAllSucceeded` | rust/numaflow-core/src/source.rs:1065-1182 | in every run, both modes, an ack is sent only if all handles ever derived were marked successful and given up |
| `SourceTheorems.NackOnlyIfSomeFailed` | rust/numaflow-core/src/source.rs:1065-1182 | a nack is sent only if some handle did not succeed, with the first recorded options |
| `SourceTheorems.NeverBoth` | rust/numaflow-core/src/source.rs:1065-1182 | no delivery is both acked and nacked |
| `SourceHandles.HandlesFollow` | rust/numaflow-core/src/source.rs:526-1182 | over every run the state of a message's handles is what the operations on them in that run make of a new handle |
| `SourceHandles.AckedMeans` | rust/numaflow-core/src/source.rs:1065-1182 | over every run: if the source was sent an ack for a message, the run marks successful and gives up every handle ever derived from it |
| `SourceHandles.NackedMeans` | rust/numaflow-core/src/source.rs:1065-1182 | over every run: if it was sent a nack, the run gives up every handle, never marks one of them successful, and the options are the first a failure gave |
| `SourceHandles.ReportedMeans` | rust/numaflow-core/src/source.rs:1133-1182 | over every run: which of ack and nack a message's task sent, once it is through, by the operations in the run and the task's result |
| `SourceTheorems.AcksAscend` | rust/numaflow-core/src/source.rs:1133-1165 | a task reports its deliveries in the order they were read, none twice |
| `SourceTheorems.ReleasedMeansReported` | rust/numaflow-core/src/source.rs:1133-1182 | once a task released its permit: acks were sent for exactly its successful deliveries, and accepted exactly if the task ended well; failed ones were nacked exactly if it did |
| `SourceTheorems.NeverReported` | rust/numaflow-core/src/source.rs:1133-1165 | a batch run in which a failed delivery is never reported although its task is through |
| `SourceTheorems.ReportedExact` | rust/numaflow-core/src/source.rs:1133-1182 | every delivery whose task is through was reported, on every run, iff streaming or reads return at most one message |
| `SourceTheorems.PermitsConserved` | rust/numaflow-core/src/source.rs:818-940 | free permits, task permits and the loop's permit add up to the semaphore in every reachable state |
| `SourceTheorems.TrackedBijection` | rust/numaflow-core/src/source.rs:1065-1127 | tracked offsets are in bijection with deliveries not yet deleted; no two of these clash |
| `SourceTheorems.PermitsMeans` | rust/numaflow-core/src/source.rs:526-531 | with read-ahead as many permits as whole batches fit into `concurrency`, at least one; without it one; streaming, one per message |
| `SourceTheorems.TrackedBound` | rust/numaflow-core/src/source.rs:526-673 | tracked messages never exceed one read's worth per permit |
| `SourceTheorems.StreamingBound` | rust/numaflow-core/src/source.rs:798-940 | streaming: at most `concurrency` tracked messages |
| `SourceTheorems.BatchBound` | rust/numaflow-core/src/source.rs:526-673 | batch: at most max(concurrency, batch size) with read-ahead, one batch without |
| `SourceTheorems.DrainWaitsForAll` | rust/numaflow-core/src/source.rs:1037-1058 | while draining, the barrier opens iff every task has released |
| `SourceTheorems.StoppedMeansDrained` | rust/numaflow-core/src/source.rs:1037-1058 | once stopped nothing is tracked and every admitted delivery is settled and its task released |
| `SourceTheorems.DrainLeak` | rust/numaflow-core/src/source.rs:1043-1046 | with 2^32 permits or more a run stops with a message still tracked |
| `SourceTheorems.DrainExact` | rust/numaflow-core/src/source.rs:1043-1046 | the drain is complete on every run iff permits are below 2^32 |
| `SourceProgress.TaskNotStuck` | rust/numaflow-core/src/source.rs:1065-1182 | in every reachable state a task that has not released can take a step, unless it waits for a message some handle of which is still held |
| `SourceProgress.SourceNotStuck` | rust/numaflow-core/src/source.rs:526-1182 | in every reachable state before its end the loop can step, or a task can, or a task waits for a message some handle of which is held: reading and draining never deadlock |
| `SourceProgress.EveryAnswerPossible` | rust/numaflow-core/src/source.rs:526-1182 | the model constrains nothing outside: every read answer, dispatch result, upstream reply, handle operation and cancellation is possible where it can occur |
| `SourceProgress.CancelledStep` | rust/numaflow-core/src/source.rs:821-1035 | once cancelled, every loop step brings the end closer and no further message gets a permit in streaming mode |
| `SourceProgress.CancelledBounded` | rust/numaflow-core/src/source.rs:821-1035 | over every run of a cancelled source the loop takes no more steps than it had left, at most one more read |
| `SourceProgress.RefusedAckCancels` | rust/numaflow-core/src/source.rs:636-664 | a task whose ack was given up can cancel the source |
| `SourceProgress.CancelOnlyIfRefused` | rust/numaflow-core/src/source.rs:636-664 | only a task that is through with a given-up ack can cancel the source |
| `SourceProgress.TaskStepWorks` | rust/numaflow-core/src/source.rs:1065-1245 | every step of a task lowers the bound on the steps it has left and touches no other task |
| `SourceProgress.DrainBounded` | rust/numaflow-core/src/source.rs:1037-1245 | over every run from a draining source the tasks take no more steps than the work they had left |
| `SourceIntake.NothingForgotten` | rust/numaflow-core/src/source.rs:591-1035 | over every run the messages handled and those in hand are the messages read, in order, until the loop ends; the deliveries are exactly the handled ones that neither clashed nor lacked callback information |
| `SourceIntake.RunIntake` | rust/numaflow-core/src/source.rs:591-1035 | the same from any state: only the step that ends the loop may lose messages |
| `SourceIntake.RunDeliveries` | rust/numaflow-core/src/source.rs:611-640 | the deliveries grow by exactly the messages handled and accepted, in order |
| `SourceIntake.EndStep` | rust/numaflow-core/src/source.rs:533-1035 | exactly what ends the loop: a failed read or dispatch, a message that cannot be tracked, the end of the stream, or cancellation where it is looked at; a duplicate does not |
| `SourceIntake.AllDispatched` | rust/numaflow-core/src/source.rs:636-940 | over every run: as many dispatches as batches, or messages in streaming mode, that were given a task, but for the one that is due |
| `SourceIntake.DispatchBetween` | rust/numaflow-core/src/source.rs:636-940 | between two of these there is a dispatch |
| `SourceIntake.ReadsChecked` | rust/numaflow-core/src/source.rs:533-600 | over every run each attempt to read comes after a look at cancellation of its own |
| `SourceIntake.EndResult` | rust/numaflow-core/src/source.rs:818-1058 | over every run the source ends well iff what ended its loop was not an error |
| `SourceIntake.CancelledIff` | rust/numaflow-core/src/source.rs:636-664 | over every run the source is cancelled iff somebody cancelled it or the task of a given-up ack did |
| `SourceDrain.Dispatch` | rust/numaflow-core/src/source.rs:675-703 | a batch the transformer gives up is a failed dispatch: the source, from any reachable state, drains in a reachable state in which the batch's handles are all dropped, saying Ack for messages dropped by their retry strategy and Nak for the others, and nothing else changed |
| `SourceDrain.DrainEnds` | rust/numaflow-core/src/source.rs:1037-1182 | over every run of a draining source whose handles were all given up: unless stopped it can go on by itself, and its tasks take no more steps than they had left |
| `SourceDrain.GivenUpReported` | rust/numaflow-core/src/source.rs:1133-1182 | once stopped, the messages of a batch were acked or nacked as their handles say, unless an ack was refused for good; if nothing was dropped all were nacked |
| `SourceDrain.GivenUpBatchDrains` | rust/numaflow-core/src/source.rs:1037-1182 | the same over every run from the failed dispatch on, if no other handle is held |
| `SourceRetries.RunRetries` | rust/numaflow-core/src/source.rs:1185-1245 | over every run each task's ack and nack calls so far are a prefix of what the retry loop makes of their answers |
| `SourceRetries.CallsAreAttempts` | rust/numaflow-core/src/source.rs:1185-1245 | a task that is through made exactly the calls the synchronous retry loop makes of the answers it got, and ended well iff that loop's ack result is a success |
| `Transforming.EmptyOnlyByDrop` | rust/numaflow-core/src/transformer.rs:227-266 | no outputs only after a retry strategy dropped the message |
| `Transforming.FateDecided` | rust/numaflow-core/src/transformer.rs:227-266 | the first attempt not retried decides: a good response is passed on whole; a failure given up on is dropped or fails as the strategy says; an error or empty response fails |
| `Transforming.FateUndecided` | rust/numaflow-core/src/transformer.rs:227-266 | nothing is decided iff every attempt is retried |
| `Transforming.RunFuture` | rust/numaflow-core/src/transformer.rs:227-266 | the retry loop ends as its first deciding attempt says |
| `Transforming.NoPrematureZero` | rust/numaflow-core/src/transformer.rs:280-288 | while outputs are derived the count stays above zero and nothing is sent |
| `Transforming.FannedOutInv` | rust/numaflow-core/src/transformer.rs:280-288 | fanning out leaves a consistent handle counting exactly its outputs; zero outputs means Ack |
| `Transforming.FanOut` | rust/numaflow-core/src/transformer.rs:280-288 | deriving all outputs and then marking the input gives that state |
| `Transforming.ReleaseAll` | rust/numaflow-core/src/transformer.rs:298-315 | dropping whatever is held settles the handle with the verdict of its marks |
| `Transforming.TransformBatch` | rust/numaflow-core/src/transformer.rs:165-351 | every handle ends in a state its owners can bring it to; delivered iff all inputs complete, then outputs in input order and counts equal to output numbers; given up iff the first incomplete input failed, then all inputs Nak except those already dropped |
| `Transforming.InOrderMeans` | rust/numaflow-core/src/transformer.rs:280-351 | what is delivered are all outputs of all inputs, in order, each on its own held, unmarked handle, derived from the input it came from |
| `Transforming.HandlesDistinct` | rust/numaflow-core/src/transformer.rs:280-288 | no handle carries two messages |
| `Transforming.FailureTag` | rust/numaflow-core/src/transformer.rs:227-266 | the tag that marks a failure, by name |
| `Transforming.GiveUp` | rust/numaflow-core/src/transformer.rs:298-315 | the early exit settles every input: Ack iff already dropped by retry, else Nak |
| `Transforming.DroppedMeans` | rust/numaflow-core/src/transformer.rs:298-315 | an input counts as dropped iff a retry strategy dropped it and its future had finished by the time the batch was given up |
| `Retrying.SyncLoopStops` | rust/backoff/src/retry.rs:62-142 | the synchronous loop stops at the first success, non-retryable error or last backoff |
| `Retrying.Retry.constructor` | rust/backoff/src/retry.rs:62-74 | starts running the first attempt with all backoffs and all waiting ahead |
| `Retrying.Retry.Poll` | rust/backoff/src/retry.rs:76-142 | Ready is the synchronous loop's result with attempts one more than backoffs consumed, and comes exactly when nothing is left to wait for; Pending takes one off what is, and gets strictly closer to the end |
| `Retrying.Retry.CoolOff` | rust/backoff/src/retry.rs:76-90 | beginning a delay uses up one backoff and skips no waiting |
| `Retrying.Retry.Reattempt` | rust/backoff/src/retry.rs:92-103 | so does running the operation again, once the delay is over |
| `Retrying.WaitsMeans` | rust/backoff/src/retry.rs:76-142 | what there is to wait for: every attempt up to the last, and every delay between two |
| `Retrying.Retry.Await` | rust/backoff/src/retry.rs:113-142 | under any pattern of Pending answers, terminates with the synchronous loop's result and attempt count, after all the waiting |
| `Retrying.AckWithRetry` | rust/numaflow-core/src/source.rs:1185-1213 | an error means a non-retryable error, observed cancellation or an exhausted budget; every delay between two calls is waited for |
| `Retrying.NackWithRetry` | rust/numaflow-core/src/source.rs:1216-1245 | never errors, at most 1201 calls, fewer only for a stated reason; every delay between two calls is waited for |
| `Cycles.GetCyclesFromVertex` | pkg/reconciler/validator/pipeline_validate.go:483-511 | returns exactly the vertices where a walk first closes; restores `visited`; terminates |
| `Cycles.FindVertex` | pkg/reconciler/validator/pipeline_validate.go:515-546 | true iff a simple walk meets the condition; restores `visited` on failure; terminates |
| `Cycles.FindIsReach` | pkg/reconciler/validator/pipeline_validate.go:515-546 | a fresh search succeeds iff a matching vertex is reachable by any walk |
| `Cycles.ClosingIsOnCycle` | pkg/reconciler/validator/pipeline_validate.go:483-511 | a reported vertex is reachable and on a cycle |
| `Cycles.CycleHasClosing` | pkg/reconciler/validator/pipeline_validate.go:483-511 | every vertex on a reachable cycle is reachable from a reported one |
| `Cycles.ToVerticesMappedByFrom` | pkg/reconciler/validator/pipeline_validate.go:551-565 | fails iff an edge leads to an unknown vertex, naming the first such; else the adjacency of exactly the edges |
| `Cycles.GetCycles` | pkg/reconciler/validator/pipeline_validate.go:461-479 | the closing vertices of walks from any source |
| `Cycles.SameWalks` | pkg/reconciler/validator/pipeline_validate.go:551-565 | the adjacency has exactly the walks and cycles of the specification's edges |
| `Cycles.ReduceMeans` | pkg/reconciler/validator/pipeline_validate.go:429-456 | with unique names, a name stands for a Reduce iff the vertex of that name is one |
| `Cycles.ByNameMeans` | pkg/reconciler/validator/pipeline_validate.go:430 | if names repeat, the last vertex of a name counts |
| `Cycles.ClosingsSuffice` | pkg/reconciler/validator/pipeline_validate.go:429-456 | searching from closing vertices decides whether a Reduce is on or after a cycle reachable from a source |
| `Cycles.ValidateCycles` | pkg/reconciler/validator/pipeline_validate.go:429-456 | fails iff an edge leads to an unknown vertex, or a Reduce is reachable from a vertex on a cycle some source reaches; the vertex it names is the unknown one, or one on such a cycle from which the Reduce is reached |
| `Connectivity.Neighbors` | pkg/reconciler/validator/pipeline_validate.go:583-592 | the neighbours in both directions, exactly |
| `Connectivity.BuildVisitedMap` | pkg/reconciler/validator/pipeline_validate.go:580-601 | adds only vertices connected to the start, and all neighbours of what it adds; terminates |
| `Connectivity.IsAForest` | pkg/reconciler/validator/pipeline_validate.go:568-576 | false iff every two vertices are connected |
| `Availability.MaxUnavailable` | pkg/reconciler/vertex/controller.go:246-315 | over every run of a rolling update, failed passes included: at most `maxUnavailable` replicas lack a ready pod, apart from those that lacked one to begin with or lost it between passes |
| `Availability.PassSafe` | pkg/reconciler/vertex/controller.go:246-315 | one pass, wherever it ends, keeps the replicas without a ready pod within one batch, and moves on to the next only when all before it are ready |
| `Availability.TakeTurn` | pkg/reconciler/vertex/controller.go:207-332 | a pass of the controller does to the pods and the status what these theorems say of a pass |
| `Availability.Roll` | pkg/reconciler/vertex/controller.go:207-332 | the controller's own passes, the pods being anything before each: the bound holds after the last |
| `Clusters.Cluster.Call` | pkg/reconciler/vertex/controller.go:334-431 | one call, answered iff the cluster does not fail the call of that number |
| `Decimal.NumeralPrefix` | pkg/reconciler/vertex/controller.go:345-348 | a numeral and separator can be read off the front of a string in one way only |
| `Decimal.ItoaLeads` | pkg/reconciler/vertex/controller.go:345-348 | numerals have no leading zeros |
| `PodRollout.PrefixIdentifies` | pkg/reconciler/vertex/controller.go:345-348 | a pod name starts with the prefix of exactly one replica |
| `PodRollout.NameReads` | pkg/reconciler/vertex/controller.go:345-348 | vertex and replica can be read off a pod name |
| `PodRollout.SoleMeans` | pkg/reconciler/vertex/controller.go:602-627 | what "exactly one live pod with the hash" means for the replica's pods |
| `PodRollout.MatchPod` | pkg/reconciler/vertex/controller.go:347-355 | keeps a pod with the prefix and hash, or the first match was bad, or there is none |
| `PodRollout.Rollout.OrchestratePodsFromTo` | pkg/reconciler/vertex/controller.go:334-414 | exactly one live pod with the hash per replica of the range, one of the old ones where all of them were good, nothing outside changes; for every listing order and any stale or duplicate pods; pods are only created, pending, and deleted; it stops at the first call that fails, having dealt with the replicas before, deleted nothing unless all of them have their pod, and kept every replica's one good pod |
| `PodRollout.SoleStays` | pkg/reconciler/vertex/controller.go:347-355 | a replica's one good pod stays |
| `PodRollout.Rollout.DeletePods` | pkg/reconciler/vertex/controller.go:407-412 | deletes exactly the given pods, in any order, or exactly those whose call was answered before the first that failed |
| `PodRollout.Rollout.CleanUpPodsFrom` | pkg/reconciler/vertex/controller.go:416-431 | no live pod at or above the bound, the rest untouched; deletes exactly those whose call was answered before the first that failed |
| `PodRollout.Rollout.CountReady` | pkg/reconciler/vertex/controller.go:251-269 | the number of live, ready pods of the first replicas with the hash |
| `PodRollout.ReadyMeans` | pkg/reconciler/vertex/controller.go:251-269 | which pods these are: of the range, with the hash, not being deleted, running, containers ready |
| `PodRollout.Rollout.OrchestratePods` | pkg/reconciler/vertex/controller.go:207-332 | from any pods and status, wherever the pass ends, the status moves as specified and a rolling pass leaves the pods of replicas beyond its batch alone; a pass that does not get past its updated replicas touches none beyond, and no updated replica loses its one good pod; error-free: no live pod at or above desired, updated within desired and one live pod with the new hash per replica below it unless the count underflows; the pass finishes iff no call failed; a count is full iff every updated replica's one live pod is ready |
| `PodRollout.Rollout.BeginPass` | pkg/reconciler/vertex/controller.go:220-244 | notices a changed hash and cleans up beyond the desired count; stops iff a call failed, with the status of that point |
| `PodRollout.Rollout.EnsureUpdated` | pkg/reconciler/vertex/controller.go:246-269 | one live pod with the hash per updated replica, the others untouched; the pass waits iff it counted and some are not ready; it fails iff a call failed, and then leaves the status |
| `PodRollout.Rollout.AdvanceRollout` | pkg/reconciler/vertex/controller.go:272-331 | extends the updated range, keeping earlier replicas and their readiness and the pods beyond the batch even on a failure, which leaves the status and happens iff a call failed |
| `PodRollout.FullCountMeansAllReady` | pkg/reconciler/vertex/controller.go:251-269 | with one live pod per replica, a full count means every live pod is ready, and conversely |
| `RolloutStatus.ScaledMeans` | pkg/reconciler/vertex/controller.go:296-301 | a percentage is rounded up, so a positive one of at least one replica is at least one; a number is itself |
| `RolloutStatus.UpdatedWithinDesired` | pkg/reconciler/vertex/controller.go:293-311 | the recorded count is beyond desired iff a negative `maxUnavailable` underflows it and it does not wrap back into range; down to -2^31 it never does |
| `RolloutStatus.NegativeUnderflows` | pkg/reconciler/vertex/controller.go:293-311 | a concrete pass that records 4294967295 updated replicas |
| `RolloutStatus.PassAdvances` | pkg/reconciler/vertex/controller.go:246-315 | a pass over any update in progress does exactly one batch or nothing; past the first batch it moves iff it counted all updated replicas ready or the record already said so |
| `RolloutStatus.ZeroStalls` | pkg/reconciler/vertex/controller.go:293-314 | with nothing allowed unavailable the update does not move, and the new hash does not become current |
| `RolloutStatus.StallsForGood` | pkg/reconciler/vertex/controller.go:293-314 | nor over any run of passes |
| `RolloutStatus.HashRecorded` | pkg/reconciler/vertex/controller.go:226-314 | the recorded current hash becomes the new one iff the pass does not wait and all desired replicas are updated or it just scales; otherwise it stays |
| `RolloutStatus.CountRecorded` | pkg/reconciler/vertex/controller.go:226-311 | the recorded count of updated replicas after any pass without an error, negative settings included |
| `RolloutStatus.CurrentOverRun` | pkg/reconciler/vertex/controller.go:226-314 | over every run the current hash is the old one until the batches cover desired, then the new one |
| `RolloutStatus.ReadinessIgnoredIff` | pkg/reconciler/vertex/controller.go:251-269 | a pass advances whatever the readiness iff the recorded ready count equals the updated count |
| `RolloutStatus.FirstPass` | pkg/reconciler/vertex/controller.go:226-315 | the pass after a hash change updates exactly the first batch |
| `RolloutStatus.FailedPass` | pkg/reconciler/vertex/controller.go:207-332 | a failed pass updates no replica, and leaves a full count only if it counted all ready and failed afterwards |
| `RolloutStatus.FailedPassRecords` | pkg/reconciler/vertex/controller.go:207-332 | what a failed pass records, by where it failed; never that the new hash is current |
| `RolloutStatus.ReplicasRecorded` | pkg/reconciler/vertex/controller.go:232-331 | recorded replicas never exceed the desired ones, equal them after a pass that scaled or rolled, and otherwise stay |
| `RolloutStatus.ReadyRecorded` | pkg/reconciler/vertex/controller.go:226-269 | the recorded ready count is the one the pass made, if it counted, and otherwise stays; a changed hash resets it |
| `RolloutStatus.RegularPass` | pkg/reconciler/vertex/controller.go:272-282 | without a change of hash, or the first time, a pass that does not wait brings all desired replicas to the hash |
| `RolloutStatus.OvertakenCompletes` | pkg/reconciler/vertex/controller.go:283-294 | scaling down to what is updated completes the rollout iff all of it is ready; an unsupported strategy does not move |
| `RolloutStatus.RolloutInvariant` | pkg/reconciler/vertex/controller.go:226-315 | over every run of error-free passes the record never holds a full count mid-rollout, so every pass looks at readiness |
| `RolloutStatus.FullCountOrigin` | pkg/reconciler/vertex/controller.go:251-269 | over every run: a full count in the record was made by a pass that then failed, with no finished pass since |
| `RolloutStatus.AdvanceNeedsFullCount` | pkg/reconciler/vertex/controller.go:246-315 | over every run: a pass moves past updated replicas only if all were counted ready, in that pass or in a failed one just before |
| `RolloutStatus.StaleCountAdvances` | pkg/reconciler/vertex/controller.go:251-311 | a run in which a pass moves on after a full count of an earlier, failed pass, whatever it would count itself |
| `RolloutStatus.RolloutCompletes` | pkg/reconciler/vertex/controller.go:226-315 | over every run, slow pods and failed passes included: one batch per pass that moved, and the new hash is current iff the batches cover desired |
| `Lifecycle.PassCreates` | pkg/reconciler/pipeline/controller.go:366-417 | the vertices become the specified ones; new ones in the wanted phase, without replicas iff a pause is wanted or under way |
| `Lifecycle.PassBeginsPause` | pkg/reconciler/pipeline/controller.go:1034-1055 | beginning a pause pauses the sources and notes the time, in whole seconds; the phase is Pausing unless the annotation's patch reloads the recorded one |
| `Lifecycle.PassContinuesPause` | pkg/reconciler/pipeline/controller.go:1056-1099 | the pause ends, with everything paused, iff a drain is observed or the grace period is over; until then nothing changes; the drained flag says which |
| `Lifecycle.PassKeepsPaused` | pkg/reconciler/pipeline/controller.go:209-236 | a paused pipeline wanted paused stays as it is |
| `Lifecycle.PassRuns` | pkg/reconciler/pipeline/controller.go:1005-1032 | wanting it running resumes every vertex iff a pause was under way, those paused forgetting their replicas iff slow, and leaves nothing of the pause |
| `Lifecycle.FailedPassIsPartial` | pkg/reconciler/pipeline/controller.go:126-236 | after a failed pass each vertex is as before or as the pass would have left it |
| `Lifecycle.FailedPassRecords` | pkg/reconciler/pipeline/controller.go:126-236 | annotation, drained flag and phase after a failed pass, by where it failed |
| `Lifecycle.PausedOnlyAfterDrainOrDeadline` | pkg/reconciler/pipeline/controller.go:1034-1099 | any pass, failed or not, pauses a non-source vertex only with the annotation standing and on an observed drain or past the deadline |
| `Lifecycle.DrainedOnlyIfSeen` | pkg/reconciler/pipeline/controller.go:1061-1097 | the drained flag rises only in a successful pass that observed a drain and falls only on a successful resume |
| `Lifecycle.PassInv` | pkg/reconciler/pipeline/controller.go:209-257 | status Paused implies all vertices paused; the annotation implies all sources paused |
| `Lifecycle.RunKeepsInv` | pkg/reconciler/pipeline/controller.go:209-257 | the same over every run of passes |
| `Lifecycle.StepKeepsIff` | pkg/reconciler/pipeline/controller.go:79-236 | one pass, failed anywhere or its status lost, keeps the lifecycle invariant iff it does not break a resume after removing the annotation |
| `Lifecycle.HalfResumedStep` | pkg/reconciler/pipeline/controller.go:79-236 | from a half-resumed pipeline: a recorded resume, or a recorded failure before the lifecycle decision, restores the invariant; every other pass leaves it, and one that wants pausing changes nothing |
| `Lifecycle.RunKeepsIff` | pkg/reconciler/pipeline/controller.go:79-236 | over every run with failing passes and lost writes: the invariant holds at the end iff no pass broke a resume without a later one letting the pipeline go |
| `Lifecycle.PausedButRunning` | pkg/reconciler/pipeline/controller.go:1005-1032 | a failed resume after which the status says Paused while a vertex runs, through any number of pausing passes |
| `Lifecycle.BreakResume` | pkg/reconciler/pipeline/controller.go:950-1032 | the controller on two paused vertices and a cluster that fails the second patch only: exactly one is resumed, and the state is that of the failed pass |
| `Lifecycle.BreakThenPause` | pkg/reconciler/pipeline/controller.go:950-1099 | that run goes on with any number of answered passes that want it paused: the status says Paused while a vertex runs |
| `Lifecycle.BreakThenRun` | pkg/reconciler/pipeline/controller.go:79-1032 | or with a pass that finds the specification invalid and then answered passes that want it running: the status says Running while a vertex stays paused |
| `Lifecycle.StrandsIff` | pkg/reconciler/pipeline/controller.go:79-257 | exactly which passes leave vertices paused with nothing recorded about a pause; error-free ones never do |
| `Lifecycle.StrandedOrigin` | pkg/reconciler/pipeline/controller.go:79-257 | over every run: a stranded pipeline was stranded by such a pass |
| `Lifecycle.StrandedStays` | pkg/reconciler/pipeline/controller.go:209-257 | it stays stranded, reported running, through any passes that want it running |
| `Lifecycle.RunningButPaused` | pkg/reconciler/pipeline/controller.go:1005-1032 | a run after which the status says Running while a vertex stays paused |
| `Lifecycle.DeadlineForcesPause` | pkg/reconciler/pipeline/controller.go:1034-1099 | over every run, failed passes included: once the grace period of a pause still wanted is over, every pass without an error ends Paused with all vertices paused, whatever was answered about pods and buffers |
| `Lifecycle.DrainEndsPause` | pkg/reconciler/pipeline/controller.go:1061-1099 | over every run, failed passes included: a later pass of a pause still wanted that sees no source pods and drained buffers and has no error ends Paused with all vertices paused, and marked drained unless already paused |
| `Lifecycle.AnnotationOrigin` | pkg/reconciler/pipeline/controller.go:1042-1055 | over every run, failed passes included: the annotation is the time of the pass that began this pause, in whole seconds, and no pass ended the pause since |
| `Lifecycle.AnnotationStays` | pkg/reconciler/pipeline/controller.go:1042-1055 | over every run, failed passes included: while pausing stays wanted the annotation stays that of the pass that began it |
| `Lifecycle.DrainedOrigin` | pkg/reconciler/pipeline/controller.go:1061-1097 | over every run: a pipeline marked drained was observed drained in a successful pass; without failures it has been wanted paused ever since |
| `Lifecycle.PauseOrder` | pkg/reconciler/pipeline/controller.go:1034-1099 | over every run, failed passes included: a non-source vertex is paused only in a pause begun by an earlier pass and not ended since, on an observed drain or with the grace period over; sources are paused by then unless a failed pass created one |
| `Lifecycle.RunPausesSources` | pkg/reconciler/pipeline/controller.go:1034-1055 | over every run in which no failed pass creates a vertex: the annotation implies all sources paused |
| `Lifecycle.PausingKeepsVertices` | pkg/reconciler/pipeline/controller.go:1114-1134 | pausing passes change nothing of a vertex but its desired phase |
| `Lifecycle.PauseResumeRoundTrip` | pkg/reconciler/pipeline/controller.go:950-1099 | pausing for any number of passes and resuming gives back the vertices exactly, except that the slow strategy makes those that were paused forget their replicas |
| `Lifecycle.Reconciler.PauseVertices` | pkg/reconciler/pipeline/controller.go:1114-1134 | pauses exactly the matching vertices, in any order, with one call for each after the listing; if a call fails it stops there, and exactly the vertices whose patch was answered are paused |
| `Lifecycle.Reconciler.ResumeVertices` | pkg/reconciler/pipeline/controller.go:950-1003 | resumes exactly the paused vertices, forgetting replicas iff slow, with one call for each after the listing; if a call fails it stops there, and exactly the vertices whose patch was answered are resumed |
| `Lifecycle.Reconciler.PausePipeline` | pkg/reconciler/pipeline/controller.go:1034-1099 | performs the pause step, or leaves exactly the state its failure point implies; the calls made are those up to that point; fails iff a call failed, which a failed question about pods or buffers is not; otherwise, past the deadline, it ends Paused with all vertices paused |
| `Lifecycle.Reconciler.ResumePipeline` | pkg/reconciler/pipeline/controller.go:1005-1032 | performs the resume step, or leaves annotation, phase and vertices exactly as its failure point implies; the calls made are those up to that point; fails iff a call failed |
| `Lifecycle.Reconciler.SyncVertices` | pkg/reconciler/pipeline/controller.go:366-417 | creates missing and then removes stale vertices, with one call for each; if a call fails it stops there, and exactly those whose call was answered were created or removed |
| `Lifecycle.Reconciler.CreateMissing` | pkg/reconciler/pipeline/controller.go:292-404 | lists the vertices and creates the missing ones, exactly those whose call was answered if one fails |
| `Lifecycle.Reconciler.RemoveStale` | pkg/reconciler/pipeline/controller.go:405-417 | removes the stale ones, exactly those whose call was answered if one fails |
| `Lifecycle.Reconciler.Adopt` | pkg/reconciler/pipeline/controller.go:190-214 | the part of a pass before pausing or resuming: leaves `Adopted`, or what its failure point implies |
| `Lifecycle.Reconciler.Reconcile` | pkg/reconciler/pipeline/controller.go:126-236 | an error-free pass is `Pass`; one that fails, from validation to the last patch, is `FailedPass` at that point; it fails iff the specification is invalid or a call failed, whatever the drain query answers; which call failed says where, as the number of calls up to each point is given |
| `Lifecycle.Reconciler.ReconcileAndSave` | pkg/reconciler/pipeline/controller.go:79-123 | a pass and its status write, which may be lost, leave exactly `Step`; it succeeds iff the specification is valid and no call failed, and then, past the deadline of a pause, ends Paused with all vertices paused |
| `Cookies.UnescapeEscape` | server/common/cookie.go:78-79 | unescaping undoes escaping on every byte string |
| `Cookies.EscapeCharMeans` | server/common/cookie.go:78-79 | what escaping does to each byte |
| `Cookies.HexDigits` | server/common/cookie.go:78-79 | the sixteen digits, read in either case |
| `Cookies.UnescapeFailsIff` | server/common/cookie.go:78-79 | unescaping fails iff two hexadecimal digits do not follow some percent sign; the value then counts as empty |
| `Cookies.UnescapePlain` | server/common/cookie.go:78-79 | without percent signs, unescaping only turns plus signs into spaces |
| `Cookies.UnescapePercent` | server/common/cookie.go:78-79 | a percent sign and two hexadecimal digits stand for one byte |
| `Cookies.ChunksOfValue` | server/common/cookie.go:41-67 | the chunks concatenate to the value, each non-empty and within the limit |
| `Cookies.CeilingCountsChunks` | server/common/cookie.go:32-44 | the announced count equals the number of chunks written, for every length |
| `Cookies.CeilingSurvivesRounding` | server/common/cookie.go:32-44 | float64 rounding of the quotient does not change the count, below 2^53 bytes |
| `Cookies.SplitCookie` | server/common/cookie.go:41-67 | writes exactly one cookie per chunk, the first announcing their number |
| `Cookies.WireForm` | server/common/cookie.go:41-67 | what is written, letter by letter: names, count, colon, and which bytes of the value each cookie holds |
| `Cookies.MakeCookieMetadata` | server/common/cookie.go:31-37 | refuses exactly the values longer than ten chunks hold |
| `Cookies.SplitCuts` | server/common/cookie.go:91-100 | splitting at colons and joining the tail cuts at the first colon |
| `Cookies.JoinCookies` | server/common/cookie.go:72-106 | reads the last cookie of each name; missing key, missing colon and bad count are the only errors |
| `Cookies.LatestMeans` | server/common/cookie.go:73-80 | the last cookie of a name counts; there is none iff no cookie has the name |
| `Cookies.JoinedFails` | server/common/cookie.go:86-105 | each of the three errors iff its cause; a missing later chunk is skipped |
| `Cookies.JoinedMeans` | server/common/cookie.go:91-105 | the value joined from any jar: what follows the first cookie's colon and then the announced number of chunks in order |
| `Cookies.AtoiMeans` | server/common/cookie.go:92-95 | an announced count is digits with an optional sign, within 64 bits |
| `Cookies.AtoiRejects` | server/common/cookie.go:92-95 | nothing else is a count |
| `Cookies.RoundTrip` | server/common/cookie.go:31-106 | joining gives back every non-empty value, colons included, next to any stale cookies; the empty value is not written |
| `Cookies.RoundTripAmongStale` | server/common/cookie.go:31-106 | the written cookies in any order, with any cookies of other names around them, join to the value |
| `Cookies.StaleIsOther` | server/common/cookie.go:41-106 | chunks a longer value left behind, and cookies of other keys, have other names than those written |
| `Cookies.FitsExactly` | server/common/cookie.go:12-67 | an escaped cookie with its name and attributes fits 4096 bytes iff twice its enlarged bytes fit what the rest leaves |
| `Cookies.HeadroomSuffices` | server/common/cookie.go:12-67 | it fits if key, attributes and twice the enlarged bytes stay within 493 bytes |
| `Cookies.ColonsDoNotFit` | server/common/cookie.go:41-67 | a full chunk of colons does not fit, whatever the attributes |
| `UniqueStrings.IndexedMeans` | pkg/shared/util/uniq_str_list.go:25-31 | the index keys are exactly the list's strings, which do not repeat |
| `UniqueStrings.WithoutMeans` | pkg/shared/util/uniq_str_list.go:85-92 | taking out a string that is not there changes nothing; otherwise its first occurrence goes and the rest stays in order |
| `UniqueStrings.KeptInOrder` | pkg/shared/util/uniq_str_list.go:104-112 | surviving elements keep their relative order |
| `UniqueStrings.PushedAllAppends` | pkg/shared/util/uniq_str_list.go:113-117 | pushing values appends the new ones, each once, by first occurrence |
| `UniqueStrings.ReplaceMeaning` | pkg/shared/util/uniq_str_list.go:96-118 | exactly the given values, without repetition, survivors first; replacing again changes nothing |
| `UniqueStrings.UniqueStringList.PushBack` | pkg/shared/util/uniq_str_list.go:42-48 | appends unless present; the index stays exact |
| `UniqueStrings.UniqueStringList.MoveToBack` | pkg/shared/util/uniq_str_list.go:51-57 | moves a present string to the end, nothing else |
| `UniqueStrings.UniqueStringList.Remove` | pkg/shared/util/uniq_str_list.go:85-92 | removes the string from list and index together |
| `UniqueStrings.UniqueStringList.Contains` | pkg/shared/util/uniq_str_list.go:77-82 | answers whether the string is in the list |
| `UniqueStrings.UniqueStringList.Replace` | pkg/shared/util/uniq_str_list.go:96-118 | the list becomes `Replaced` of the old one |
| `UniqueStrings.UniqueStringList.Prune` | pkg/shared/util/uniq_str_list.go:104-112 | walking the live list and unlinking on the way leaves exactly the strings of the snapshot |

## Left out

- Clients and wire formats (gRPC, NATS, Kafka, SQS, HTTP, protobuf, Kubernetes API), UI, CLI, generators, metrics, logging, tracing: I/O and plumbing; their answers are inputs of the models.
- That upstream replies arrive and that handle owners give their handles up: these are outside the code. What the code itself contributes to the drain ending is in `SourceProgress`.
- Handle and semaphore operations are single atomic steps; memory ordering, panics and overflow of the machine-word reference count are not modelled.
- Handles made from a bare message without an upstream channel (rust/numaflow-core/src/message.rs:284-297): their disposition goes nowhere.
- Read-loop details that do not touch permits, tracker or tasks: rate limiter internals (a label), bypass router, watermark publishing, pending counts.
- Batch mode's immediate return on a tracker error other than a duplicate skips the drain (state `Aborted`); the drain theorems speak of the stopped state.
- The tracker's lowest event time and idle offsets: further map reads and writes of the same kind.
- The retry controller's own schedule and user code are oracles; one script of attempts per message.
- The futures of a transform batch are run one after the other; which of them had finished when the batch was given up is the parameter `finished`.
- Persistent volume claims, services, scaling and the mono vertex's spec.replicas synchronisation: reconcile plumbing around the rollout.
- Changes of the desired count or a rollback during a rollout, for the theorems over runs only; a single pass is specified from any status.
- The pipeline's per-field validators and cycles no source reaches, which the code does not look at.
- Lifecycle: building vertices from the specification beyond presence, role, phase and replicas, and updating a vertex whose specification changed; a malformed annotation; an object deleted between list and patch; the calls for all resources other than vertices are one call. `RunKeepsIff` and the theorems on stranded pipelines keep the set of vertices fixed; `RunKeepsInv` and `PauseResumeRoundTrip` speak of error-free passes.
- The deletion branch of the pipeline reconciler (pkg/reconciler/pipeline/controller.go:128-166): finalizers and the clean-up job of a pipeline being deleted; the model is of pipelines that are not.
- Cookies: attributes, and what a browser does beyond returning names and escaped values.
- UniqueStrings: `Front`, `Length` and `ToString` are plain reads; the list's links are its sequence of elements, so pointer updates inside container/list are not modelled; the lock makes each method one step.
