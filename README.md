# Fuel block committer: block watcher, commit listener and error classification

This project models, in Dafny, the decision logic at the heart of the Fuel block committer:

- **Block watcher** (`BlockWatcherService`). On each tick it reads the latest Fuel block and records its height in the `latest_fuel_block` gauge. It rounds that height down to the last multiple of the non-zero commit interval (the epoch boundary) and asks the store whether the latest submission already reaches that boundary. If not, it sends the boundary block on the hand-off channel. It reuses the block it already has when the latest block sits on the boundary, and otherwise fetches the block at the boundary. The class `BlockWatcher` holds the gauge; the channel (`Handoff.Sender`) holds the queued blocks. `Tick` is the pure description of one tick, and `Run` is proved to match it.
- **Commit listener** (`CommitListenerService`). It starts at the submittal height of the latest submission, or 0 when there is none. It pulls confirmation events in order. For each one it marks the submission with that hash completed in the store, then sets the `latest_committed_block` gauge. A failing event is only logged. The loop stops when the stream ends or cancellation fires. `Reconcile` folds the handled items over the store and gauge, and `Run` is proved to match it.
- **Error classification** (`CommitterErrors`). Every lower-level error is mapped onto `Network`, `Storage` or `Other`, and its message is kept.

The chain reader, the L1 contract, the store and the channel are in-memory stand-ins:

- `FuelPort.Api` holds the answers a node gives.
- `L1Port.Contract` maps each starting height to the stream items pulled from it, or to the error raised while establishing the stream.
- `StoragePort.SubmissionStore` is a map from block hash to submission, with an optional fault that makes every call fail, and a set of hashes for which every completion write fails, including a repeated event's, while writes for other hashes succeed.
- `Handoff.Sender` is a queue plus a flag telling whether the receiver is still alive.

The test scenarios of both services are reproduced as methods in `BlockWatcherExamples` and `CommitListenerExamples`.

Decisions:

- The store keeps the invariant that no two submissions share a block height. This makes "the latest submission" well defined, so the listener's starting height is a function of the store.
- The listener does not check whether a confirmed submission is already completed. It calls `set_submission_completed` regardless. The stand-in store treats a repeated completion as a success that leaves the record completed.

## Model

| member | source | states |
|---|---|---|
| `BlockWatcherService.EpochHeight` | packages/services/src/block_watcher.rs:83-85 | the epoch boundary is at most the height, is a multiple of the interval, and lies less than one interval below the height (so no underflow and no division by zero) |
| `BlockWatcherService.EpochIsGreatestMultiple` | packages/services/src/block_watcher.rs:83-85 | every multiple of the interval not above the height is at most the epoch boundary |
| `BlockWatcherService.BlockWatcher.CurrentEpochBlockHeight` | packages/services/src/block_watcher.rs:83-85 | the watcher's boundary is the greatest multiple of its commit interval not above the given height |
| `BlockWatcherService.StaleIffCovered` | packages/services/src/block_watcher.rs:75-81 | "latest submitted height is at or above the boundary" holds exactly when some stored submission is at or above it |
| `BlockWatcherService.BlockWatcher.FetchLatestBlock` | packages/services/src/block_watcher.rs:65-73 | on success, returns the node's latest block and sets the gauge to its height; on a node failure, returns a Network error and leaves the gauge alone |
| `BlockWatcherService.BlockWatcher.LastSubmittedBlockHeight` | packages/services/src/block_watcher.rs:87-93 | returns the height of the highest stored block, None for an empty store, or the store's failure as a Storage error |
| `BlockWatcherService.BlockWatcher.CheckIfStale` | packages/services/src/block_watcher.rs:75-81 | returns false for an empty store, and otherwise whether some stored submission reaches the boundary; a store failure becomes a Storage error |
| `BlockWatcherService.BlockWatcher.FetchBlock` | packages/services/src/block_watcher.rs:95-104 | returns the node's block at the height; a missing block is an Other error naming the height; a node failure is a Network error; a consistent node's block has that height |
| `BlockWatcherService.BlockWatcher.Run` | packages/services/src/block_watcher.rs:113-133 | the result, the gauge and the channel after a tick are exactly those `Tick` gives; at most one block is appended to the channel |
| `BlockWatcherService.TickRecordsLatestHeight` | packages/services/src/block_watcher.rs:65-73 | whenever the latest block is read, the gauge is set from it, whether or not anything is sent; a node failure sends nothing and is a Network error |
| `BlockWatcherService.TickSkipsSubmittedEpoch` | packages/services/src/block_watcher.rs:117-119 | when the latest submission reaches the boundary, the tick succeeds and sends nothing |
| `BlockWatcherService.TickEmitsEpochBlock` | packages/services/src/block_watcher.rs:121-132 | a sent block means success, a live receiver and an unsubmitted epoch; it is the latest block when that is on the boundary, and otherwise the node's block at the boundary, which has the boundary's height when the node answers height queries consistently |
| `BlockWatcherService.TickEmitsWhenDue` | packages/services/src/block_watcher.rs:117-132 | an unsubmitted epoch whose block is available is always sent to a live receiver |
| `BlockWatcherService.TickFailsOnMissingBlock` | packages/services/src/block_watcher.rs:95-104 | a boundary block the node does not have fails the tick with the Other error naming the boundary, and nothing is sent |
| `BlockWatcherService.TickFailsOnClosedChannel` | packages/services/src/block_watcher.rs:127-130 | a block that would be sent to a dropped receiver becomes an Other error instead |
| `BlockWatcherService.TickErrorClasses` | packages/services/src/block_watcher.rs:95-133 | a failed read of the latest block, and a failed read of the boundary block when one is needed, are Network errors carrying the node's message; store failures are Storage errors; no other failure is either |
| `BlockWatcherService.NoResubmissionBelowStored` | packages/services/src/block_watcher.rs:75-85 | once a submission at or above x is stored, no tick whose boundary is at most x sends anything |
| `Handoff.Sender.Send` | packages/services/src/block_watcher.rs:127-130 | a live receiver gets the block appended; a dropped one makes the send fail with "channel closed" and nothing is queued |
| `Types.DecimalString` | packages/services/src/block_watcher.rs:100-102 | the height is rendered as a non-empty string of decimal digits, without a leading zero, whose value (`DigitsValue`) is the height |
| `BlockWatcherExamples.DbWithSubmissions` | packages/services/src/block_watcher.rs:267-277 | the store holds exactly one pending submission, under its own hash, for each given height |
| `BlockWatcherExamples.WillFetchAndPropagateMissedBlock` | packages/services/src/block_watcher.rs:148-170 | interval 2, submissions {0, 2}, latest 5: block 4 is sent |
| `BlockWatcherExamples.WillNotReattemptCommittingMissedBlock` | packages/services/src/block_watcher.rs:172-192 | interval 2, submissions {0, 2, 4}, latest 5: nothing is sent |
| `BlockWatcherExamples.WillNotReattemptCommittingLatestBlock` | packages/services/src/block_watcher.rs:194-213 | interval 2, submissions {0, 2, 4, 6}, latest 6: nothing is sent |
| `BlockWatcherExamples.PropagatesBlockIfEpochReached` | packages/services/src/block_watcher.rs:215-236 | interval 2, submissions {0, 2}, latest 4: block 4 is sent by a node that answers no height query, so no second read happens |
| `BlockWatcherExamples.UpdatesBlockMetricRegardlessIfBlockIsPublished` | packages/services/src/block_watcher.rs:238-265 | interval 2, submissions {0, 2, 4}, latest 5, receiver dropped: the run succeeds, so no send was attempted, and the gauge reads 5 |
| `BlockWatcherExamples.FailsWhenEpochBlockIsMissing` | packages/services/src/block_watcher.rs:95-104 | interval 2, submissions {0, 2}, latest 5, no block 4: the run fails with an Other error and sends nothing |
| `StoragePort.SubmissionStore.SubmissionWLatestBlock` | packages/services/src/block_watcher.rs:88-92 | returns the submission with the highest block (None for an empty store), or the store's failure |
| `StoragePort.SubmissionStore.SetSubmissionCompleted` | packages/services/src/commit_listener.rs:53-56 | sets only the completed flag of the record with that hash and returns it; an unreachable store, a rejected write or an unknown hash fails and changes nothing |
| `StoragePort.MarkCompleted` | packages/services/src/commit_listener.rs:53-56 | the record under the hash becomes completed with every other field kept; every other record and the key set are unchanged |
| `L1Port.Error.ToString` | packages/ports/src/ports/l1.rs:5-11 | an Other error renders as its message; a Network error renders as a prefix followed by its message |
| `CommitListenerService.StartHeight` | packages/services/src/commit_listener.rs:39-45 | 0 for an empty store, and otherwise the submittal height of a submission whose block is the highest stored |
| `CommitListenerService.CommitListener.DetermineStartingL1Height` | packages/services/src/commit_listener.rs:39-45 | returns the start height, or the store's failure as a Storage error |
| `CommitListenerService.Step` | packages/services/src/commit_listener.rs:47-63 | the key set is kept; each record keeps every field but `completed`, which ends true exactly when it was true or the item is an event for its hash whose write is accepted; the gauge becomes the completed record's block height, and is otherwise unchanged |
| `CommitListenerService.CommitListener.HandleBlockCommitted` | packages/services/src/commit_listener.rs:47-63 | for a reachable store, store and gauge change as `Step` says and the call fails exactly when the hash is not stored or its write is rejected, and then the gauge is untouched; an unreachable store fails the call with a Storage error and changes nothing |
| `CommitListenerService.Pulled` | packages/services/src/commit_listener.rs:81-89 | items are pulled until the stream ends or the token has fired, and never past either |
| `CommitListenerService.CommitListener.Run` | packages/services/src/commit_listener.rs:78-92 | a store failure or a stream that cannot be established is returned before any event is handled and changes nothing; otherwise the run returns Ok with store and gauge equal to the items pulled before cancellation, handled in order, with rejected writes leaving their record pending |
| `CommitListenerService.ReconcileOnlyCompletes` | packages/services/src/commit_listener.rs:53-56 | handling events keeps the set of records, changes nothing in a record but its completed flag, and never resets that flag to false |
| `CommitListenerService.ReconcileCompletedIff` | packages/services/src/commit_listener.rs:47-63 | a record ends up completed exactly when it already was, or some handled event carried its hash and its write is accepted |
| `CommitListenerService.ReconcileLeavesOthers` | packages/services/src/commit_listener.rs:53-56 | a record whose hash no handled event carried, or whose write is rejected, is left exactly as it was |
| `CommitListenerService.ReconcileWithoutConfirmation` | packages/services/src/commit_listener.rs:65-69 | a stream in which nothing completes a stored submission leaves store and gauge unchanged |
| `CommitListenerService.GaugeFollowsLastConfirmation` | packages/services/src/commit_listener.rs:58-60 | the gauge ends at the block height of the submission completed by the last completing item |
| `CommitListenerService.UnconfirmedItemIsSkipped` | packages/services/src/commit_listener.rs:85-88 | an item that completes nothing (an error item, an unknown hash or a rejected write) can be dropped from the stream without changing the outcome, so it never stops later events |
| `CommitListenerExamples.DbWithSubmission` | packages/services/src/commit_listener.rs:241-250 | the store holds just the given submission |
| `CommitListenerExamples.ListenerWillUpdateStorageIfEventIsEmitted` | packages/services/src/commit_listener.rs:139-165 | after an event for a pending submission, the store's latest submission is that submission, completed |
| `CommitListenerExamples.ListenerWillUpdateMetricsIfEventIsEmitted` | packages/services/src/commit_listener.rs:167-204 | after an event for a pending submission, the gauge reads its block height |
| `CommitListenerExamples.ErrorWhileHandlingEventWillNotCloseStream` | packages/services/src/commit_listener.rs:206-239 | an event for an unknown hash followed by one for the stored submission: the run returns Ok and the submission is completed with every other field kept |
| `CommitListenerExamples.RejectedWriteWillNotCloseStream` | packages/services/src/commit_listener.rs:85-88 | a rejected write for the first confirmed submission is only logged: that record stays pending, and the next confirmed submission is completed and sets the gauge |
| `CommitListenerExamples.CancelledListenerHandlesNothing` | packages/services/src/commit_listener.rs:87-91 | a token that has already fired ends the run with Ok before any event is handled |
| `CommitListenerExamples.UnreachableStoreFailsRun` | packages/services/src/commit_listener.rs:78-79 | a store that cannot be read fails the run with a Storage error and nothing changes |
| `CommitterErrors.From` | committer/src/errors.rs:14-69 | only chain network failures become Network, only store failures become Storage, all others become Other, and the message is kept |
| `CommitterErrors.ClassificationThroughServicesAgrees` | committer/src/errors.rs:38-63 | an L1, Fuel or storage error converted by the services and then by the committer gives the same error as converting it directly |

## Left out

- Metrics plumbing: gauge construction, registration and the Prometheus registry. Each gauge is a plain integer field, starting at 0 like a fresh `IntGauge`. The `i64::from` conversion cannot overflow for a `u32` height.
- Asynchrony. The channel's capacity and the back-pressure of a blocking send are not modelled: the channel is an unbounded queue plus a receiver-alive flag. The only send failure is a dropped receiver. Nothing else writes the store during a run: the submitter's concurrent inserts are not modelled.
- The cancellation token is a fixed count of items after which it fires, checked before each pull. The model checks it only between items. In the source, `take_until` polls the token ahead of the `and_then` stream, so a token that fires while `handle_block_committed` is awaiting the store drops that write partway through. The model does not capture this. The potentially unbounded event stream is the finite sequence of items the listener gets to pull.
- `log_if_error`: it only writes a log line. The model drops the error (`Run` in `CommitListenerService`).
- The Postgres store and the random and mock test scaffolding. The store is an in-memory map. The invariant of unique block heights is an assumption of this model; the database code that would enforce it is not part of this model.
- `services::Error` and its `From` conversions live in the services crate's `lib.rs`, which is not part of this model. `ServicesError` assumes they mirror the committer's: a node failure is Network, a store failure is Storage, an L1 network failure is Network, and any other L1 failure is Other.
- `L1Height` is an unbounded natural number. The range check in `l1_height.rs` and its conversion into an L1 error are not part of this model: nothing in the services produces an invalid height.
- The storage error is reduced to its rendered message. The stand-in store's message for an unknown hash is its own.
- `Contract::submit`, `Api::get_block_number`, `Api::balance` and the `commit_height` field: the logic modelled here does not use them.
- The `Display` strings of the committer's `Error` and the actix `ResponseError` impl, which are presentation only.
