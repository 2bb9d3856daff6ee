# Verified models of the Determined platform's coordination code

This project models the parts of the Determined training platform where correctness depends on
many small steps fitting together, and proves what those parts are for. Everything is stated for
all inputs, all interleavings and all reachable states; there are no bounds on the number of
workers, rounds, clients, trials, messages or nesting depth.

| module | what it models |
|---|---|
| `Ipc`, `GatherOutcomes`, `TrialController` | the serial-numbered broadcast/gather endpoints of the training processes, and the barrier and all-gather built on them, as classes with mutable counters; exactly how a gather ends |
| `AllGather`, `Tally`, `AllGatherTheorems`, `FlaggedRounds` | one chief and any number of workers as a step relation over per-worker FIFO channels; agreement, barrier safety, synchrony, deadlock freedom and termination; exactly what an exception marker breaks |
| `OneSidedBarrier` | the timed one-sided barrier and its polling budget |
| `RWLock`, `RWLockTheorems`, `RWLockRoles`, `RWLockGrants` | the lock server as a step relation, with the write guard as a parameter |
| `RWCoordinator` | the same server with two maps that alias heap objects, refining `RWLock` |
| `TrialsSample`, `TrialsSampleTheorems`, `SeriesHistory`, `TrialTenure` | the incremental trial-sample stream; delta replay, and exactly which points are delivered, however points are stored or deleted |
| `ListOrder`, `ListDirection` | the multi-key comparator and its direction, determinism of the unstable sort, page ranges |
| `ContainerActor`, `ContainerRuns`, `ContainerFate`, `ContainerSilence`, `ContainerReports` | the agent's container actor, its mailbox, and every interleaving of docker, checker and signal messages; how it ends and what its parent is told |
| `SchemaTree`, `SchemaPositions`, `SchemaLint`, `SchemaComplaints`, `SchemaKeywords` | the schema linter's mutually recursive traversal and its default and nullability checks: what is said, where, and when nothing is |
| `FluentRing`, `TrialLogger`, `Metrics` | the log ring buffer, the trial log buffer, metrics transposition |
| `Wrappers` | `Option` and `Result` |

Automatic induction is switched off on every lemma, so each proof is the one that is written down.

## Findings about the code

- **Write guard.** `master/internal/rw_coordinator.go:134` tests `&&` where exclusion needs `||`.
  The guard is a parameter (`AsWritten`, `Intended`). Exclusion and progress are proved for
  `Intended`, and that no wake-up is lost for both. For `AsWritten`, `TwoWriters` and
  `WriterBesideReader` are violating runs, and `AsWrittenExactly` proves that the code keeps
  exclusion throughout a run if and only if every write request of the run finds its resource free.
  The index breaks too: `WriterDisplaced` is a run after which a registered client has no role, and
  `IndexExactly` proves that the index stays consistent if and only if no step serves a waiting
  writer while another writer holds the lock.
- **Dropped exception flag (latent).** `_global_barrier` and `allgather_metrics` ignore the exception
  flag of the gather. Nothing in the repository sends the marker on this channel today: the only
  caller of `send_exception_message` is `harness/determined/exec/worker_process.py:54`, on another
  client, and the server of that client tests the flag
  (`harness/determined/layers/_worker_process.py:246-251`). If a marker were sent,
  `FlagsNeverClear` shows that every later gather is flagged too, because the expected serial stays
  behind; `CompleteExactly` that an answered all-gather is complete if and only if its own gather
  was not flagged; and `BarrierExactly` that the barrier holds throughout a run if and only if the
  chief never answers a flagged gather while some worker has yet to send for that round.
  `DroppedFlagOpensBarrier` is such a run.
- **Deadline arithmetic.** `int(deadline - now) * 1000` truncates to whole seconds before scaling, so
  a poll can give up almost a second before its deadline; `DeadlineHonoured` gives the exact
  condition under which it does not. A deadline of exactly 0.0 is taken for no deadline;
  `PollingBudget` shows this is the only way to break the time budget.
- **32-bit ids (latent).** The trial stream sends ids through `int32`. `DeltaReplay` proves that the
  deltas replay to the snapshots if and only if every id fits in 32 bits, and `WideIdMisreplays` is a
  stream with an id that does not. The id column is a 32-bit `integer`
  (`master/static/migrations/20200401000000_initial.up.sql:429-430`), so the failing side cannot
  occur with the present schema.
- **Late points.** A series is stored by batches and resumed by end time. `ExactlyOnce` proves that
  every copy of a point which becomes visible after a trial's first batch is sent exactly once if
  and only if each round's new points ended after everything seen before; a point that did not is
  never sent during that tenure. `LatePointLost` is a stream with such a point.
- **Rolled-back trials.** After an unexpected failure a trial is restored to its last checkpoint
  (`master/internal/trial.go:1121-1125`), which deletes the steps past it
  (`master/internal/db/postgres.go:1254-1261`) while the stream goes on. The stream has no message
  for a deleted point. `Conservation` proves that sent plus missed points are stored plus
  disappeared points, and `MirrorExactly` that the points sent are the points stored if and only if
  what was missed is what disappeared. `RollbackResends` is a stream in which a batch is sent twice
  and the client keeps the point that is gone.
- **Queued stop.** Stopping an actor posts a message, so messages queued before it are still
  handled. `LateMessagePanics` is a run in which the container actor panics after reporting its
  stop; `LatePanicExactly` gives the exact condition on the mailbox. The reports to the parent are
  proved correct without assuming that a stopped actor handles nothing more.
- **Evicted spec.** `agent/internal/container.go:104` drops the spec that line 138 reads.
  `LogCanKill` proves that a log line can bring the actor down if and only if the container has
  readiness checks and does not log through Fluent, and `CheckerCanKill` that a checker which cannot
  be set up can if and only if there are checks. `SilentExactly` proves that, of the actors their
  parent did not stop itself, exactly those two kinds end without a stop being reported.
- **NaN.** `WeakOrderExactly` proves that over all messages of a type the comparator is a weak order
  if and only if no sort key is a float. Experiment checkpoints can be sorted by the float
  `searcher_metric` (`proto/src/determined/api/v1/experiment.proto:190`).
- **Ties.** `SortExactly` proves that the unstable sort has one possible result if and only if no two
  different messages agree on every key, and `PagesExactly` that under the same condition, and no
  other, the pages of separately sorted requests lose and repeat nothing. The last keys of `master/internal/api_experiment.go:490`
  (trial id, for checkpoints) and `master/internal/api_model.go:51` (last update, for models) do not
  guarantee that condition.
- **Negative limits.** A negative page limit inverts the slice bounds and panics (`PageExact`).
- **Linter message.** The message at `schemas/lint.py:297` lacks the `f` prefix; message texts are
  abstracted to an enumeration here, so the model does not depend on it.

## Assumptions

- PUSH/PULL queues are FIFO per worker and merged arbitrarily; a PUB message reaches exactly the
  workers whose client constructor has returned. What a poll finds, the health check's verdict and
  the clock are parameters.
- A mailbox is FIFO and a closed actor drops what it is sent (`master/pkg/actor/ref.go` and
  `master/pkg/actor/inbox.go`); legal container transitions are those of
  `master/pkg/container/state.go:33-45`.
- The iteration order of a Go map is arbitrary: it is a choice made in each step or round.
- Each round of the trial stream reads one database snapshot. End times are later than the zero time
  and the down-sampler maps the empty series to itself. Nothing is assumed about the order of end
  times, about when points are stored, or about points staying stored.
- An unset timestamp field reads as a nil interface, as `master/internal/api.go:112-119` takes it.
  The protobuf library is not part of this model; if it yields a typed nil pointer instead, those
  cases are not reached and comparing such a field dereferences nil.
- `sort.Slice` returns some permutation in which no element is before an earlier one.

## Model

| member | source | states |
|---|---|---|
| `Ipc.BroadcastServer.constructor` | harness/determined/ipc.py:93-116 | both serials start at 0 |
| `Ipc.BroadcastServer.Broadcast` | harness/determined/ipc.py:132-138 | publishes exactly one message with the current send serial, which then advances |
| `Ipc.BroadcastServer.RecvOne` | harness/determined/ipc.py:163-177 | exactly which objects are accepted, which report an exception, and which raise |
| `Ipc.BroadcastServer.GatherWithPolling` | harness/determined/ipc.py:140-161 | the loop refines `Gather`; the receive serial advances only on an unflagged return |
| `GatherOutcomes.GatherExactly` | harness/determined/ipc.py:140-177 | for every history of polls, how a gather ends: unflagged with the payloads of `n` messages in step, flagged with `None` for the marker, raised, or still polling; stated of the polls alone |
| `GatherOutcomes.AbortsExactly` | harness/determined/ipc.py:147-177 | a gather raises if and only if, with fewer than `n` messages so far and all in step, a health check fails or a message arrives that is neither in step nor the marker |
| `GatherOutcomes.GatherExact` | harness/determined/ipc.py:140-161 | a gather returns a list unflagged if and only if at some point, with no failed health check before, exactly `n` messages in step have arrived and the list is their payloads in order |
| `Ipc.BroadcastClient.constructor` | harness/determined/ipc.py:181-193 | both serials start at 0 |
| `Ipc.BroadcastClient.Send` | harness/determined/ipc.py:205-208 | pushes one message with the current serial, which then advances |
| `Ipc.BroadcastClient.SendExceptionMessage` | harness/determined/ipc.py:210-212 | pushes the exception marker and touches no serial |
| `Ipc.BroadcastClient.Recv` | harness/determined/ipc.py:214-222 | accepts exactly the message with the expected serial, and only then advances |
| `Tally.MarkOne` | harness/determined/ipc.py:147-158 | taking one more worker's anonymous message adds exactly its value to the tally |
| `Tally.MarkedFull` | harness/determined/ipc.py:147-161 | pigeonhole: as many values as workers if and only if one from every worker |
| `TrialController.ChiefStepsAreGather` | harness/determined/ipc.py:146-161 | the chief's single machine steps compose to the gather loop |
| `TrialController.WorkerSendExactly` | harness/determined/_trial_controller.py:311-336 | in the machine a worker sends `[None]` in a barrier and its metrics in an all-gather, with its serial, and nothing else changes |
| `TrialController.ChiefBroadcastExactly` | harness/determined/_trial_controller.py:305-330 | in the machine the chief answers `None` or its metrics followed by the gathered ones, and exactly the subscribed workers get it |
| `TrialController.ChiefController.GlobalBarrier` | harness/determined/_trial_controller.py:301-306 | broadcasts after every gather that returns, flagged or not, and after no other |
| `TrialController.ChiefController.AllgatherMetrics` | harness/determined/_trial_controller.py:321-330 | returns and broadcasts the chief's value followed by the gathered ones |
| `TrialController.WorkerController.GlobalBarrier` | harness/determined/_trial_controller.py:307-314 | one send, then one receive |
| `TrialController.WorkerController.AllgatherMetrics` | harness/determined/_trial_controller.py:331-337 | one send, then one receive whose payload is the result |
| `AllGather.StepInv` | harness/determined/ipc.py:132-222 | every step of chief or worker, failures included, keeps the protocol invariant |
| `AllGather.RunInv` | harness/determined/ipc.py:132-222 | the invariant holds after every run |
| `AllGather.SendInv` | harness/determined/_trial_controller.py:311-314 | a worker's send keeps at most one unread message per worker |
| `AllGather.RaiseInv` | harness/determined/ipc.py:210-212 | an exception marker, sent at any moment, keeps the invariant |
| `AllGather.RecvInv` | harness/determined/ipc.py:214-222 | a worker's receive keeps the invariant |
| `AllGather.RecvTakes` | harness/determined/ipc.py:163-177 | unless it is an exception marker, the message the chief takes is this round's message of a worker it had not heard from |
| `AllGather.ChiefRecvInv` | harness/determined/ipc.py:147-158 | taking any worker's head message keeps the tally of anonymous messages exact |
| `AllGather.GotCount` | harness/determined/ipc.py:147-161 | the gather is full exactly when it holds one message of this round from every worker |
| `AllGather.ChiefGatheredInv` | harness/determined/ipc.py:159-161 | leaving the loop keeps the invariant |
| `AllGather.BroadcastSync` | harness/determined/_trial_controller.py:305-306 | after an unflagged gather the broadcast finds every worker entered and subscribed, and starts the next round in step |
| `AllGather.BroadcastSettled` | harness/determined/_trial_controller.py:326-330 | the broadcast round's result is settled: complete if unflagged so far, with a `None` in it if flagged |
| `AllGather.ChiefBroadcastInv` | harness/determined/_trial_controller.py:326-330 | answering a round keeps the invariant |
| `AllGatherTheorems.Agreement` | harness/determined/_trial_controller.py:317-337 | in every run, failures included, whatever a worker accepted for a round is the chief's result of that round |
| `AllGatherTheorems.Completeness` | harness/determined/_trial_controller.py:326-330 | every round answered before any exception flag is complete: the chief's value and exactly one value per worker |
| `AllGatherTheorems.FlagMeansIncomplete` | harness/determined/_trial_controller.py:326-328 | a flagged all-gather is not complete |
| `AllGatherTheorems.NoRaiseCalm` | harness/determined/ipc.py:140-177 | runs without a raising worker never see an exception, in any queue or flag |
| `AllGatherTheorems.AllGatherAgreement` | harness/determined/_trial_controller.py:317-337 | any two participants hold the same round result, the chief's value followed by a permutation with exactly one value per worker of that very round |
| `AllGatherTheorems.BarrierSafety` | harness/determined/_trial_controller.py:298-315 | nobody has left a round that somebody has not entered, unless a gather up to it was flagged |
| `AllGatherTheorems.BarrierSafetyNoRaise` | harness/determined/_trial_controller.py:298-315 | the same unconditionally in exception-free runs |
| `AllGatherTheorems.DroppedFlagOpensBarrier` | harness/determined/_trial_controller.py:305-306 | a concrete run, with a marker that no present caller sends, in which a flagged barrier opens early |
| `FlaggedRounds.RunMarkers` | harness/determined/ipc.py:140-177 | after every run: per-worker serials strictly increase, a marker is a worker's last message, and once a gather has read one, the messages taken plus the workers that can still offer the expected serial stay below the number of workers |
| `FlaggedRounds.FlagsNeverClear` | harness/determined/ipc.py:155-161 | once a gather is flagged, every later gather is |
| `FlaggedRounds.CompleteExactly` | harness/determined/_trial_controller.py:326-330 | in any mix of barriers and all-gathers, an answered round whose gather was not flagged is complete, and an all-gather to which nobody contributes `None` only then |
| `FlaggedRounds.CompleteByAccident` | harness/determined/_trial_controller.py:326-330 | a run with a flagged and yet complete all-gather, which needs a worker whose contribution is `None` |
| `FlaggedRounds.SafeStep` | harness/determined/_trial_controller.py:305-306 | a step keeps the barrier if and only if it does not answer a flagged gather that some worker has not sent for |
| `FlaggedRounds.BarrierExactly` | harness/determined/_trial_controller.py:298-315 | the barrier holds at every point of a run if and only if no step of it is such an answer |
| `AllGatherTheorems.Synchrony` | harness/determined/ipc.py:132-222 | in every exception-free run no serial check has failed, no queue holds more than one message, and a broadcast finds every worker subscribed |
| `AllGatherTheorems.NextReceiveAccepted` | harness/determined/ipc.py:163-177 | in every exception-free run the next receive at either end passes its serial check |
| `AllGatherTheorems.StepUsesOne` | harness/determined/ipc.py:146-161 | every step but a poll time-out lowers the measure of remaining work by exactly one |
| `AllGatherTheorems.StepsLeftSign` | harness/determined/ipc.py:146-161 | the measure is never negative, and zero exactly when everyone has finished |
| `AllGatherTheorems.MovesBounded` | harness/determined/_trial_controller.py:298-337 | moves made plus steps left is a constant of the program, so every run is finite up to time-outs and a run is finished exactly when it has made them all |
| `AllGatherTheorems.LaggardMoves` | harness/determined/_trial_controller.py:311-314 | a worker that holds the round up can move or be read from |
| `AllGatherTheorems.Progress` | harness/determined/_trial_controller.py:298-337 | no deadlock: everyone has finished, or somebody can take a step that is not a time-out |
| `OneSidedBarrier.Server.ReceiveNonBlocking` | harness/determined/ipc.py:309-320 | returns the message that arrives within the poll's limit, or waits exactly that limit for nothing |
| `OneSidedBarrier.Server.Barrier` | harness/determined/ipc.py:322-346 | returns the messages of the longest served prefix of connections after replying to exactly those; a short result means the next poll expired, a raise that the next message is foreign, a hang that there is no time-out |
| `OneSidedBarrier.TimeoutExactly` | harness/determined/ipc.py:330-337 | no time-out or a zero one does not poll, and a whole number of seconds is waited in full if the clock is read at once |
| `OneSidedBarrier.TruncateExactly` | harness/determined/ipc.py:313 | truncation is toward zero |
| `OneSidedBarrier.MessagesExactly` | harness/determined/ipc.py:342-344 | the messages returned are those of the served connections in order, with one reply each |
| `OneSidedBarrier.EndsOneWay` | harness/determined/ipc.py:322-346 | the peers' behaviour determines the outcome and the number of replies |
| `OneSidedBarrier.WaitedBounded` | harness/determined/ipc.py:330-343 | time spent waiting for served connections stays within the time-out plus 0.1 s each |
| `OneSidedBarrier.CostBounded` | harness/determined/ipc.py:330-343 | so does the total with a last poll that expires or receives a foreign message |
| `OneSidedBarrier.PollingBudget` | harness/determined/ipc.py:309-346 | every run polls for at most the time-out plus 0.1 s per connection if and only if the deadline is not the instant 0.0 |
| `OneSidedBarrier.DeadlineHonoured` | harness/determined/ipc.py:312-315 | a poll catches everything that arrives by the deadline if and only if the time left is a whole number of seconds or at most 0.1 s |
| `RWLock.DrainRestores` | master/internal/rw_coordinator.go:95-151 | serving the queue restores exclusion and wake-up and keeps every member in one role |
| `RWLock.DrainInforms` | master/internal/rw_coordinator.go:110-151 | the grants sent to the clients are those the status records |
| `RWLock.OthersUntouched` | master/internal/rw_coordinator.go:61-93 | changing one resource keeps the invariant of every other |
| `RWLock.RequestInv` | master/internal/rw_coordinator.go:61-93 | a request keeps the invariant |
| `RWLock.ReleaseInv` | master/internal/rw_coordinator.go:153-174 | a release keeps the invariant |
| `RWLock.RunInv` | master/internal/rw_coordinator.go:41-59 | the invariant holds after every run with the intended guard |
| `RWLockTheorems.LockExclusion` | master/internal/rw_coordinator.go:110-151 | in every reachable state a client with a write grant is the only client of its resource with a grant |
| `RWLockTheorems.NoLostWakeup` | master/internal/rw_coordinator.go:95-151 | after every run under either guard: a waiting writer means the lock is held, a waiting reader that a writer holds or waits, an unheld resource has no waiters |
| `RWLockTheorems.IndexConsistency` | master/internal/rw_coordinator.go:71-86 | with the intended guard every registered actor is in exactly one role of its own resource and in none of any other |
| `RWLockGrants.RunUngranted` | master/internal/rw_coordinator.go:61-174 | after every run under either guard, whoever waits is registered with that resource and has not been granted what it waits for |
| `RWLockGrants.GrantsExactly` | master/internal/rw_coordinator.go:110-151 | a step grants the write lock to the one it picks and read locks to all waiting readers unless a writer then holds or waits, and nothing else |
| `RWLockGrants.EitherOrder` | master/internal/rw_coordinator.go:95-108 | serving readers before writers would give the same state and the same grants |
| `RWLockGrants.KeepsWaitingExactly` | master/internal/rw_coordinator.go:130-151 | a step keeps a queued writer waiting if and only if, as the guard is written, the resource has both a writer and a reader, and as it is intended, either |
| `RWLockGrants.ThirdWaits` | master/internal/rw_coordinator.go:134 | with the guard as written, a run in which a third client waits behind a writer beside a reader |
| `RWLockRoles.IndexStep` | master/internal/rw_coordinator.go:130-167 | under either guard a step keeps every registered actor in exactly one role if and only if it does not serve a waiting writer while a writer holds the lock |
| `RWLockRoles.IndexExactly` | master/internal/rw_coordinator.go:71-151 | the same over whole runs |
| `RWLockRoles.WriterDisplaced` | master/internal/rw_coordinator.go:134-140 | with the guard as written, a run after which a registered client is in no role |
| `RWLockTheorems.ReleaseIsLocal` | master/internal/rw_coordinator.go:153-167 | a release removes the actor from every role and changes no other resource or registration |
| `RWLockTheorems.WriterPreference` | master/internal/rw_coordinator.go:114-125 | a step that grants a read lock leaves no writer holding or waiting |
| `RWLockTheorems.PlacedShrinks` | master/internal/rw_coordinator.go:153-167 | registered actors and releases of a resource add up while nobody new asks for it |
| `RWLockTheorems.WaiterServed` | master/internal/rw_coordinator.go:95-174 | with no new requests for its resource every waiter holds the lock after at most as many releases as there are other registered actors, whatever is chosen |
| `RWLockTheorems.GrantStays` | master/internal/rw_coordinator.go:153-167 | under either guard only its own release takes a grant away |
| `RWLockTheorems.TwoWriters` | master/internal/rw_coordinator.go:134 | with the guard as written, a run with two writers holding |
| `RWLockTheorems.WriterBesideReader` | master/internal/rw_coordinator.go:134 | with the guard as written, a run with a writer beside a reader |
| `RWLockTheorems.PoliteStep` | master/internal/rw_coordinator.go:130-151 | while no writer waits, a step that intrudes on nobody makes the same choices under both guards |
| `RWLockTheorems.IntrusionBreaks` | master/internal/rw_coordinator.go:130-151 | a write request that finds its resource held breaks exclusion at once |
| `RWLockTheorems.AsWrittenExactly` | master/internal/rw_coordinator.go:130-151 | the guard as written keeps exclusion throughout a run if and only if every write request of the run finds its resource free |
| `RWCoordinator.Coordinator.ProcessReadLockRequests` | master/internal/rw_coordinator.go:110-128 | on the shared object: every waiting reader is granted, or none if a writer holds or waits |
| `RWCoordinator.Coordinator.ProcessWriteLockRequests` | master/internal/rw_coordinator.go:130-151 | on the shared object: exactly one waiting writer is granted, unless the guard blocks |
| `RWCoordinator.Coordinator.ProcessWaitingRequests` | master/internal/rw_coordinator.go:95-108 | on the shared object: writers first, then readers |
| `RWCoordinator.Coordinator.ProcessResourceRequest` | master/internal/rw_coordinator.go:61-93 | refines the request step; the two maps keep sharing one object per resource |
| `RWCoordinator.Coordinator.ProcessResourceRelease` | master/internal/rw_coordinator.go:153-174 | refines the release step, through the object shared by both maps; an unknown actor changes nothing |
| `RWCoordinator.Coordinator.Receive` | master/internal/rw_coordinator.go:41-59 | one message is one legal step, and keeps the invariant under the intended guard |
| `TrialsSample.SampleStream.FetchTrialSample` | master/internal/api_experiment.go:788-840 | refines one visit: hyperparameters for new trials, points after the cursor, cursor moved only by a nonempty result, errors leave the cursor alone |
| `TrialsSample.SampleStream.ScanTop` | master/internal/api_experiment.go:895-910 | refines the scan over the top trials, stopping at the first error |
| `TrialsSample.SampleStream.FindDropped` | master/internal/api_experiment.go:911-916 | lists every current trial that was not seen exactly once and drops exactly their cursors |
| `TrialsSample.SampleStream.Forget` | master/internal/api_experiment.go:917-920 | deletes exactly the demoted ids, as read back from their 32-bit form |
| `TrialsSample.SampleStream.NextRound` | master/internal/api_experiment.go:881-928 | a whole iteration of the loop refines one round, for some iteration order of the map |
| `TrialsSampleTheorems.ScanEntries` | master/internal/api_experiment.go:798-805 | one entry per listed trial, with exactly the stored hyperparameters on promotion and none otherwise; the promoted ids are those of the entries that carry them, in order; cursors only for current or listed trials |
| `TrialsSampleTheorems.ScanSucceedsExactly` | master/internal/api_experiment.go:798-823 | a round can be sent if and only if every listed trial has a series and every one that is not current has stored hyperparameters |
| `TrialsSampleTheorems.ScanErrorExactly` | master/internal/api_experiment.go:798-823 | otherwise it fails with the error of the first trial in the way |
| `TrialsSampleTheorems.ResponsesExactly` | master/internal/api_experiment.go:895-924 | every response of a stream has one entry per top trial, with the stored hyperparameters exactly for those that were not top trials in the round before, and announces the same ones as promoted, in order |
| `TrialsSampleTheorems.RoundReplays` | master/internal/api_experiment.go:889-924 | with 32-bit ids, one round's delta turns the last top set into the new one, and cursors exist for current trials only |
| `TrialsSampleTheorems.ReplicaFits` | master/internal/api_experiment.go:904-913 | a client's copy only ever holds 32-bit ids |
| `TrialsSampleTheorems.FittingStream` | master/internal/api_experiment.go:881-924 | with 32-bit ids, folding the deltas of any number of rounds from the empty set gives the last round's top set, which is also what the server remembers |
| `TrialsSampleTheorems.DeltaReplay` | master/internal/api_experiment.go:881-924 | the deltas replay to every round's top set if and only if every id fits in 32 bits |
| `TrialsSampleTheorems.WideIdMisreplays` | master/internal/api_experiment.go:904 | a stream with the id 2^31, whose client believes in the id -2^31 |
| `TrialsSampleTheorems.WideIdNeverForgotten` | master/internal/api_experiment.go:911-920 | when a trial with the id 2^31 is dropped, the server goes on taking it for current, without a cursor |
| `SeriesHistory.QueryConcat` | master/internal/db/postgres_experiments.go:326-371 | a query keeps the order of the series |
| `SeriesHistory.QueryCounts` | master/internal/db/postgres_experiments.go:326-371 | a query returns every copy of a stored point that ended after the cursor and nothing else |
| `SeriesHistory.FetchExactly` | master/internal/api_experiment.go:807-838 | one fetch, whatever was stored or deleted since the last: it sends the points that ended after the cursor, or everything down-sampled if there is none, and moves the cursor to the maximum |
| `SeriesHistory.CursorNext` | master/internal/api_experiment.go:824-827 | the cursor of a history is the latest end time ever seen, deleted points included |
| `SeriesHistory.RoundsAreApart` | master/internal/api_experiment.go:807-838 | what a round sends after the first batch ended after all that earlier rounds sent, so no point is sent twice |
| `SeriesHistory.SentOnceExactly` | master/internal/api_experiment.go:824-838 | of the copies that became visible after the first batch each is sent at most once, and all are if and only if each round's new points ended after everything seen before |
| `SeriesHistory.LateIsNeverSent` | master/internal/api_experiment.go:824-838 | a point that first shows up without having ended after everything seen before is never sent |
| `SeriesHistory.Conservation` | master/internal/api_experiment.go:807-838 | sent plus missed points are stored plus disappeared points |
| `SeriesHistory.MirrorExactly` | master/internal/api_experiment.go:807-838 | without down-sampling the points sent are the points stored if and only if what was missed is what disappeared |
| `SeriesHistory.MirrorCases` | master/internal/api_experiment.go:807-838 | if points never disappear that is so if and only if every round is on time, and if every round is on time if and only if points never disappear |
| `SeriesHistory.InOrderExactly` | master/internal/api_experiment.go:807-838 | for the histories that only grow at the end: the later data is the remainder of the series, in order, if and only if every round is on time |
| `TrialTenure.ScanExactly` | master/internal/api_experiment.go:895-910 | a round sends a listed trial what one fetch sends, however often the list repeats it, and leaves unlisted trials alone |
| `TrialTenure.CursorKept` | master/internal/api_experiment.go:911-916 | demotions do not touch the cursor of a trial that stays listed |
| `TrialTenure.TenureSends` | master/internal/api_experiment.go:881-928 | over any tenure the responses carry the down-sampled first nonempty series and then, from each round, what ended after everything seen before; a re-promoted trial starts over |
| `TrialTenure.ExactlyOnce` | master/internal/api_experiment.go:807-838 | the responses of any tenure: each copy that became visible after the first batch at most once, all of them if and only if every round is on time, a late point never |
| `TrialTenure.EveryHistory` | master/internal/api_experiment.go:881-928 | every history of a series is that of some stream, which sends what the theorems say |
| `TrialTenure.RollbackResends` | master/internal/db/postgres.go:1254-1261 | a stream in which a rolled-back batch is sent twice and the client keeps the deleted point |
| `TrialTenure.LatePointLost` | master/internal/api_experiment.go:824-838 | a stream in which a stored point is never sent |
| `ListOrder.LessLoop` | master/internal/api.go:53-138 | the closure's loop computes the recursive comparison |
| `ListDirection.FieldExactly` | master/internal/api.go:72-135 | the verdict on one field: true before false, numbers and enums by size, strings lexicographically, unset timestamps first and then by seconds and nanoseconds; equal values tie, NaN does not, other kinds panic |
| `ListDirection.FirstDifferenceDecides` | master/internal/api.go:60-137 | the first nonzero key on which two messages differ decides, and if there is none neither is before the other |
| `ListDirection.LessExactly` | master/internal/api.go:53-138 | the same of the closure, with the messages exchanged for descending order |
| `ListDirection.SortedDirection` | master/internal/api.go:50-139 | a list is sorted by one key if and only if its values never go down in ascending order and never up in descending order |
| `ListOrder.FieldTrichotomy` | master/internal/api.go:72-135 | for each supported kind exactly one of before, after, equal |
| `ListOrder.Trichotomy` | master/internal/api.go:53-138 | for any key list the comparator does not panic and exactly one of before, after, equal on every key holds |
| `ListOrder.CompareTransitive` | master/internal/api.go:53-138 | the comparison is transitive |
| `ListOrder.StrictWeakOrder` | master/internal/api.go:50-139 | either direction is a strict weak order, and descending is the converse of ascending |
| `ListOrder.WeakOrderExactly` | master/internal/api.go:50-139 | over all messages of a type, incomparability is transitive if and only if no nonzero sort key is of a float kind |
| `ListOrder.SortIsDeterministic` | master/internal/api.go:50-139 | if no two different messages agree on every key, any two sorted permutations of a list are equal |
| `ListOrder.UniqueKeyNoTies` | master/internal/api.go:50-139 | a key with a different value in every message is enough for that |
| `ListOrder.SortExactly` | master/internal/api.go:50-139 | a sorted list is the only sorted permutation of itself if and only if no two different messages agree on every key |
| `ListOrder.PageExact` | master/internal/api/params.go:18-36 | exactly which requests are out of bounds, which panic, and what a page holds |
| `ListOrder.PagesAreAPrefix` | master/internal/api.go:31-45 | consecutive pages of one list concatenate to its prefix |
| `ListOrder.PagesExactly` | master/internal/api.go:31-45 | the pages of separately sorted requests lose and repeat nothing, for every page size, every walk to the end and every outcome of the sorts, if and only if no two different messages agree on every key |
| `ListOrder.PagesTile` | master/internal/api.go:31-45 | without ties, the pages of separately sorted requests tile one list without loss or repetition |
| `ContainerActor.ContainerActorObject.constructor` | agent/internal/container.go:75-80 | the actor starts pulling, with its spec and without container details |
| `ContainerActor.ContainerActorObject.Transition` | master/pkg/container/state.go:33-45 | moves exactly along the legal transitions |
| `ContainerActor.ContainerActorObject.ReportStopped` | agent/internal/container.go:228-238 | a stop is reported once |
| `ContainerActor.ContainerActorObject.Receive` | agent/internal/container.go:73-167 | refines the handling of one message, with everything it sends and every way it can fail |
| `ContainerReports.TransitionsExactly` | master/pkg/container/state.go:33-45 | the legal transitions are one stage on, or to the end from anywhere else |
| `ContainerReports.ReportsExactly` | agent/internal/container.go:73-151 | which message in which state makes the actor report what, code and details included |
| `ContainerReports.OrdersExactly` | agent/internal/container.go:85-130 | which makes it run the container, forward a signal and to which container, or spawn the checker |
| `ContainerReports.MailExactly` | agent/internal/container.go:92-127 | which makes it send itself its stop, a delayed signal or a readiness |
| `ContainerReports.EndExactly` | agent/internal/container.go:73-167 | which makes it return an error or panic, and why |
| `ContainerReports.RunExplained` | agent/internal/container.go:215-238 | in every run each report goes back to a step that justifies it: the exit with that code, the launch with those details, an interrupting signal, a failure, a pulled image |
| `ContainerReports.ExitIsTold` | agent/internal/container.go:109-111 | an exit read before anything else has ended the container is reported with its own code, and stays the last report of the run |
| `ContainerReports.OwnStopTold` | agent/internal/container.go:109-120 | an actor closed by its own stop has reported the exit code of an exit of the run, or an abort before set-up by a signal of the run |
| `ContainerRuns.StepInv` | agent/internal/container.go:73-167 | every step of every participant keeps the invariant |
| `ContainerRuns.RunInv` | agent/internal/docker.go:88-240 | the invariant holds after every interleaving |
| `ContainerRuns.ReportsAdvance` | agent/internal/container.go:215-238 | in every interleaving the reported states strictly advance from pulling, at most one stop is reported, and running implies container details |
| `ContainerRuns.SilentEndings` | agent/internal/container.go:97-104 | an actor that ends without reporting a stop was stopped by its parent or is of one of the two kinds of `SilentExactly`, with what its spec then looks like |
| `ContainerRuns.OnlyTwoPanics` | agent/internal/container.go:135-142 | the only two ways to panic |
| `ContainerRuns.LogCanKill` | agent/internal/container.go:104-138 | a log line can bring the actor down if and only if there are readiness checks and no Fluent logging |
| `ContainerRuns.LateMessagePanics` | agent/internal/container.go:113-120 | a run in which a message queued before the stop panics after the stop was reported |
| `ContainerSilence.RunExit` | agent/internal/docker.go:168-232 | after every run: nothing is logged or started after an announced exit, and a terminated actor never ran a container or has read its exit |
| `ContainerSilence.SilentExactly` | agent/internal/container.go:73-167 | an actor its parent did not stop ends without reporting a stop if and only if a log line found its spec evicted or its checker could not be set up |
| `ContainerSilence.CheckerCanKill` | agent/internal/container.go:97-100 | a container can be lost to its checker, unreported, if and only if it has readiness checks |
| `ContainerSilence.LogDeathUntold` | agent/internal/container.go:135-142 | an actor brought down by a log line has reported no stop |
| `ContainerFate.RunStopQueued` | agent/internal/container.go:109-120 | after every run, an open actor that has terminated has its stop queued |
| `ContainerFate.FateDecided` | agent/internal/container.go:109-151 | how a terminated actor closes is decided when it terminates, whatever arrives later |
| `ContainerFate.PanicExactly` | agent/internal/container.go:73-167 | which mailboxes make a terminated actor panic on an illegal transition |
| `ContainerFate.LatePanicExactly` | agent/internal/container.go:73-167 | a run closes with such a panic if and only if, at termination, a pulled image or a readiness is queued before anything that closes the actor |
| `SchemaPositions.EveryPositionOnce` | schemas/lint.py:354-415 | the traversal visits every structural position exactly once and nothing else |
| `SchemaPositions.FlagsAreRight` | schemas/lint.py:384-402 | each visit carries the schema at its path, flagged exactly when the root is or the path uses an edge other than `properties` |
| `SchemaComplaints.FoundExactly` | schemas/lint.py:354-415 | for any linter, the errors are exactly those at the structural positions, each under the position's printed place and flag |
| `SchemaComplaints.CheckExactly` | schemas/lint.py:149-189 | for one object, exactly which complaint the two checks make about which property, and when they raise |
| `SchemaComplaints.ComplaintsExactly` | schemas/lint.py:149-415 | for a whole document, exactly which messages are given at which places |
| `SchemaKeywords.KeywordsInOrder` | schemas/lint.py:396-413 | the keywords and the order in which they are followed |
| `SchemaKeywords.DictKeyword` | schemas/lint.py:287-304 | the children of a dict keyword and their printed places |
| `SchemaKeywords.ListKeyword` | schemas/lint.py:307-324 | the children of a list keyword and their printed places |
| `SchemaKeywords.SchemaKeyword` | schemas/lint.py:327-336 | the child of a schema keyword and its printed place |
| `SchemaKeywords.UnionKeyword` | schemas/lint.py:339-351 | the children of a union and their printed places |
| `SchemaKeywords.MalformedExactly` | schemas/lint.py:296-349 | which values of a keyword have the wrong shape and where that is reported |
| `SchemaKeywords.DigitsExactly` | schemas/lint.py:321-322 | indices are printed in decimal without leading zeros |
| `SchemaKeywords.RequiredExactly` | schemas/lint.py:129-130 | membership in `required` for each type of its value, and when it raises |
| `SchemaKeywords.DefaultExactly` | schemas/lint.py:161-163 | a default is an entry of that name |
| `SchemaKeywords.NullableExactly` | schemas/lint.py:133-146 | the linter's nullability is that of JSON Schema if and only if the schema is not of three kinds: a null constant, an enumeration with null beside a type without it, or none of the three keywords |
| `SchemaKeywords.NullableElsewhere` | schemas/lint.py:133-146 | booleans stand for themselves, and exactly which values make the check raise |
| `SchemaLint.IterSchema` | schemas/lint.py:354-415 | terminates, raises exactly when some visited position makes the linter raise, and otherwise returns exactly the findings at the visited positions, in order |
| `SchemaLint.IterGroups` | schemas/lint.py:396-413 | the keywords in order, with the flag switched on before `checks` and left on |
| `SchemaLint.IterGroup` | schemas/lint.py:287-351 | one keyword's children, or one complaint about its shape |
| `SchemaLint.IterKids` | schemas/lint.py:301-324 | the children in document order |
| `SchemaLint.PropertyClean` | schemas/lint.py:129-189 | a property passes both checks exactly when it is required, non-nullable and default-free, or optional, nullable and defaulted (or a suitable boolean) |
| `SchemaLint.PropertiesClean` | schemas/lint.py:149-189 | an object passes both checks exactly when it is in checks or all its properties pass |
| `SchemaLint.InOrderIsClean` | schemas/lint.py:354-415 | nothing is found in a document whose every position is in order |
| `SchemaLint.CleanIsInOrder` | schemas/lint.py:354-415 | every position of a document in which nothing is found is in order |
| `SchemaLint.CleanDocument` | schemas/lint.py:354-415 | the two checks find nothing if and only if the element at every structural position is in order |
| `FluentRing.DistinctSlots` | agent/internal/fluent.go:273-274 | messages less than a capacity apart use different slots |
| `FluentRing.Ring.Receive` | agent/internal/fluent.go:269-274 | appends to the history and overwrites only the oldest slot |
| `FluentRing.Ring.Dump` | agent/internal/fluent.go:320-327 | yields exactly the last messages, up to the capacity, in arrival order, and reads no unset slot |
| `TrialLogger.Logger.TryFlushLogs` | master/internal/trial_logger.go:67-74 | if forced, or with 1000 logs pending, hands exactly those over as one batch and empties the buffer; otherwise leaves everything alone |
| `TrialLogger.Logger.Receive` | master/internal/trial_logger.go:44-65 | a log with room left is only buffered, the thousandth completes one batch, a tick or the stop hands over what is pending; batches followed by pending logs are always the received logs in order; that earlier batches never change holds because the backend is taken to copy its argument before it returns |
| `Metrics.ListToDict` | harness/determined/util.py:40-46 | the nested loops compute the columns |
| `Metrics.ColumnConcat` | harness/determined/util.py:40-46 | the values of a metric over two lists of rows are those over the first, then those over the second, whichever rows lack it |
| `Metrics.DictToList` | harness/determined/util.py:49-67 | exactly which inputs raise, and otherwise the rows |
| `Metrics.ValidateBatchMetrics` | harness/determined/util.py:70-80 | accepts exactly the lists whose dicts share one key set |
| `Metrics.RowsOfColumns` | harness/determined/util.py:40-67 | rows are recovered from their columns if and only if there is at least one row and all share one nonempty key set |
| `Metrics.ColumnsOfRows` | harness/determined/util.py:40-67 | equal-length columns are recovered from their rows if and only if there are none or they have positive length |

## Left out

- Sockets, pickling, port binding and `ZMQClient.barrier`: channels are abstract, and the client's
  half of the one-sided barrier is one send and one receive.
- The remaining linters of `schemas/lint.py` (types, unions, comparisons and so on) and the texts
  of the messages: the traversal theorems hold for any linter, the document theorem for the
  default and nullability checks.
- Mutation of the linter's context object: the in-checks flag is a loop variable and a parameter.
- A document with repeated keys cannot exist as a Python dict; the model's lookup takes the first.
- The in-place rewriting of slices by `sort` and `paginate`: modelled on values; the conversion of
  the list length to `int32` and the `filter` helper are not modelled.
- `MetricNames` and `MetricBatches`, the selection of top trials, the LTTB down-sampling itself and
  the SQL queries: a snapshot, a sampler parameter and a series specification stand for them.
- Trial points are sent with their batch number cut to 32 bits; the model sends the point itself.
- Scheduling delay beyond a poll's time-out, floating-point rounding of the clock, and a clock that
  runs backwards.
- The actor library beyond FIFO mailboxes and the queued stop, such as the notice of a failed child
  (`master/pkg/actor/ref.go:320-327`), which the container manager ignores; websocket failures of the lock
  server, which the source only logs.
- What a backend does with a failed batch of trial logs: the source drops it after logging, and
  the model states what is handed over.
- Docker's own API, image credentials, HTTP, gRPC, authentication, command-line and rendering code.
- TrialLogger.Logger.Receive: the array elements are values, not the pointers to log records that the
  source stores, because the records are not changed after they are received.
- AllGatherTheorems.BarrierSafety: speaks of one round and one direction; the exact condition, over
  whole runs, is FlaggedRounds.BarrierExactly.
- FlaggedRounds.CompleteExactly: does not say when a flagged all-gather to which a worker contributes
  `None` is incomplete, because the gather's own `None` can stand in for it (CompleteByAccident).
- SeriesHistory.InOrderExactly: speaks only of series that grow at their end, because a rolled-back
  series has no remainder to compare with; SentOnceExactly is the form for all histories.
