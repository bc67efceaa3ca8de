# Delivery guarantees of a Nomios hyperloop

A hyperloop reads a MySQL binlog, stamps every captured row change with a resume
coordinate, splits the stream into hash queues, publishes the queues in parallel to an
asynchronous sink (Kafka), and persists a checkpoint for the next run. The repository
promises no gaps, at-least-once delivery and per-key order (README.md:103-113). No single
function gives these. This project models the parts that give them together and proves
the promises over every interleaving, failure, crash and restart.

`dafny verify dfyconfig.toml` checks the project.

## How the model is built

**Values and text.** `Events` holds the event, its position and its row values. `Text`
holds decimal rendering and byte order. A GTID set is its finite set of GTIDs; its text is
empty exactly when the set is empty. A string is a byte string, a `char` a byte.

**Components, in the form of the code.** `Tracking.Tracker`, `Source.Reader`,
`Dispatch.Dispatcher`, `Publish.Worker` and `Supervisor.Manager` are classes whose methods
update fields like the Go methods do; `Keys`, `JsonText` and `Serialize` hold the appending
loops and the in-place sort. Each method is proved equal to a specification function or
against the property itself. What a `select` receives, when a timer fires or a context ends, and
what a call returns is a parameter (a script or a plan), and the contracts hold for all of them.

**The source and the log.** `Binlog` describes a log as transactions: an optional GTID event,
an optional BEGIN, rows events, one XID or non-BEGIN query. `Resume` says what a position means
to a server. `Stamping` and `EventIds` prove what the event loop of `Source` makes of any such
log, from any start, across rotations and failed GTID-set updates. `Content` proves what every
event says, from the log alone: operation, images, table, coordinates and key, and that applying
a stream's images to any tables makes exactly the source's changes.

**The sink.** `SinkContract` is the asynchronous `Sink` contract as a state machine.
`KafkaSink` is `PublishBatch`, its promise and `Flush`, with every promise split into its
atomic steps; it refines the contract.

`SharedSink` shows that one sink object shared by all runs of a process is, seen from one run,
a sink of its own that the others can only fail or reset.

**One run.** `Pipeline` is a run as a state machine: every goroutine, channel and timer is
explicit, and any enabled step may come next. Source, dispatcher, one publisher per queue,
sink, committer and `run` itself (graceful stop, drain timeout, hard cancel, abandonment,
flush, final save) each have their steps. `Flow` and `Conservation` prove order and
conservation, `Safety` the acknowledgement and persistence protocol, `Bound` the backpressure
bound, `Drain` the clean shutdown; `Runs` states them for every state of every run. `Verdict`
says from the steps a run took when it was cancelled, what it answered and what it shows as
saved. `Completion` proves that a run can publish any prefix of its stream and stop with a nil
answer. `Traces` proves that the dispatcher class and the rounds of the publisher are steps of
this machine.

**Whole histories.** `World` adds the state store, the Kafka topic, crashes, restarts, the
late goroutines of abandoned runs, the late produce requests of crashed ones, and the sticky
error that the runs of one process share. `World.NoGaps`, `Delivery.ConsumerSeesPrefix`,
`CleanStop` and `Unseeded.PromiseIsExact` are statements about every history. `Reachability`
proves that every run of a history is a trace of `Verdict`, and that every history can go on to
a clean stop.

**Envelope.** `Json` is a parser for sections 2 to 7 of RFC 8259. `Envelope` proves that what it
reads from an envelope means the event; `Serialize` is the encoder. `Messages` joins this with
`Content`: what a consumer reads from the message of any event of any run, told from the log.

## Hypotheses

They are written as `requires` where a theorem needs them.

- Log shape (`Resume.LogOk`, `Resume.TxnsOk`): the transaction form above; either every
  transaction has its own GTID or none has one; coordinates are not reused; no transaction is
  in a log twice. `EventIds.SharedGtidSharesIds` shows what goes wrong without the second.
- In GTID mode different runs may be served by servers with different transaction orders and
  coordinates (`Const.fixed` is `None`); file mode and the consumer theorem fix one log.
- Seed (`World.Promised`): in GTID mode a non-empty set, in file mode a file name, or nothing that
  could be lost. This is not an assumption of convenience: `Unseeded.PromiseIsExact` proves that
  the no-gap promise holds exactly then.
- Kafka may append submitted records in any order, repeatedly or not at all; only an appended
  record is acknowledged. The consumer theorem alone assumes more (`Delivery.IsOrderedHistory`):
  what one run has written to a partition is a prefix of what it submitted to it.
- Without GTIDs, event IDs and the consumer theorem need rows events with coordinates of their
  own (`EventIds.RowCoordinatesDistinct`).
- The store is one register: a save reads the checkpoint, later takes effect or not, later
  returns; a failed save may have taken effect.
- Base64 (section 4 of RFC 4648) is an arbitrary injective function into text without quotes,
  backslashes and control bytes.

## Where the code and its documentation differ

- pkg/source/mysql/source.go:135-159 treats a zero position as "current end of the log". In
  GTID mode the events of the first transaction are stamped with the start's own set and no
  file, so with an empty start set the first checkpoint is the zero position, even if the
  seed named a file. A restart then skips the rest of the log written so far.
  `Unseeded.PromiseIsExact` proves when the promise holds in spite of this: with a non-empty set;
  with an empty set that is not the zero position, when no served log opens with a captured
  transaction and has a second captured row; with the zero position, when there is no captured
  row at all. `Unseeded.ExampleHasGap` is a concrete hyperloop that loses a row.
- README.md:131-135 describes `tx_order` as the row's position within its transaction. Without
  GTID events nothing resets the counter (pkg/source/mysql/source.go:290-292).
  `EventIds.TxOrderIsPosition` gives the exact condition.
- pkg/server/server.go:35-36 promises doubling capped at a minute. The first wait is the
  configured one even above a minute, and a negative initial backoff or one of 2^62 ns or more
  overflows; `Supervisor.BackoffFormula` gives the exact condition.
- `fail` ignores errors that wrap `context.Canceled` (pkg/hyperloop/hyperloop.go:260-263), so a
  publisher that is refused by a sticky cancelled error exits without recording a failure.
  `Drain` shows that `Flush` still catches it: such a run does not return nil.
- A batch without events would keep its slot and block `Flush` for ever
  (`KafkaSink.EmptyBatchLeaks`); `runPublisher` never submits one (`Publish.Worker.RunPublisher`).

## Model

| member | source | states |
|---|---|---|
| World.NoGaps | pkg/hyperloop/hyperloop.go:212-393 | after any history of runs, failed saves, abandoned shutdowns, crashes and restarts, with Kafka appending or losing records in any order, a captured row that a run starting now would not replay was acknowledged or lies before the seed; in GTID mode for every server order |
| World.HistoryIsValid | pkg/hyperloop/hyperloop.go:212-393 | every reachable world keeps the global invariant: the store can be resumed from or nothing is left to lose, it passes only acknowledged rows, is not behind the seed, all but the last run are over |
| World.StepKeepsValid | pkg/hyperloop/hyperloop.go:212-393 | every step of every goroutine, every start and every crash keeps that invariant |
| World.StoreMovesForward | pkg/hyperloop/hyperloop.go:488-517 | the store's resume boundary never moves back, over runs, and within a run the saved SeqNo never decreases |
| World.StoreNeverMovesBack | pkg/hyperloop/hyperloop.go:374-391 | what resuming from the store would skip at one moment of a history it would skip at every later one |
| World.CleanIsSavedThroughout | pkg/hyperloop/hyperloop.go:488-517 | throughout every history, no save in progress and a clean tracker mean that the store holds the checkpoint |
| World.AbandonedRunsAreHarmless | pkg/publish/kafka/sink.go:142-165 | whatever an abandoned or crashed run still does, the store stays as it is, and every other run does, tracker, reports, checkpoint and saves included, except that an asynchronous failure becomes sticky in the shared sink |
| World.CleanMeansSaved | pkg/state/tracker.go:77-98 | with no save in progress a clean dirty flag means that the last successful save and the store equal the checkpoint, failed saves and concurrent acks included |
| Unseeded.PromiseIsExact | pkg/source/mysql/source.go:135-159 | in both modes the no-gap promise holds over all histories if and only if the seed names a place or nothing can be lost, for every configuration and every set of transactions |
| Unseeded.EmptySetHasGap | pkg/source/mysql/source.go:404-409 | with an empty set that is not the zero position, one sent, acknowledged and saved event is a history that loses every other row of a log that opens with its transaction |
| Unseeded.NamelessSeedHasGap | pkg/source/mysql/source.go:135-159 | a seed without coordinates loses every row there is, in either mode, with no run at all |
| Unseeded.ExampleHasGap | pkg/source/mysql/source.go:404-409 | a concrete hyperloop, one transaction of two inserts, whose seed names a file and which loses a row |
| Stamping.ZeroStampIsFirst | pkg/source/mysql/source.go:320-329 | a stamp is the zero position only if the start's set is empty and the event belongs to the first transaction of the log |
| Unseeded.FirstEvents | pkg/source/mysql/source.go:257-269 | from an empty set the first event of a log that opens with a captured transaction carries the zero position |
| Delivery.ConsumerSeesPrefix | README.md:103-113 | a consumer that keeps the first record per event ID sees, for every table and key, exactly the first m rows of that key's source history in order, after any history on one log in which the runs' writes keep partition order, late writes of abandoned and crashed runs included |
| Delivery.StepKeepsDelivering | pkg/hyperloop/hyperloop.go:48-54 | no step that keeps partition order writes a record of a key before every earlier row of that key was written |
| Delivery.WriteFollowsItsLane | pkg/hyperloop/hyperloop.go:48-54 | when a write keeps partition order, every earlier record of its key in the run's stream has been written |
| Delivery.IdsMatchRows | pkg/source/mysql/source.go:378-387 | two records have the same ID exactly when they carry the same row change |
| CleanStop.CleanStopIsComplete | pkg/hyperloop/hyperloop.go:330-392 | after a nil return without drain timeout, every row the run's source sent is acknowledged and the store holds the coordinates and SeqNo of the last event sent |
| CleanStop.CleanStopReplaysLastTransaction | pkg/hyperloop/hyperloop.go:374-391 | if every set update succeeded and the saved position has coordinates, resuming re-delivers, of the rows that run published, exactly those of the last transaction it emitted |
| CleanStop.HistoryIsKept | pkg/hyperloop/hyperloop.go:212-393 | all run-level guarantees hold of every run in every history |
| Reachability.CleanStopIsReachable | pkg/hyperloop/hyperloop.go:212-393 | from every history, restarted at any moment on any log that can serve it, for every n up to the length of the next run's stream there is a continuation to a nil return without drain timeout with exactly n events sent and the last one's position shown as saved |
| Reachability.HistoryHasTrace | pkg/hyperloop/hyperloop.go:212-393 | every run of every history went from its start to where it is by steps of the run machine, another run's sink failure being one of them |
| Runs.EveryRunKeepsOrder | pkg/dispatch/dispatch.go:198-257 | in every state of every run the events publisher q handed to the producer are a prefix of those sent for queue q, and likewise for every key |
| Runs.EveryRunConserves | pkg/dispatch/dispatch.go:198-257 | in every state of every run an event sent for a queue is in exactly one of eight places (acknowledged, failed or open record of a batch, buffer, queue, staging, dispatcher, source channel), any other event in none; these add up to what was sent, and unresolved events stay under the bound in the configuration's numbers |
| Runs.EveryCleanRunDrains | pkg/hyperloop/hyperloop.go:330-392 | every run that returns nil without drain timeout has all its events acknowledged and its last effective save at the last SeqNo |
| Runs.RunIsKept | pkg/hyperloop/hyperloop.go:212-393 | every reachable state of a run keeps all run-level invariants |
| Verdict.AnsweredExactly | pkg/hyperloop/hyperloop.go:357-392 | a returned run has an error if and only if a component failed before `run` read the first error, the run was abandoned, Flush failed or the final save failed; it wraps context.Canceled exactly when Flush's answer did |
| Verdict.CancelledExactly | pkg/hyperloop/hyperloop.go:254-283 | the pipeline is cancelled if and only if a component failed with an error that does not wrap context.Canceled, the drain timed out or the run is over; the first such error is kept |
| Verdict.PersistedExactly | pkg/hyperloop/hyperloop.go:374-391 | the position shown as saved is the one the last successful save wrote, or the loaded one while none succeeded |
| Completion.CanStopCleanly | pkg/hyperloop/hyperloop.go:212-393 | for every stream and every n a run from its start can send exactly n events, return nil after a graceful stop and show the last one's position as saved |
| Completion.OneMore | pkg/hyperloop/hyperloop.go:284-325 | an idle pipeline can take one more event from source to report and be idle again |
| Completion.SavesPeriodically | pkg/hyperloop/hyperloop.go:488-517 | the committer can save the reported checkpoint while the run goes on and then has nothing left to save |
| Flow.StepKeepsFlow | pkg/dispatch/dispatch.go:198-257 | every step of every goroutine keeps: sent for q = batched, then buffered, queued, staged, in hand, in the channel, in order |
| Flow.PublisherOrder | pkg/hyperloop/hyperloop.go:400-431 | submissions of a queue are a prefix of what was sent for it |
| Flow.KeyOrder | pkg/dispatch/dispatch.go:178-186 | submissions of a key are a prefix of what was sent with it |
| Flow.ExactlyOnePlace | pkg/dispatch/dispatch.go:212-220 | no event is lost, duplicated or sent to a second queue |
| Conservation.ExactlyOneOfEight | pkg/publish/kafka/sink.go:196-214 | the same with the records of batches split into acknowledged, failed and open |
| Conservation.SentAddsUp | pkg/hyperloop/hyperloop.go:233-246 | the events sent are exactly as many as those in the source channel, in the dispatcher's hands, dispatched but unresolved, and acknowledged or failed |
| Traces.RoundIsTrace | pkg/hyperloop/hyperloop.go:400-431 | a publisher round that drains k micro-batches and is accepted is a trace of the run that submits exactly these and ends in the next drain or the exit |
| Traces.DrainIsTrace | pkg/hyperloop/hyperloop.go:453-481 | what drainBatch takes is a trace of take steps |
| Traces.FailedIsTrace | pkg/hyperloop/hyperloop.go:420-425 | a failed PublishBatch is a trace to the exit with nothing submitted, and records the error unless the context ended |
| Traces.StagedIsStage | pkg/dispatch/dispatch.go:212-214 | routing an event in the class is the stage step of the run |
| Traces.FlushedIsFlush | pkg/dispatch/dispatch.go:237-248 | sending a slice in the class is the flush step of the run, once the queue has room |
| Traces.DispStepIsAct | pkg/dispatch/dispatch.go:198-257 | every dispatcher step of a run on its lines is an act of the class |
| Traces.TakeKeepsLines | pkg/hyperloop/hyperloop.go:453-481 | a publisher's take moves a micro-batch and leaves the dispatcher's lines alone |
| Traces.NilReturnIsClose | pkg/dispatch/dispatch.go:198-211 | a dispatcher that drained a closed input with nothing staged may take the close step of the run |
| Bound.UnresolvedIsBounded | pkg/hyperloop/hyperloop.go:233-246 | dispatched but unresolved events never exceed Q(F + BF + M+F-1) + Max(M+F-1), with F = min(M, 256) and B = max(capacity / F, 2) |
| Bound.StepKeepsSizes | pkg/dispatch/dispatch.go:148-170 | every step keeps the sizes of staging slices, queues, drained batches and in-flight batches |
| Safety.CheckpointIsAcked | pkg/state/tracker.go:52-64 | the checkpoint is the position of the greatest N with 1..N reported, and all of them are acknowledged and written |
| Safety.StepKeepsAcks | pkg/hyperloop/hyperloop.go:400-431 | reported events are acknowledged, acknowledged ones written, written ones submitted, and the tracker reflects the reports |
| Safety.StepKeepsSaves | pkg/hyperloop/hyperloop.go:488-517 | saves are of reached checkpoints, only move forward, and settle the dirty flag |
| Safety.RetiredStays | pkg/hyperloop/hyperloop.go:374-393 | a returned run never touches the store again |
| Drain.StepKeepsOrder | pkg/hyperloop/hyperloop.go:246-393 | dispatcher and publishers leave nothing behind unless an error was recorded, the drain timed out or the sink is failed |
| Drain.FlushCompletes | pkg/hyperloop/hyperloop.go:357-369 | when all goroutines are gone, nothing failed and the sink is flushed, exactly the events sent are reported |
| Drain.CompleteStays | pkg/hyperloop/hyperloop.go:357-392 | no later step changes that |
| Drain.StepKeepsFinals | pkg/hyperloop/hyperloop.go:374-391 | the final save of a clean run is of the last event sent, and a nil return means that it took effect |
| Tracking.Confluence | pkg/state/tracker.go:27-64 | any order and any grouping of the same distinct positions leaves exactly the same tracker state |
| Tracking.ReportAllKeepsSpec | pkg/state/tracker.go:38-64 | after any calls: next-1 is the greatest N with 1..N all reported, the checkpoint is N's position, pending holds the rest |
| Tracking.ReflectsDetermines | pkg/state/tracker.go:5-20 | that specification determines next, checkpoint and pending |
| Tracking.ReportTracks | pkg/state/tracker.go:38-64 | reports of a numbered stream, repeated or not, keep the checkpoint rule |
| Tracking.Tracker.Done | pkg/state/tracker.go:27-32 | one report is the specification's step |
| Tracking.Tracker.DoneBatch | pkg/state/tracker.go:38-48 | a batch is the specification's step, an empty one nothing |
| Tracking.Tracker.AdvanceFields | pkg/state/tracker.go:52-64 | the loop computes the specification and ends because pending shrinks |
| Tracking.Tracker.TakeDirty | pkg/state/tracker.go:77-85 | the checkpoint once per move |
| Tracking.Tracker.Redirty | pkg/state/tracker.go:92-98 | marks again only if there is a checkpoint |
| SinkContract.StepKeepsValid | pkg/hyperloop/hyperloop.go:38-61 | done only after every event was acknowledged, never after a failure; in-flight slots bounded; failures sticky before a batch finishes |
| SharedSink.OwnStepProjects | pkg/publish/kafka/sink.go:58-75 | in a sink shared by several runs, a run's own step is an allowed step of its view with the same effect |
| SharedSink.OtherStepProjects | pkg/publish/kafka/sink.go:142-165 | and the step of another run is a failure, a reset or invisible in it |
| SharedSink.FlushProjects | pkg/publish/kafka/sink.go:220-232 | when the shared sink is flushed, every run's view is |
| KafkaSink.PromiseProtocol | pkg/publish/kafka/sink.go:196-214 | over all interleavings of atomic promise steps: done at most once and never after a failure; slot and pending unit given back exactly once for a non-empty batch whose promises returned, with done run exactly when none failed |
| KafkaSink.FlushReturningNil | pkg/publish/kafka/sink.go:220-232 | every batch whose records had all been handed over before the Flush call began, submitted since the last Reset, was acknowledged and its done has returned |
| KafkaSink.FlushAnswers | pkg/publish/kafka/sink.go:220-232 | once every promise has returned a Flush goes through, and answers nil exactly when no error is sticky; that is so when no record failed |
| KafkaSink.StickySinceReset | pkg/publish/kafka/sink.go:142-165 | an error is sticky only if the promise of a failed record reported it since the last Reset |
| KafkaSink.PromiseEnds | pkg/publish/kafka/sink.go:196-214 | a started promise can always take its next step, which brings it nearer to its end and moves no other record |
| KafkaSink.EmptyBatchLeaks | pkg/publish/kafka/sink.go:189-214 | an empty batch never gives its slot or pending unit back |
| KafkaSink.Refines | pkg/publish/kafka/sink.go:172-232 | every atomic step is an allowed step of the Sink contract or invisible to it |
| KafkaSink.FlushAnswersContract | pkg/publish/kafka/sink.go:220-232 | when Flush answers nil the contract sees its batches finished and no error |
| KafkaSink.StepKeepsValid | pkg/publish/kafka/sink.go:142-232 | every atomic step keeps countdown, semaphore, wait group and sticky error in agreement |
| Source.Reader.HandleEvent | pkg/source/mysql/source.go:285-316 | one binlog event changes the state and emits what the specification says |
| Source.Reader.EmitRows | pkg/source/mysql/source.go:331-420 | the emit loop, filtered rows advancing txOrder by the iterations it would have made |
| Source.Reader.CommitTxn | pkg/source/mysql/source.go:320-329 | folds the pending GTID in if the update succeeds, moves the file coordinates always |
| Source.Reader.ReadAll | pkg/source/mysql/source.go:257-283 | the event loop over a stretch of the stream |
| Binlog.AfterIsRun | pkg/source/mysql/source.go:257-316 | reading transaction by transaction is what the event loop computes on the event stream |
| Binlog.TxnEmits | pkg/source/mysql/source.go:285-420 | one transaction emits exactly its captured rows, each stamped with the state before it, then commits |
| Resume.MarkCovers | pkg/source/mysql/source.go:320-329 | the committed coordinates cover exactly what the start covers and what was read and accepted since, in both modes |
| Resume.ServedIsUncovered | pkg/source/mysql/source.go:135-159 | a server sends no transaction the start covers |
| Resume.UncoveredIsServed | pkg/source/mysql/source.go:135-159 | and every one it does not cover |
| Stamping.StreamIsNumbered | pkg/source/source.go:30-31 | sent SeqNos are exactly 1..N |
| Stamping.StreamIsUncoveredHistory | pkg/source/mysql/source.go:257-420 | a run emits, in log order, exactly the captured rows of the transactions its start does not cover |
| Stamping.StampsMonotone | pkg/source/mysql/source.go:404-409 | stamps cover what the start and every earlier stamp cover |
| Stamping.CoveredWasSent | pkg/source/mysql/source.go:404-409 | what a stamp covers beyond the start was sent before the event that carries it |
| Stamping.StampReplaysTheRest | pkg/source/mysql/source.go:404-409 | resuming from a stamp replays that event and everything after it |
| Stamping.StampCoversTheRest | pkg/source/mysql/source.go:320-329 | if every set update succeeded a stamp covers every earlier event of another transaction |
| Stamping.StampIsAPlace | pkg/source/mysql/source.go:320-329 | a stamp names a place whenever the start does |
| Content.EventSaysItsRow | pkg/source/mysql/source.go:364-414 | every event of every run has the operation of its rows event's kind, an insert's, delete's or update's own images (an update's in before, after order), and the table, server, time, GTID, file and position of the log; its key is that of the current image |
| Content.SourceKeyDecodes | pkg/source/mysql/source.go:411-412 | the source's key decodes to the table and the primary-key columns of the current image |
| Content.CapturedExactly | pkg/source/mysql/source.go:331-420 | a row change is captured if and only if its rows event is of a known kind, its table passes the filter and its images are there |
| Content.StreamReplaysSource | pkg/source/mysql/source.go:331-420 | applying the images of a run's stream to any tables makes exactly the changes of the captured rows the start does not cover, in log order |
| EventIds.IdsAreStable | pkg/source/mysql/source.go:332-387 | whatever the start and the table filter, a row gets the ID the log determines |
| EventIds.RunsAgreeOnIds | pkg/source/mysql/source.go:378-383 | whatever the table filters, starts, modes and served logs of two runs, their events have the same ID if and only if they carry the same row change; with GTIDs the logs may differ |
| EventIds.IdsAreUnique | pkg/source/mysql/source.go:382-387 | distinct row changes have distinct IDs |
| EventIds.SharedGtidSharesIds | pkg/source/mysql/source.go:382-387 | rows at the same place of two transactions that carry one GTID are emitted under one ID |
| EventIds.TxOrderIsPosition | pkg/source/mysql/source.go:290-292 | tx_order is the position in the whole transaction if and only if the transaction has a GTID or nothing was served before it in this run |
| Keys.KeyRoundTrip | pkg/dispatch/dispatch.go:47-128 | a decoder that splits on unescaped separators recovers table and column values |
| Keys.KeyIsInjective | pkg/dispatch/dispatch.go:47-128 | equal keys of typed rows mean the same table and the same key column values |
| Keys.WholeRowKeyIsInjective | pkg/dispatch/dispatch.go:47-66 | the whole-row fallback identifies the row among rows with the same columns |
| Keys.AppendEscaped | pkg/dispatch/dispatch.go:71-82 | the loop is byte-by-byte escaping |
| Keys.AppendKeyValue | pkg/dispatch/dispatch.go:86-128 | renders a value so that KeyRoundTrip can read it back |
| Keys.BuildKey | pkg/dispatch/dispatch.go:47-66 | the key does not depend on map order |
| Keys.Hash | pkg/dispatch/dispatch.go:181-185 | the loop is FNV-1a in 32-bit arithmetic, as PublishedHashes and OneByteChangesHash pin it down |
| Keys.Pick | pkg/dispatch/dispatch.go:178-186 | writes the routed key into the event, changes nothing else, and returns the queue its hash gives; the key of a table with an override decodes to the override columns of the current image whatever the source's key, else it is the source's key, or the table without one |
| Keys.RoutingIsStable | pkg/dispatch/dispatch.go:30-45 | the same of the key as such, and routing a routed event again changes nothing |
| Keys.OverrideKeysAgree | pkg/dispatch/dispatch.go:30-45 | two events of a table with override columns are routed under one key if and only if those columns agree |
| Keys.OverrideIsSpelled | pkg/dispatch/dispatch.go:30-45 | an override wins over the key the source attached |
| Keys.OneByteChangesHash | pkg/dispatch/dispatch.go:178-186 | keys that differ in exactly one byte have different hashes |
| Keys.PublishedHashes | pkg/dispatch/dispatch.go:175-177 | the published FNV-1a values of the empty string, a and foobar |
| Dispatch.Dispatcher.constructor | pkg/dispatch/dispatch.go:148-170 | clamps queue count, flush size and capacity; queues start empty |
| Dispatch.Dispatcher.Flush | pkg/dispatch/dispatch.go:237-248 | sends the staged slice unless the context ends that send, which then changes nothing |
| Dispatch.Dispatcher.FlushAll | pkg/dispatch/dispatch.go:250-257 | what every queue carries stays; success leaves nothing staged, failure means that the context ended the last send |
| Dispatch.Dispatcher.Run | pkg/dispatch/dispatch.go:198-235 | for any script of received batches, ticks, closing and cancellation, every queue carries a prefix of its events in order under their keys; nil means all of them with nothing staged, and an error that the context ended the loop or a send; queues are closed on every return |
| Dispatch.Dispatcher.Handle | pkg/dispatch/dispatch.go:206-230 | one received value is routed completely, and nothing stays staged when the input pauses, at a tick and when the input closes |
| Dispatch.Dispatcher.Append | pkg/dispatch/dispatch.go:212-214 | staging an event extends its own queue's line by it, under its key, and no other, and is recorded as the act it is |
| Dispatch.LaneIsFilter | pkg/dispatch/dispatch.go:198-235 | what a queue carries is the stream restricted to the events routed to it |
| Publish.DrainBatch | pkg/hyperloop/hyperloop.go:453-481 | the micro-batches taken in order; the drain ends exactly with the first of context end, closed and empty queue, full batch and timer; only the last two leave it open, and a closed drain is below the limit |
| Publish.BatchIsBounded | pkg/hyperloop/hyperloop.go:447-453 | a batch overshoots the limit by less than one micro-batch |
| Publish.Newest | pkg/hyperloop/hyperloop.go:409-414 | the newest event time of a batch, or 0 |
| Publish.Worker.RunPublisher | pkg/hyperloop/hyperloop.go:400-431 | the rounds before the last submitted a prefix of the queue in order without empty batches; an error exactly when the last round had something to publish and PublishBatch failed with the context alive; nil only when the queue is drained or the context ended |
| LastEvent.ConcurrentMaximum | pkg/hyperloop/hyperloop.go:435-445 | under any interleaving of load and compare-and-swap the value never decreases and ends as the maximum of its start and all positive times |
| LastEvent.StepKeepsValid | pkg/hyperloop/hyperloop.go:435-445 | every atomic step keeps that; a failed swap means another call raised the value |
| JsonText.AppendJsonString | pkg/serialize/json.go:230-255 | the run-copying loop is byte-by-byte escaping |
| JsonText.StringRoundTrip | pkg/serialize/json.go:230-255 | reading the token per section 7 of RFC 8259 returns the bytes, whatever follows |
| JsonText.EscapedStaysInside | pkg/serialize/json.go:230-255 | no raw control byte and no unescaped quote in the token |
| Envelope.EnvelopeReads | pkg/serialize/json.go:45-65 | an RFC 8259 parser reads from the envelope exactly the intended tree, embedded JSON included |
| Envelope.EnvelopeDecodes | pkg/serialize/json.go:45-65 | what an RFC 8259 parser reads from the envelope means the event: op c, u or d for insert, update and delete, images null or exactly their columns, source fields with zeros left out, time |
| Envelope.SourceDecodes | pkg/serialize/json.go:67-96 | a source field is absent when zero and otherwise its value |
| Envelope.RowDecodes | pkg/serialize/json.go:103-136 | a present column decodes to its value's tree, any other is absent |
| Envelope.RowReads | pkg/serialize/json.go:103-136 | the text of an image reads as null or as an object of exactly its columns |
| Envelope.EnvelopeDetermines | pkg/serialize/json.go:45-65 | equal envelopes mean equal ID, operation, metadata and time, and images with the same columns, equal in every column of one type; embedded documents have equal trees |
| Envelope.ValueReads | pkg/serialize/json.go:149-211 | every value's text reads as the value: null, the string's units, the armored bytes, the embedded document, the number, the truth value |
| Messages.MessageSaysItsRow | pkg/event/event.go:14-18 | for every event of every run the published text reads back as the row change in the log: c exactly when the old image reads as null, d exactly when the new one does, u for an update; images, table, server, time, GTID and coordinates are the log's |
| Json.ObjectReads | pkg/serialize/json.go:126-136 | if every member's text stands for its tree, so does the object's |
| Json.ValueExtends | pkg/serialize/json.go:155-161 | what is read of an embedded document does not depend on the structural character after it |
| Serialize.InsertionSort | pkg/serialize/json.go:139-145 | an ordered permutation, in place |
| Serialize.OrderIsUnique | pkg/serialize/json.go:103-145 | any ordered permutation of any enumeration of a row is the one sequence of its names in byte order |
| Serialize.AppendRow | pkg/serialize/json.go:103-137 | the text depends on the map's contents alone |
| Serialize.AppendValue | pkg/serialize/json.go:149-211 | appends the value's text |
| Serialize.AppendSource | pkg/serialize/json.go:67-96 | appends the source object with zero fields omitted |
| Serialize.AppendEvent | pkg/serialize/json.go:45-65 | appends the envelope; what is read back from the appended text means the event |
| Supervisor.SupervisorIsSafe | pkg/server/server.go:73-141 | over all interleavings of Start, Stop and run exits: at most one loop alive; a nil Stop means that the loop it observed has exited; Run is called again after every failure but the last, at most max(0, MaxRestarts)+1 times per Start; a loop that exited saw its last Run succeed, was cancelled or made exactly that many calls; waits are the backoffs |
| Supervisor.StepKeepsValid | pkg/server/server.go:73-141 | every step keeps that |
| Supervisor.ExitIsFinal | pkg/server/server.go:73-141 | an exited loop stays exited; only a Start brings the hyperloop back |
| Supervisor.BackoffFormula | pkg/server/server.go:90-118 | the k-th backoff is min(initial 2^k, one minute) for all k >= 1 if and only if the initial one is not negative and its first doubling fits into a duration |
| Supervisor.Supervise | pkg/server/server.go:88-118 | calls Run until an attempt succeeds, is cancelled or exhausts the restarts, and waits the k-th backoff after the k-th failure |
| Supervisor.PlanIsHistory | pkg/server/server.go:88-118 | whatever the attempts do, the loop's calls with their outcomes, its waits and its exit are a history of the lifecycle machine |
| Supervisor.LoopFollowsPlan | pkg/server/server.go:88-118 | and conversely every loop that has exited, in any history, made the calls and waits the goroutine makes for some attempts |
| Supervisor.StopStops | pkg/server/server.go:122-141 | a Stop called while a loop was there returns nil only after that loop and every earlier one have exited |
| Supervisor.Manager.Register | pkg/server/server.go:55-63 | adds a stopped hyperloop unless the ID exists |
| Supervisor.Manager.Start | pkg/server/server.go:73-120 | starts a loop exactly when none is alive; unknown IDs change nothing |

## Left out

- MySQL and Kafka client calls, server validation, `masterStatus`, reconnects and schema loading: foreign I/O; the binlog is an input sequence and the current end of the log a parameter.
- `mapRow` and schema lookup: row images arrive as named columns; the table filter is an arbitrary predicate on names.
- Query text: BEGIN is a flag of the query event; comparing and trimming the text is not modelled.
- pkg/state/mysqlstore.go and the file operations of pkg/state/store.go: the store is one register.
- Floats, times, the `json.Marshal` and `fmt` fallbacks: outside the value domain, so `appendValue` has no error path here.
- Base64 itself: an abstract injective encoding.
- Reading strings, surrogate pairs and UTF-8: a decoded string is its sequence of code units, a `\u` escape one unit.
- Durations: timers and tickers are steps that may fire at any moment, so the model has more behaviours than the code.
- Micro-batch boundaries of the source: in `Pipeline` a send carries any number of events, and staging may be flushed at any moment; this too only adds behaviours.
- Aliasing: events are values, so the reuse of the drained batch slice and the in-place key write of `Pick` appear as new values.
- Integer overflow of SeqNos, offsets and counters: unbounded here, except for the 32-bit hash and the 64-bit backoff.
- Transactions with an anonymous GTID event shared by several transactions, non-BEGIN queries inside a transaction and schema changes: outside the log-shape hypothesis.
- Table names with `|` or a backslash and columns whose type changes between rows: key injectivity is not promised for them.
- Topic names and their cache, `Depths`, size hints, HTTP handlers, metrics, configuration and logging: easy members only.
- Serialize.SortFunc: stands for the library sort of large rows through its contract, ordered permutation; its algorithm is not the library's.
- CleanStop.CleanStopReplaysLastTransaction: speaks of the rows that run published; rows that an earlier run published after its last save may be published again, as at-least-once delivery allows.
- The in-flight slots and the wait group that runs of one process share: a run's view has its own, which only adds behaviours (SharedSink); the shared sticky error is modelled.
- Delivery.ConsumerSeesPrefix: one log for all runs; in GTID mode with a different order after a failover only the set statement of World.NoGaps holds.
