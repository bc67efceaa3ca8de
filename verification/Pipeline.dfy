/** pkg/hyperloop/hyperloop.go with pkg/dispatch: one run of a hyperloop as a
    state machine. Every goroutine, channel and timer is explicit; a step is
    one action of one of them, and any enabled step may happen next. */
module Pipeline {
  import opened Prelude
  import opened Events
  import T = Tracking
  import S = SinkContract
  import Keys

  /** The shape of a hyperloop. `partition` maps a table and a record key to
      a Kafka partition. */
  datatype Config = Config(queues: nat, queueCapacity: nat, batchMax: nat, maxInflight: nat,
                           overrides: map<string, seq<string>>, partition: (string, string) -> nat)

  /** withDefaults of the hyperloop and of the Kafka sink: positive sizes are
      kept. */
  function WithDefaults(queues: int, queueCapacity: int, batchMax: int, maxInflight: int,
                        overrides: map<string, seq<string>>, partition: (string, string) -> nat): (c: Config)
    ensures ConfigOk(c) && c.overrides == overrides && c.partition == partition
    ensures c.queues == (if queues > 0 then queues else 4) && c.queueCapacity == (if queueCapacity > 0 then queueCapacity else 4096)
    ensures c.batchMax == (if batchMax > 0 then batchMax else 500) && c.maxInflight == (if maxInflight > 0 then maxInflight else 32)
  {
    Config(if queues <= 0 then 4 else queues, if queueCapacity <= 0 then 4096 else queueCapacity,
           if batchMax <= 0 then 500 else batchMax, if maxInflight <= 0 then 32 else maxInflight, overrides, partition)
  }

  predicate ConfigOk(c: Config) {
    c.queues > 0 && c.queueCapacity > 0 && c.batchMax > 0 && c.maxInflight > 0
  }

  /** Micro-batch size of the channel hops. */
  function FlushSize(c: Config): nat { if c.batchMax > 256 then 256 else c.batchMax }

  /** Capacity, in micro-batches, of each queue and of the source's channel. */
  function Slots(c: Config): nat
    requires ConfigOk(c)
  {
    if c.queueCapacity / FlushSize(c) < 2 then 2 else c.queueCapacity / FlushSize(c)
  }

  function RecordKey(c: Config, e: Event): string { Keys.DefaultKey(c.overrides, e) }

  function Route(c: Config, e: Event): (q: nat)
    requires ConfigOk(c)
    ensures q < c.queues
  {
    Keys.QueueOf(RecordKey(c, e), c.queues)
  }

  function PartitionOf(c: Config, e: Event): nat { c.partition(Fqtn(e.meta), RecordKey(c, e)) }

  /** The events of queue q. */
  function On(c: Config, q: nat): Event -> bool
    requires ConfigOk(c)
  {
    (e: Event) => Route(c, e) == q
  }

  /** The records of partition p. */
  function In(c: Config, p: nat): Event -> bool {
    (e: Event) => PartitionOf(c, e) == p
  }

  // ---- State ----

  /** The dispatcher: the rest of the batch it is routing, staging slices,
      queue channels. The queues are closed once it has returned. */
  datatype Dispatcher = Dispatcher(cur: seq<Event>, staging: seq<seq<Event>>, queues: seq<seq<seq<Event>>>, returned: bool)

  /** Where a publisher is: in drainBatch, then through PublishBatch. `more`
      is drainBatch's `open`. */
  datatype Phase = Draining | Checking(more: bool) | Acquiring(more: bool) | Producing(b: nat, more: bool) | Exited

  datatype Publisher = Publisher(buf: seq<Event>, phase: Phase)

  /** The committer: the save in progress and whether it has taken effect. */
  datatype Committer = Committer(saving: Option<Position>, effective: bool, stopped: bool)

  /** Where `run` is. */
  datatype Main = Running | Stopping | Cancelling | Gathered(abandoned: bool) | Flushing
                | Closing | Finalizing | FinalSaving | Returned

  datatype Control = Control(main: Main, firstErr: Option<Error>, runErr: Option<Error>,
                             hardCancelled: bool, drainTimedOut: bool)

  /** A run. `stream` is what its source emits from its start if never
      stopped; `submitted` and `written` are the records handed to the
      producer and written to Kafka, `acked` and `reported` the SeqNos
      acknowledged and reported to the tracker, `floor` the SeqNo of the last
      save that took effect in this run. */
  datatype Run = Run(stream: seq<Event>, sent: nat, srcDone: bool, out: seq<seq<Event>>,
                     disp: Dispatcher, pubs: seq<Publisher>,
                     sink: S.Sink<Event>, submitted: seq<Event>, written: seq<Event>, acked: set<nat>,
                     tracker: T.State, reported: set<nat>,
                     com: Committer, persisted: Position, floor: nat, ctl: Control)

  function Start(c: Config, stream: seq<Event>, store: Position): Run {
    Run(stream, 0, false, [],
        Dispatcher([], seq(c.queues, _ => []), seq(c.queues, _ => []), false),
        seq(c.queues, _ => Publisher([], Draining)),
        S.INITIAL(), [], [], {}, T.INITIAL, {}, Committer(None, false, false), store, 0,
        Control(Running, None, None, false, false))
  }

  ghost predicate Shaped(c: Config, r: Run) {
    |r.disp.staging| == c.queues && |r.disp.queues| == c.queues && |r.pubs| == c.queues && r.sent <= |r.stream|
  }

  // ---- Steps ----

  datatype SrcStep = Send(n: nat) | End(err: Option<Error>)
  datatype DispStep = Receive | Stage | Flush(q: nat) | Close | DispCancel
  datatype PubStep = Take | Drained | Closed | DrainCancel | Check | Refused | SerializeFails
                   | Acquire | AcquireCancel | Produce | Submit
  datatype SinkStep = Write(i: nat) | Resolve(b: nat, i: nat, ok: bool) | Fault(e: Error)
                    | Release(b: nat) | RunDone(b: nat) | Finish(b: nat) | ResetSink
  datatype ComStep = Poll | SaveBegins | SaveTakesEffect | SaveOk | SaveFails | Stop
  datatype MainStep = GracefulStop | DrainTimesOut | Abandon | AllFinished | ReadErr | FlushOk | FlushFails(e: Error)
                    | CommitterGone | FinalBegins | FinalTakesEffect | FinalOk | FinalFails

  datatype Step = Src(src: SrcStep) | Disp(disp: DispStep) | Pub(q: nat, pub: PubStep)
                | Snk(snk: SinkStep) | Com(com: ComStep) | Ctl(main: MainStep)

  /** `fail`: an error that wraps context.Canceled is ignored; the first other
      one is kept and cancels everything. */
  function Fail(ctl: Control, err: Option<Error>): Control {
    if err.None? || err.value.Cancelled? || ctl.firstErr.Some? then ctl
    else ctl.(firstErr := err, hardCancelled := true)
  }

  ghost predicate SrcEnabled(c: Config, r: Run, step: SrcStep)
    requires ConfigOk(c)
  {
    !r.srcDone && (step.Send? ==> 0 < step.n && r.sent + step.n <= |r.stream| && |r.out| < Slots(c))
  }

  function SrcApply(r: Run, step: SrcStep): Run
    requires step.Send? ==> r.sent + step.n <= |r.stream|
  {
    match step
    case Send(n) => r.(sent := r.sent + n, out := r.out + [r.stream[r.sent..r.sent + n]])
    case End(err) => r.(srcDone := true, ctl := Fail(r.ctl, err))
  }

  ghost predicate DispEnabled(c: Config, r: Run, step: DispStep)
    requires ConfigOk(c) && Shaped(c, r)
  {
    var d := r.disp;
    && !d.returned
    && match step
       case Receive => d.cur == [] && r.out != []
       case Stage => d.cur != [] && |d.staging[Route(c, d.cur[0])]| < FlushSize(c)
       case Flush(q) => q < c.queues && d.staging[q] != [] && |d.queues[q]| < Slots(c)
       case Close => r.srcDone && r.out == [] && d.cur == [] && forall q :: 0 <= q < c.queues ==> d.staging[q] == []
       case DispCancel => r.ctl.hardCancelled
  }

  ghost function DispApply(c: Config, r: Run, step: DispStep): Run
    requires ConfigOk(c) && Shaped(c, r) && DispEnabled(c, r, step)
  {
    var d := r.disp;
    match step
    case Receive => r.(out := r.out[1..], disp := d.(cur := r.out[0]))
    case Stage =>
      var q := Route(c, d.cur[0]);
      r.(disp := d.(cur := d.cur[1..], staging := d.staging[q := d.staging[q] + [d.cur[0]]]))
    case Flush(q) =>
      r.(disp := d.(queues := d.queues[q := d.queues[q] + [d.staging[q]]], staging := d.staging[q := []]))
    case Close => r.(disp := d.(returned := true))
    case DispCancel => r.(disp := d.(returned := true))
  }

  ghost predicate PubEnabled(c: Config, r: Run, q: nat, step: PubStep)
    requires ConfigOk(c) && Shaped(c, r)
  {
    && q < c.queues
    && var p := r.pubs[q];
       match step
       case Take => p.phase.Draining? && r.disp.queues[q] != [] && |p.buf| < c.batchMax
       case Drained => p.phase.Draining? && p.buf != []
       case Closed => p.phase.Draining? && r.disp.queues[q] == [] && r.disp.returned
       case DrainCancel => p.phase.Draining? && r.ctl.hardCancelled
       case Check => p.phase.Checking? && r.sink.err.None?
       case Refused => p.phase.Checking? && r.sink.err.Some?
       case SerializeFails => p.phase.Checking? && r.sink.err.None?
       case Acquire => p.phase.Acquiring? && S.Enabled(c.maxInflight, r.sink, S.Open(p.buf))
       case AcquireCancel => p.phase.Acquiring? && r.ctl.hardCancelled
       case Produce => p.phase.Producing? && S.Enabled(c.maxInflight, r.sink, S.Produce(p.phase.b))
       case Submit => p.phase.Producing? && p.phase.b < |r.sink.batches|
                      && r.sink.batches[p.phase.b].produced == |r.sink.batches[p.phase.b].events|
  }

  /** An error of PublishBatch: after a hard cancel it is not a fault. */
  function PublishError(ctl: Control, err: Option<Error>): Control {
    if ctl.hardCancelled then ctl else Fail(ctl, err)
  }

  ghost function PubApply(c: Config, r: Run, q: nat, step: PubStep): Run
    requires ConfigOk(c) && Shaped(c, r) && PubEnabled(c, r, q, step)
  {
    var p := r.pubs[q];
    match step
    case Take =>
      r.(disp := r.disp.(queues := r.disp.queues[q := r.disp.queues[q][1..]]),
         pubs := r.pubs[q := p.(buf := p.buf + r.disp.queues[q][0])])
    case Drained => SetPhase(r, q, Checking(true))
    case Closed => SetPhase(r, q, if p.buf == [] then Exited else Checking(false))
    case DrainCancel => SetPhase(r, q, if p.buf == [] then Exited else Checking(false))
    case Check => SetPhase(r, q, Acquiring(p.phase.more))
    case Refused => SetPhase(r, q, Exited).(ctl := PublishError(r.ctl, r.sink.err))
    case SerializeFails => SetPhase(r, q, Exited).(ctl := PublishError(r.ctl, Some(Other)))
    case Acquire =>
      r.(sink := S.Apply(r.sink, S.Open(p.buf)),
         pubs := r.pubs[q := Publisher([], Producing(|r.sink.batches|, p.phase.more))])
    case AcquireCancel => SetPhase(r, q, Exited)
    case Produce =>
      var b := r.sink.batches[p.phase.b];
      r.(sink := S.Apply(r.sink, S.Produce(p.phase.b)), submitted := r.submitted + [b.events[b.produced]])
    case Submit => SetPhase(r, q, if p.phase.more then Draining else Exited)
  }

  function SetPhase(r: Run, q: nat, phase: Phase): Run
    requires q < |r.pubs|
  {
    r.(pubs := r.pubs[q := r.pubs[q].(phase := phase)])
  }

  /** Kafka may append a submitted record at any moment, in any order, again or
      never; only an appended record is acknowledged. */
  ghost predicate SinkEnabled(c: Config, r: Run, step: SinkStep) {
    match step
    case Write(i) => i < |r.submitted|
    case Resolve(b, i, ok) =>
      && S.Pending(r.sink, b, i) && i < |r.sink.batches[b].events|
      && (ok ==> r.sink.batches[b].events[i] in r.written)
    case Fault(_) => true
    case Release(b) => S.Enabled(c.maxInflight, r.sink, S.Release(b))
    case RunDone(b) => S.Enabled(c.maxInflight, r.sink, S.Done(b))
    case Finish(b) => S.Enabled(c.maxInflight, r.sink, S.Finish(b))
    case ResetSink => r.ctl.main.Returned?
  }

  /** The order an idempotent producer keeps, an assumption of the ordering
      theorems only: what a run has written to a partition is a prefix of what
      it submitted to it. */
  ghost predicate InPartitionOrder(c: Config, r: Run) {
    forall p: nat :: Filter(In(c, p), r.written) <= Filter(In(c, p), r.submitted)
  }

  /** The positions PublishBatch hands to the done callback. */
  function Positions(es: seq<Event>): seq<Position> {
    if es == [] then [] else [es[0].pos] + Positions(es[1..])
  }

  ghost function SinkApply(c: Config, r: Run, step: SinkStep): Run
    requires SinkEnabled(c, r, step)
  {
    match step
    case Write(i) => r.(written := r.written + [r.submitted[i]])
    case Resolve(b, i, ok) =>
      if ok then r.(sink := S.Apply(r.sink, S.Ack(b, i)), acked := r.acked + {r.sink.batches[b].events[i].pos.seqNo})
      else r.(sink := S.Apply(r.sink, S.Fail(b, i)))
    case Fault(e) => r.(sink := S.Apply(r.sink, S.SetErr(e)))
    case Release(b) => r.(sink := S.Apply(r.sink, S.Release(b)))
    case RunDone(b) =>
      var ps := Positions(r.sink.batches[b].events);
      r.(sink := S.Apply(r.sink, S.Done(b)),
         tracker := T.ReportBatch(r.tracker, ps), reported := r.reported + T.SeqNos(ps))
    case Finish(b) => r.(sink := S.Apply(r.sink, S.Finish(b)))
    case ResetSink => r.(sink := S.Apply(r.sink, S.Reset))
  }

  predicate ComEnabled(r: Run, step: ComStep) {
    && !r.com.stopped
    && match step
       case Poll => r.sink.err.Some?
       case SaveBegins => r.com.saving.None? && r.tracker.dirty
       case SaveTakesEffect => r.com.saving.Some? && !r.com.effective
       case SaveOk => r.com.saving.Some? && r.com.effective
       case SaveFails => r.com.saving.Some?
       case Stop => r.com.saving.None? && r.ctl.main.Closing?
  }

  /** A save reads the checkpoint, later takes effect or not, later returns;
      a failed one may have taken effect. */
  function ComApply(r: Run, store: Position, step: ComStep): (Run, Position)
    requires ComEnabled(r, step)
  {
    match step
    case Poll => (r.(ctl := Fail(r.ctl, r.sink.err)), store)
    case SaveBegins =>
      (r.(com := r.com.(saving := Some(r.tracker.ckpt), effective := false), tracker := r.tracker.(dirty := false)), store)
    case SaveTakesEffect =>
      (r.(com := r.com.(effective := true), floor := r.com.saving.value.seqNo), r.com.saving.value)
    case SaveOk => (r.(com := r.com.(saving := None), persisted := r.com.saving.value), store)
    case SaveFails =>
      (r.(com := r.com.(saving := None), tracker := r.tracker.(dirty := r.tracker.has || r.tracker.dirty)), store)
    case Stop => (r.(com := r.com.(stopped := true)), store)
  }

  ghost predicate AllExited(r: Run) {
    r.srcDone && r.disp.returned && forall q :: 0 <= q < |r.pubs| ==> r.pubs[q].phase.Exited?
  }

  ghost predicate MainEnabled(r: Run, step: MainStep) {
    match step
    case GracefulStop => r.ctl.main.Running?
    case DrainTimesOut => r.ctl.main.Stopping?
    case Abandon => r.ctl.main.Cancelling?
    case AllFinished => (r.ctl.main.Running? || r.ctl.main.Stopping? || r.ctl.main.Cancelling?) && AllExited(r)
    case ReadErr => r.ctl.main.Gathered?
    case FlushOk =>
      && r.ctl.main.Flushing? && r.sink.err.None?
      && forall b :: 0 <= b < |r.sink.batches| ==> r.sink.batches[b].finished
    case FlushFails(_) => r.ctl.main.Flushing?
    case CommitterGone => r.ctl.main.Closing? && r.com.stopped
    case FinalBegins => r.ctl.main.Finalizing?
    case FinalTakesEffect => r.ctl.main.FinalSaving? && r.com.saving.Some? && !r.com.effective
    case FinalOk => r.ctl.main.FinalSaving? && r.com.saving.Some? && r.com.effective
    case FinalFails => r.ctl.main.FinalSaving? && r.com.saving.Some?
  }

  /** `run` returns: its deferred cancels fire. */
  function Return(r: Run, err: Option<Error>): Run {
    r.(ctl := r.ctl.(main := Returned, runErr := err, hardCancelled := true), com := r.com.(saving := None))
  }

  ghost function MainApply(r: Run, store: Position, step: MainStep): (Run, Position)
    requires MainEnabled(r, step)
  {
    match step
    case GracefulStop => (r.(ctl := r.ctl.(main := Stopping)), store)
    case DrainTimesOut => (r.(ctl := r.ctl.(main := Cancelling, hardCancelled := true, drainTimedOut := true)), store)
    case Abandon => (r.(ctl := r.ctl.(main := Gathered(true))), store)
    case AllFinished => (r.(ctl := r.ctl.(main := Gathered(false))), store)
    case ReadErr =>
      var err := if r.ctl.firstErr.None? && r.ctl.main.abandoned then Some(Other) else r.ctl.firstErr;
      (r.(ctl := r.ctl.(main := if err.None? then Flushing else Closing, runErr := err)), store)
    case FlushOk => (r.(ctl := r.ctl.(main := Closing)), store)
    case FlushFails(e) => (r.(ctl := r.ctl.(main := Closing, runErr := Some(e))), store)
    case CommitterGone => (r.(ctl := r.ctl.(main := Finalizing)), store)
    case FinalBegins =>
      if !r.tracker.has then (Return(r, r.ctl.runErr), store)
      else (r.(ctl := r.ctl.(main := FinalSaving), com := r.com.(saving := Some(r.tracker.ckpt), effective := false)), store)
    case FinalTakesEffect =>
      (r.(com := r.com.(effective := true), floor := r.com.saving.value.seqNo), r.com.saving.value)
    case FinalOk => (Return(r, r.ctl.runErr).(persisted := r.com.saving.value), store)
    case FinalFails => (Return(r, if r.ctl.runErr.None? then Some(Other) else r.ctl.runErr), store)
  }

  ghost predicate Enabled(c: Config, r: Run, step: Step)
    requires ConfigOk(c)
  {
    && Shaped(c, r)
    && match step
       case Src(s) => SrcEnabled(c, r, s)
       case Disp(s) => DispEnabled(c, r, s)
       case Pub(q, s) => PubEnabled(c, r, q, s)
       case Snk(s) => SinkEnabled(c, r, s)
       case Com(s) => ComEnabled(r, s)
       case Ctl(s) => MainEnabled(r, s)
  }

  /** The run and the state store after a step. */
  ghost function Apply(c: Config, r: Run, store: Position, step: Step): (Run, Position)
    requires ConfigOk(c) && Enabled(c, r, step)
  {
    match step
    case Src(s) => (SrcApply(r, s), store)
    case Disp(s) => (DispApply(c, r, s), store)
    case Pub(q, s) => (PubApply(c, r, q, s), store)
    case Snk(s) => (SinkApply(c, r, s), store)
    case Com(s) => ComApply(r, store, s)
    case Ctl(s) => MainApply(r, store, s)
  }
}
