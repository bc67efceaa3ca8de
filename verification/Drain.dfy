/** Clean shutdown: a run that returns nil, and whose drain timeout never
    fired, has published and saved everything its source sent. */
module Drain {
  import opened Prelude
  import opened Events
  import opened Pipeline
  import opened Flow
  import opened Safety
  import T = Tracking
  import S = SinkContract

  /** Something went wrong, or the run is over: events may be left behind. */
  ghost predicate Faulted(r: Run) {
    r.ctl.firstErr.Some? || r.ctl.drainTimedOut || r.sink.err.Some? || r.ctl.main.Returned?
  }

  /** A dispatcher that returned left nothing, unless the run is faulted. */
  ghost predicate Emptied(r: Run) {
    r.disp.returned ==>
      Faulted(r) || (r.srcDone && r.out == [] && r.disp.cur == [] && forall q :: 0 <= q < |r.disp.staging| ==> r.disp.staging[q] == [])
  }

  /** The publisher will drain again. */
  predicate Continues(p: Phase) { p.Draining? || (!p.Exited? && p.more) }

  /** A publisher that stops draining has a closed, empty queue, and one that
      exited kept nothing back, unless the run is faulted. */
  ghost predicate LeavesNothing(r: Run, q: nat)
    requires q < |r.pubs| && q < |r.disp.queues|
  {
    !Continues(r.pubs[q].phase) ==>
      Faulted(r) || (r.disp.returned && r.disp.queues[q] == [] && (r.pubs[q].phase.Exited? ==> r.pubs[q].buf == []))
  }

  ghost predicate Orderly(c: Config, r: Run) {
    && Shaped(c, r)
    && (r.ctl.hardCancelled ==> r.ctl.firstErr.Some? || r.ctl.drainTimedOut || r.ctl.main.Returned?)
    && (!r.ctl.main.Returned? ==> r.sink.epoch == 0)
    && Emptied(r)
    && forall q :: 0 <= q < c.queues ==> LeavesNothing(r, q)
  }

  /** Everything sent is reported and no goroutine will change that. */
  ghost predicate Complete(r: Run) {
    && AllExited(r) && r.tracker.next == r.sent + 1
    && forall b :: 0 <= b < |r.sink.batches| ==> r.sink.batches[b].finished
  }

  ghost predicate Clean(r: Run) { r.ctl.runErr.None? && !r.ctl.drainTimedOut }

  ghost predicate Ending(r: Run) {
    && ((r.ctl.main.Flushing? || r.ctl.main == Gathered(false)) ==> AllExited(r))
    && (r.ctl.main.Flushing? && !r.ctl.drainTimedOut && r.ctl.firstErr.Some? ==> r.sink.err.Some?)
    && (r.ctl.main in {Closing, Finalizing, FinalSaving, Returned} && Clean(r) ==> Complete(r))
  }

  ghost predicate Finals(r: Run) {
    && r.floor < r.tracker.next
    && (r.com.saving.Some? ==> r.com.saving.value.seqNo < r.tracker.next)
    && (r.ctl.main in {Finalizing, FinalSaving, Returned} ==> r.com.stopped)
    && (r.ctl.main.FinalSaving? ==>
          && r.com.saving.Some? && (r.com.effective ==> r.floor == r.com.saving.value.seqNo)
          && (Clean(r) ==> r.com.saving.value.seqNo == r.sent))
    && (r.ctl.main.Returned? && Clean(r) ==> r.floor == r.sent)
  }

  // ---- The pipeline empties ----

  lemma SrcKeepsOrder(c: Config, r: Run, step: SrcStep)
    requires ConfigOk(c) && Orderly(c, r) && SrcEnabled(c, r, step)
    ensures Orderly(c, SrcApply(r, step))
  {
    var t := SrcApply(r, step);
    forall q | 0 <= q < c.queues ensures LeavesNothing(t, q) { assert LeavesNothing(r, q); }
  }

  lemma DispKeepsOrder(c: Config, r: Run, step: DispStep)
    requires ConfigOk(c) && Orderly(c, r) && DispEnabled(c, r, step)
    ensures Orderly(c, DispApply(c, r, step))
  {
    hide Route;
    var t := DispApply(c, r, step);
    forall q | 0 <= q < c.queues ensures LeavesNothing(t, q) { assert LeavesNothing(r, q); }
  }

  lemma PubFaults(c: Config, r: Run, q: nat, step: PubStep)
    requires ConfigOk(c) && Shaped(c, r) && PubEnabled(c, r, q, step)
    ensures var t := PubApply(c, r, q, step);
            && (Faulted(r) ==> Faulted(t)) && t.sink.epoch == r.sink.epoch && t.sink.err == r.sink.err
            && (t.ctl.hardCancelled ==> r.ctl.hardCancelled || t.ctl.firstErr.Some?)
            && (step.Refused? || (step.SerializeFails? && !r.ctl.hardCancelled) ==> Faulted(t))
            && t.disp == r.disp.(queues := t.disp.queues) && t.out == r.out && t.srcDone == r.srcDone
  {
    hide S.Enabled;
  }

  lemma PubKeepsOrder(c: Config, r: Run, q: nat, step: PubStep)
    requires ConfigOk(c) && Orderly(c, r) && Flowing(c, r) && PubEnabled(c, r, q, step)
    ensures Orderly(c, PubApply(c, r, q, step))
  {
    hide FlowAt, SubmitAt, S.Enabled, S.Apply, Faulted;
    var t := PubApply(c, r, q, step);
    PubFaults(c, r, q, step);
    HardIsFaulted(c, r);
    PubFrame(c, r, q, step);
    assert ProducerAt(c, r, q);
    forall p | 0 <= p < c.queues ensures LeavesNothing(t, p) { assert LeavesNothing(r, p); }
  }

  lemma HardIsFaulted(c: Config, r: Run)
    requires Orderly(c, r)
    ensures r.ctl.hardCancelled ==> Faulted(r)
  {}

  lemma SinkKeepsOrder(c: Config, r: Run, step: SinkStep)
    requires ConfigOk(c) && Orderly(c, r) && SinkEnabled(c, r, step)
    ensures Orderly(c, SinkApply(c, r, step))
  {
    hide Filter, T.ReportBatch;
    var t := SinkApply(c, r, step);
    forall q | 0 <= q < c.queues ensures LeavesNothing(t, q) { assert LeavesNothing(r, q); }
  }

  /** What the committer and `run` do to a run: the pipeline is left alone,
      faults stay, a hard cancel has a reason. */
  ghost predicate Steers(c: Config, r: Run, t: Run) {
    && Shaped(c, t)
    && t.disp == r.disp && t.pubs == r.pubs && t.out == r.out && t.srcDone == r.srcDone && t.sink == r.sink
    && (t.ctl.hardCancelled ==> r.ctl.hardCancelled || t.ctl.firstErr.Some? || t.ctl.drainTimedOut || t.ctl.main.Returned?)
    && (r.ctl.firstErr.Some? ==> t.ctl.firstErr.Some?)
    && (r.ctl.drainTimedOut ==> t.ctl.drainTimedOut)
    && (r.ctl.main.Returned? ==> t.ctl.main.Returned?)
  }

  lemma ControlKeepsOrder(c: Config, r: Run, t: Run)
    requires Orderly(c, r) && Steers(c, r, t)
    ensures Orderly(c, t)
  {
    forall q | 0 <= q < c.queues ensures LeavesNothing(t, q) { assert LeavesNothing(r, q); }
  }

  lemma ComSteers(c: Config, r: Run, store: Position, step: ComStep)
    requires Shaped(c, r) && ComEnabled(r, step)
    ensures Steers(c, r, ComApply(r, store, step).0)
  {}

  lemma MainSteers(c: Config, r: Run, store: Position, step: MainStep)
    requires Shaped(c, r) && MainEnabled(r, step)
    ensures Steers(c, r, MainApply(r, store, step).0)
  {
    hide AllExited;
  }

  lemma StepKeepsOrder(c: Config, r: Run, store: Position, step: Step)
    requires ConfigOk(c) && Orderly(c, r) && Flowing(c, r) && Enabled(c, r, step)
    ensures Orderly(c, Apply(c, r, store, step).0)
  {
    hide Orderly, Flowing, SrcApply, SrcEnabled, DispEnabled, DispApply, PubEnabled, PubApply, SinkEnabled, SinkApply,
         ComEnabled, ComApply, MainEnabled, MainApply, Steers;
    match step
    case Src(s) => SrcKeepsOrder(c, r, s);
    case Disp(s) => DispKeepsOrder(c, r, s);
    case Pub(q, s) => PubKeepsOrder(c, r, q, s);
    case Snk(s) => SinkKeepsOrder(c, r, s);
    case Com(s) => ComSteers(c, r, store, s); ControlKeepsOrder(c, r, ComApply(r, store, s).0);
    case Ctl(s) => MainSteers(c, r, store, s); ControlKeepsOrder(c, r, MainApply(r, store, s).0);
  }

  // ---- Flush succeeds: everything sent is reported ----

  lemma {:induction false} InSomeBatch(bs: seq<S.Batch<Event>>, e: Event) returns (b: nat)
    requires e in Batched(bs)
    ensures b < |bs| && e in bs[b].events
  {
    assert bs != [];
    var n := |bs| - 1;
    if e in bs[n].events { b := n; } else { b := InSomeBatch(bs[..n], e); }
  }

  /** With the run unfaulted and every goroutine gone, lines are all batches. */
  lemma LineIsBatched(c: Config, r: Run, q: nat)
    requires ConfigOk(c) && Orderly(c, r) && Flowing(c, r) && AllExited(r) && !Faulted(r) && q < c.queues
    ensures Filter(On(c, q), Sent(r)) == Filter(On(c, q), Batched(r.sink.batches))
  {
    hide Route, On, Batched;
    assert FlowAt(c, r, q) && LeavesNothing(r, q);
    var f := Filter(On(c, q), Batched(r.sink.batches));
    assert LineOf(c, r, q) == f + [] + [] + [] + [] + [];
    assert f + [] + [] + [] + [] + [] == f;
  }

  lemma SentIsReported(c: Config, r: Run, n: nat)
    requires ConfigOk(c) && Orderly(c, r) && Flowing(c, r) && Acks(c, r) && AllExited(r) && !Faulted(r)
    requires forall b :: 0 <= b < |r.sink.batches| ==> r.sink.batches[b].finished
    requires 1 <= n <= r.sent
    ensures n in r.reported
  {
    hide Filter, Batched, Orderly, Flowing, LineOf, Line;
    FlowShape(c, r);
    var e := r.stream[n - 1];
    var q := Route(c, e);
    assert Sent(r)[n - 1] == e;
    FilterMember(On(c, q), Sent(r), e);
    LineIsBatched(c, r, q);
    FilterMember(On(c, q), Batched(r.sink.batches), e);
    var b := InSomeBatch(r.sink.batches, e);
    OrderlyEpoch(c, r);
    assert S.BatchOk(r.sink, r.sink.batches[b]) && BatchAcks(r, r.sink.batches[b]);
  }

  lemma FlowShape(c: Config, r: Run)
    requires ConfigOk(c) && Flowing(c, r)
    ensures Shaped(c, r)
  {}

  lemma OrderlyEpoch(c: Config, r: Run)
    requires Orderly(c, r)
    ensures !r.ctl.main.Returned? ==> r.sink.epoch == 0
  {}

  /** Nothing that was not sent is reported. */
  lemma ReportedIsSent(c: Config, r: Run, n: nat)
    requires ConfigOk(c) && Flowing(c, r) && Acks(c, r) && n in r.reported
    ensures 1 <= n <= r.sent
  {
    hide Filter, Batched, Flatten;
    var e := r.stream[n - 1];
    var q := Route(c, e);
    assert e in r.written && e in r.submitted;
    FilterMember(On(c, q), r.submitted, e);
    PublisherOrder(c, r, q);
    FilterMember(On(c, q), Sent(r), e);
    var i :| 0 <= i < |Sent(r)| && Sent(r)[i] == e;
    assert r.stream[i] == e;
  }

  lemma FlushCompletes(c: Config, r: Run)
    requires ConfigOk(c) && Orderly(c, r) && Flowing(c, r) && Acks(c, r) && AllExited(r) && !Faulted(r)
    requires forall b :: 0 <= b < |r.sink.batches| ==> r.sink.batches[b].finished
    ensures Complete(r)
  {
    hide Orderly, Flowing, BatchAcks;
    FlowShape(c, r);
    if r.tracker.next <= r.sent { SentIsReported(c, r, r.tracker.next); }
    if r.tracker.next > r.sent + 1 { ReportedIsSent(c, r, r.sent + 1); }
  }

  // ---- Nothing undoes a completed run ----

  lemma NoPublisherLeft(c: Config, r: Run, q: nat, step: PubStep)
    requires ConfigOk(c) && Shaped(c, r) && AllExited(r)
    ensures !PubEnabled(c, r, q, step)
  {}

  lemma NothingPending(c: Config, r: Run, b: nat, i: nat)
    requires Acks(c, r) && forall b :: 0 <= b < |r.sink.batches| ==> r.sink.batches[b].finished
    ensures b < |r.sink.batches| && i < |r.sink.batches[b].events| ==> !S.Pending(r.sink, b, i)
  {
    if b < |r.sink.batches| { assert S.BatchOk(r.sink, r.sink.batches[b]); }
  }

  lemma CompleteStays(c: Config, r: Run, store: Position, step: Step)
    requires ConfigOk(c) && Complete(r) && Acks(c, r) && Enabled(c, r, step)
    ensures var t := Apply(c, r, store, step).0; Complete(t) && t.sent == r.sent && t.tracker.next == r.tracker.next
  {
    hide Route, BatchAcks, T.Tracks, T.ReportBatch, Filter, S.InUse;
    match step
    case Src(s) =>
    case Disp(s) =>
    case Pub(q, s) => NoPublisherLeft(c, r, q, s);
    case Snk(s) => SinkStaysComplete(c, r, s);
    case Com(s) => ComFrame(r, store, s);
    case Ctl(s) => MainFrame(r, store, s);
  }

  lemma SinkStaysComplete(c: Config, r: Run, step: SinkStep)
    requires ConfigOk(c) && Complete(r) && Acks(c, r) && SinkEnabled(c, r, step)
    ensures var t := SinkApply(c, r, step); Complete(t) && t.sent == r.sent && t.tracker.next == r.tracker.next
  {
    hide Route, BatchAcks, T.Tracks, T.ReportBatch, Filter, S.InUse;
    if step.Resolve? { NothingPending(c, r, step.b, step.i); }
  }

  // ---- The ending of a run ----

  /** Steps of goroutines and of the committer: `run` itself does not move. */
  lemma OthersKeepEnding(c: Config, r: Run, store: Position, step: Step)
    requires ConfigOk(c) && Ending(r) && Acks(c, r) && Orderly(c, r) && Flowing(c, r) && Enabled(c, r, step) && !step.Ctl?
    ensures Ending(Apply(c, r, store, step).0)
  {
    hide Complete, Flowing, Acks, T.ReportBatch, Filter, Route, S.Enabled, Orderly;
    var t := Apply(c, r, store, step).0;
    if Complete(r) { CompleteStays(c, r, store, step); }
    if AllExited(r) { ExitedStays(c, r, store, step); }
  }

  /** Once every goroutine is gone, only the committer's poll of the sink can
      record an error. */
  lemma ExitedStays(c: Config, r: Run, store: Position, step: Step)
    requires ConfigOk(c) && AllExited(r) && Enabled(c, r, step) && !step.Ctl?
    ensures var t := Apply(c, r, store, step).0;
            && AllExited(t)
            && t.ctl == r.ctl.(firstErr := t.ctl.firstErr, hardCancelled := t.ctl.hardCancelled)
            && (t.ctl.firstErr.Some? ==> r.ctl.firstErr.Some? || t.sink.err.Some?)
            && (r.sink.err.Some? ==> t.sink.err.Some? || r.ctl.main.Returned?)
  {
    hide Route, Filter, T.ReportBatch, S.Enabled, PubEnabled, PubApply, SinkEnabled;
    match step
    case Src(s) =>
    case Disp(s) =>
    case Pub(q, s) => NoPublisherLeft(c, r, q, s);
    case Snk(s) => SinkErrStays(c, r, s);
    case Com(s) =>
  }

  lemma SinkErrStays(c: Config, r: Run, step: SinkStep)
    requires SinkEnabled(c, r, step)
    ensures var t := SinkApply(c, r, step);
            && t.ctl == r.ctl && t.pubs == r.pubs && t.disp == r.disp && t.srcDone == r.srcDone
            && (r.sink.err.Some? ==> t.sink.err.Some? || r.ctl.main.Returned?)
  {
    hide Filter, T.ReportBatch;
  }

  lemma MainKeepsEnding(c: Config, r: Run, store: Position, step: MainStep)
    requires ConfigOk(c) && Ending(r) && Acks(c, r) && Orderly(c, r) && Flowing(c, r) && Shaped(c, r) && MainEnabled(r, step)
    ensures Ending(MainApply(r, store, step).0)
  {
    hide Flowing, Acks, Orderly;
    if step.FlushOk? && !r.ctl.drainTimedOut { FlushCompletes(c, r); }
  }

  lemma StepKeepsEnding(c: Config, r: Run, store: Position, step: Step)
    requires ConfigOk(c) && Ending(r) && Acks(c, r) && Orderly(c, r) && Flowing(c, r) && Enabled(c, r, step)
    ensures Ending(Apply(c, r, store, step).0)
  {
    hide Ending, Acks, Orderly, Flowing, MainEnabled, MainApply;
    if step.Ctl? { MainKeepsEnding(c, r, store, step.main); } else { OthersKeepEnding(c, r, store, step); }
  }

  // ---- The final save ----

  lemma CheckpointSeqNo(c: Config, r: Run)
    requires Acks(c, r)
    ensures r.tracker.has ==> r.tracker.ckpt.seqNo == r.tracker.next - 1
    ensures r.tracker.has <==> r.tracker.next > 1
  {}

  lemma CommitterKeepsFinals(c: Config, r: Run, store: Position, step: ComStep)
    requires Finals(r) && Acks(c, r) && ComEnabled(r, step) && (r.tracker.dirty ==> r.tracker.has)
    ensures Finals(ComApply(r, store, step).0)
  {
    hide Acks;
    CheckpointSeqNo(c, r);
  }

  lemma MainKeepsFinals(c: Config, r: Run, store: Position, step: MainStep)
    requires Finals(r) && Ending(r) && Acks(c, r) && MainEnabled(r, step)
    ensures Finals(MainApply(r, store, step).0)
  {
    hide Acks, AllExited;
    CheckpointSeqNo(c, r);
  }

  lemma OthersKeepFinals(c: Config, r: Run, t: Run)
    requires Finals(r) && Ending(r)
    requires t.com == r.com && t.floor == r.floor && t.tracker.next >= r.tracker.next
    requires t.ctl == r.ctl.(firstErr := t.ctl.firstErr, hardCancelled := t.ctl.hardCancelled)
    requires Complete(r) ==> t.sent == r.sent
    ensures Finals(t)
  {
    hide Complete;
  }

  lemma StepKeepsFinals(c: Config, r: Run, store: Position, step: Step)
    requires ConfigOk(c) && Finals(r) && Ending(r) && Acks(c, r) && Enabled(c, r, step)
    requires r.tracker.dirty ==> r.tracker.has
    ensures Finals(Apply(c, r, store, step).0)
  {
    hide Acks, Complete, Finals, Ending, SrcApply, DispEnabled, DispApply, PubEnabled, PubApply, SinkEnabled,
         SinkApply, ComEnabled, ComApply, MainEnabled, MainApply;
    if Complete(r) { CompleteStays(c, r, store, step); }
    match step
    case Src(s) => SrcFrame(c, r, s); OthersKeepFinals(c, r, SrcApply(r, s));
    case Disp(s) => DispFrame(c, r, s); OthersKeepFinals(c, r, DispApply(c, r, s));
    case Pub(q, s) => PubFrame(c, r, q, s); OthersKeepFinals(c, r, PubApply(c, r, q, s));
    case Snk(s) => SinkKeepsFinals(c, r, s); OthersKeepFinals(c, r, SinkApply(c, r, s));
    case Com(s) => CommitterKeepsFinals(c, r, store, s);
    case Ctl(s) => MainKeepsFinals(c, r, store, s);
  }

  lemma SinkKeepsFinals(c: Config, r: Run, step: SinkStep)
    requires ConfigOk(c) && Acks(c, r) && SinkEnabled(c, r, step)
    ensures var t := SinkApply(c, r, step);
            && t.tracker.next >= r.tracker.next && t.com == r.com && t.floor == r.floor && t.ctl == r.ctl && t.sent == r.sent
  {
    hide Acks, T.ReportBatch;
    if step.RunDone? { DoneKeepsAcks(c, r, step.b); }
  }

  /** A run that returned nil with no drain timeout: everything its source
      sent was acknowledged and reported, and the last save that took effect
      is of the last event sent. */
  lemma CleanRunIsComplete(c: Config, r: Run)
    requires Ending(r) && Finals(r) && Acks(c, r) && r.ctl.main.Returned? && Clean(r)
    ensures forall n :: 1 <= n <= r.sent ==> n in r.acked
    ensures r.floor == r.sent && r.tracker.next == r.sent + 1
  {}

  lemma StartIsOrderly(c: Config, stream: seq<Event>, store: Position)
    requires ConfigOk(c)
    ensures var r := Start(c, stream, store); Orderly(c, r) && Ending(r) && Finals(r)
  {}
}
