/** Whole runs: what holds in every state a run can reach, however its
    goroutines, timers, the sink and the store interleave. */
module Runs {
  import opened Prelude
  import opened Events
  import opened Pipeline
  import opened Flow
  import opened Safety
  import opened Drain
  import opened Bound
  import opened Conservation
  import T = Tracking
  import S = SinkContract

  ghost predicate Follows(c: Config, r: Run, t: Run)
    requires ConfigOk(c)
  {
    exists store, step :: Enabled(c, r, step) && t == Apply(c, r, store, step).0
  }

  /** The states of a run that loaded `loaded`, in order. */
  ghost predicate IsRun(c: Config, stream: seq<Event>, loaded: Position, rs: seq<Run>)
    requires ConfigOk(c)
  {
    && rs != [] && rs[0] == Start(c, stream, loaded)
    && forall i :: 0 <= i < |rs| - 1 ==> Follows(c, rs[i], rs[i + 1])
  }

  ghost predicate Kept(c: Config, r: Run)
    requires ConfigOk(c)
  {
    && Flowing(c, r) && Acks(c, r) && Sized(c, r)
    && Orderly(c, r) && Ending(r) && Finals(r)
    && (r.tracker.dirty ==> r.tracker.has)
  }

  lemma StartIsKept(c: Config, stream: seq<Event>, loaded: Position)
    requires ConfigOk(c) && T.Numbered(stream)
    ensures Kept(c, Start(c, stream, loaded))
  {
    hide Flowing, Acks, Sized, Orderly, Ending, Finals;
    StartFlows(c, stream, loaded);
    StartIsSafe(c, stream, loaded);
    StartIsSized(c, stream, loaded);
    StartIsOrderly(c, stream, loaded);
  }

  lemma DirtyHasCheckpoint(c: Config, r: Run, store: Position, step: Step)
    requires ConfigOk(c) && Acks(c, r) && Enabled(c, r, step) && (r.tracker.dirty ==> r.tracker.has)
    requires Acks(c, Apply(c, r, store, step).0)
    ensures var t := Apply(c, r, store, step).0; t.tracker.dirty ==> t.tracker.has
  {
    hide Acks, SrcApply, DispEnabled, DispApply, PubEnabled, PubApply, S.Apply, T.ReportBatch, Positions, T.SeqNos;
    NextInStream(c, r);
    NextInStream(c, Apply(c, r, store, step).0);
    match step
    case Src(s) => SrcFrame(c, r, s);
    case Disp(s) => DispFrame(c, r, s);
    case Pub(q, s) => PubFrame(c, r, q, s);
    case Snk(s) => if s.RunDone? { DoneKeepsAcks(c, r, s.b); }
    case Com(s) =>
    case Ctl(s) =>
  }

  lemma StepIsKept(c: Config, r: Run, store: Position, step: Step)
    requires ConfigOk(c) && Kept(c, r) && Enabled(c, r, step)
    ensures Kept(c, Apply(c, r, store, step).0)
  {
    hide Flowing, Acks, Sized, Orderly, Ending, Finals, Enabled, Apply;
    StepKeepsFlow(c, r, store, step);
    StepKeepsAcks(c, r, store, step);
    StepKeepsSizes(c, r, store, step);
    StepKeepsOrder(c, r, store, step);
    StepKeepsEnding(c, r, store, step);
    StepKeepsFinals(c, r, store, step);
    DirtyHasCheckpoint(c, r, store, step);
  }

  lemma {:induction false} RunIsKept(c: Config, stream: seq<Event>, loaded: Position, rs: seq<Run>)
    requires ConfigOk(c) && T.Numbered(stream) && IsRun(c, stream, loaded, rs)
    ensures Kept(c, rs[|rs| - 1])
    decreases |rs|
  {
    hide Kept, Enabled, Apply, Start;
    var n := |rs| - 1;
    if n == 0 {
      StartIsKept(c, stream, loaded);
    } else {
      RunIsKept(c, stream, loaded, rs[..n]);
      assert Follows(c, rs[n - 1], rs[n]);
      var store, step :| Enabled(c, rs[n - 1], step) && rs[n] == Apply(c, rs[n - 1], store, step).0;
      StepIsKept(c, rs[n - 1], store, step);
    }
  }

  /** ORDER. In every state of every run, what publisher q has handed to the
      producer is a prefix of what the source sent for queue q, and the same
      holds for every record key. */
  lemma EveryRunKeepsOrder(c: Config, stream: seq<Event>, loaded: Position, rs: seq<Run>, q: nat, key: string)
    requires ConfigOk(c) && T.Numbered(stream) && IsRun(c, stream, loaded, rs) && q < c.queues
    ensures var r := rs[|rs| - 1];
            && Shaped(c, r)
            && Filter(On(c, q), r.submitted) <= Filter(On(c, q), Sent(r))
            && Filter(WithKey(c, key), r.submitted) <= Filter(WithKey(c, key), Sent(r))
  {
    hide Acks, Sized, Orderly, Ending, Finals, Filter;
    RunIsKept(c, stream, loaded, rs);
    PublisherOrder(c, rs[|rs| - 1], q);
    KeyOrder(c, rs[|rs| - 1], key);
  }

  /** CONSERVATION. In every state of every run an event that was sent for a
      queue is in exactly one of eight places: an acknowledged, a failed or an
      open record of a batch, the publisher's buffer, the queue, staging, the
      dispatcher's hands, the source's channel. An event of another queue and
      one that was not sent is in none. The unresolved ones stay under the
      bound. */
  lemma EveryRunConserves(c: Config, stream: seq<Event>, loaded: Position, rs: seq<Run>, q: nat, e: Event)
    requires ConfigOk(c) && T.Numbered(stream) && IsRun(c, stream, loaded, rs) && q < c.queues
    ensures var r := rs[|rs| - 1];
            && Shaped(c, r)
            && Places(c, r, q, e) == Count(e in Sent(r) && Route(c, e) == q)
            && Distinct(LineOf(c, r, q)) && (e in LineOf(c, r, q) <==> e in Sent(r) && Route(c, e) == q)
            && r.sent == |Flatten(r.out)| + |r.disp.cur| + Unresolved(c, r) + ResolvedIn(r.sink.batches)
            && var micro := Min(c.batchMax, 256);
               && micro > 0
               && Unresolved(c, r) <= c.queues * (Max(c.queueCapacity / micro, 2) * micro + c.batchMax + 2 * micro - 1)
                                      + c.maxInflight * (c.batchMax + micro - 1)
  {
    hide Orderly, Ending, Finals, Filter, LineOf, Route, Unresolved, Places, FlowAt, SubmitAt, ProducerAt;
    RunIsKept(c, stream, loaded, rs);
    ExactlyOnePlace(c, rs[|rs| - 1], q, e);
    ExactlyOneOfEight(c, rs[|rs| - 1], q, e);
    UnresolvedIsBounded(c, rs[|rs| - 1]);
    SentAddsUp(c, rs[|rs| - 1]);
  }

  /** CLEAN DRAIN. Whenever a run has returned nil and its drain timeout never
      fired, everything its source sent was acknowledged, and the last save
      that took effect carries the SeqNo of the last event sent. */
  lemma EveryCleanRunDrains(c: Config, stream: seq<Event>, loaded: Position, rs: seq<Run>)
    requires ConfigOk(c) && T.Numbered(stream) && IsRun(c, stream, loaded, rs)
    ensures var r := rs[|rs| - 1];
            r.ctl.main.Returned? && r.ctl.runErr.None? && !r.ctl.drainTimedOut ==>
              r.floor == r.sent && forall n :: 1 <= n <= r.sent ==> n in r.acked
  {
    hide Acks, Flowing, Sized, Orderly, Ending, Finals;
    RunIsKept(c, stream, loaded, rs);
    var r := rs[|rs| - 1];
    if r.ctl.main.Returned? && Clean(r) { CleanRunIsComplete(c, r); }
  }
}
