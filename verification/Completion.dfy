/** The pipeline gets its work done: from its start a run can send, publish
    and report any prefix of its stream, one event after the other, and then
    stop gracefully with a nil answer and the last event saved. */
module Completion {
  import opened Prelude
  import opened Events
  import opened Pipeline
  import opened Traces
  import T = Tracking
  import S = SinkContract

  /** Idle: the first n events are sent and reported, nothing is in flight. */
  ghost predicate Resting(c: Config, stream: seq<Event>, r: Run, n: nat) {
    && Shaped(c, r) && r.stream == stream && r.sent == n && !r.srcDone && r.out == []
    && !r.disp.returned && r.disp.cur == []
    && (forall q :: 0 <= q < c.queues ==>
          r.disp.staging[q] == [] && r.disp.queues[q] == [] && r.pubs[q] == Publisher([], Draining))
    && r.sink.err.None? && AllFinished(r.sink.batches)
    && r.com.saving.None? && !r.com.stopped && r.ctl == Control(Running, None, None, false, false)
    && r.tracker.next == n + 1 && r.tracker.pending == map[]
    && (if n == 0 then !r.tracker.has else r.tracker.has && r.tracker.ckpt == stream[n - 1].pos)
  }

  ghost predicate AllFinished(bs: seq<S.Batch<Event>>) {
    forall b :: 0 <= b < |bs| ==> bs[b].finished && !bs[b].slot
  }

  lemma StartRests(c: Config, stream: seq<Event>, loaded: Position)
    requires ConfigOk(c)
    ensures Resting(c, stream, Start(c, stream, loaded), 0)
  {}

  lemma {:induction false} NoSlotInUse(bs: seq<S.Batch<Event>>)
    requires AllFinished(bs)
    ensures S.InUse(bs) == 0
  {
    if bs != [] { NoSlotInUse(bs[..|bs| - 1]); }
  }

  // ---- One more event ----

  /** The next event, sent and on its queue. */
  function Queued(r: Run, q: nat, e: Event): Run
    requires q < |r.disp.queues|
  {
    r.(sent := r.sent + 1, disp := r.disp.(queues := r.disp.queues[q := [[e]]]))
  }

  lemma Dispatches(c: Config, stream: seq<Event>, r: Run, n: nat)
    requires ConfigOk(c) && Resting(c, stream, r, n) && n < |stream|
    ensures Leads(c, r, Queued(r, Route(c, stream[n]), stream[n]))
  {
    hide Leads, Route, AllFinished;
    var e := stream[n];
    var q := Route(c, e);
    var r1 := r.(sent := n + 1, out := [[e]]);
    LeadsNowhere(c, r);
    assert r.stream[n..n + 1] == [e];
    LeadsOn(c, r, r, Src(Send(1)), r1);
    var r2 := r1.(out := [], disp := r.disp.(cur := [e]));
    LeadsOn(c, r, r1, Disp(Receive), r2);
    var staged := r.disp.staging[q := [e]];
    var r3 := r1.(out := [], disp := r.disp.(staging := staged));
    assert [] + [e] == [e] && [e][1..] == [];
    LeadsOn(c, r, r2, Disp(Stage), r3);
    assert staged[q := []] == r.disp.staging;
    LeadsOn(c, r, r3, Disp(Flush(q)), Queued(r, q, e));
  }

  /** The next event, submitted: its batch is open. */
  function Submitted(r: Run, e: Event): Run {
    var batch := S.Batch([e], 1, {}, {}, true, false, false, r.sink.epoch);
    r.(sent := r.sent + 1, sink := r.sink.(batches := r.sink.batches + [batch]), submitted := r.submitted + [e])
  }

  lemma Publishes(c: Config, stream: seq<Event>, r: Run, n: nat, q: nat, e: Event)
    requires ConfigOk(c) && Resting(c, stream, r, n) && n < |stream| && q < c.queues
    ensures Leads(c, Queued(r, q, e), Submitted(r, e))
  {
    hide Leads, Route;
    NoSlotInUse(r.sink.batches);
    var u := Queued(r, q, e);
    var v := Taken(u, q, 1, Publisher([e], Draining));
    LeadsNowhere(c, u);
    assert u.disp.queues[q][1..] == [] && u.disp.queues[q][0] == [e] && [] + [e] == [e];
    LeadsOn(c, u, u, Pub(q, Take), v);
    assert v.disp.queues == r.disp.queues;
    var x := SetPhase(v, q, Checking(true));
    LeadsOn(c, u, v, Pub(q, Drained), x);
    HandingIsTrace(c, x, q, 1, true);
    var y := Handing(x, q, 1, true);
    LeadsThrough(c, u, x, y);
    assert [e][..1] == [e];
    var z := SetPhase(y, q, Draining);
    LeadsOn(c, u, y, Pub(q, Submit), z);
    assert z.pubs == r.pubs;
    assert z == Submitted(r, e);
  }

  /** The next event, written, acknowledged and reported. */
  ghost function Settled(r: Run, e: Event): Run {
    var batch := S.Batch([e], 1, {0}, {}, false, true, true, r.sink.epoch);
    r.(sent := r.sent + 1, sink := r.sink.(batches := r.sink.batches + [batch]), submitted := r.submitted + [e],
       written := r.written + [e], acked := r.acked + {e.pos.seqNo},
       tracker := T.ReportBatch(r.tracker, [e.pos]), reported := r.reported + {e.pos.seqNo})
  }

  lemma Settles(c: Config, stream: seq<Event>, r: Run, n: nat, e: Event)
    requires ConfigOk(c) && Resting(c, stream, r, n) && n < |stream|
    ensures Leads(c, Submitted(r, e), Settled(r, e))
  {
    hide Leads, T.ReportBatch, AllFinished;
    var b, bs := |r.sink.batches|, r.sink.batches;
    var u := Submitted(r, e);
    LeadsNowhere(c, u);
    var v := u.(written := r.written + [e]);
    LeadsOn(c, u, u, Snk(Write(|r.submitted|)), v);
    var batch := S.Batch([e], 1, {0}, {}, true, false, false, r.sink.epoch);
    var w := v.(sink := r.sink.(batches := bs + [batch]), acked := r.acked + {e.pos.seqNo});
    assert {} + {0} == {0} && v.sink.batches[b := batch] == bs + [batch];
    LeadsOn(c, u, v, Snk(Resolve(b, 0, true)), w);
    var freed := batch.(slot := false);
    var x := w.(sink := r.sink.(batches := bs + [freed]));
    assert (bs + [batch])[b := freed] == bs + [freed];
    LeadsOn(c, u, w, Snk(Release(b)), x);
    Reports(c, stream, r, n, e, x);
  }

  lemma Reports(c: Config, stream: seq<Event>, r: Run, n: nat, e: Event, x: Run)
    requires ConfigOk(c) && Resting(c, stream, r, n) && n < |stream|
    requires x == Submitted(r, e).(written := r.written + [e], acked := r.acked + {e.pos.seqNo},
                                   sink := r.sink.(batches := r.sink.batches
                                     + [S.Batch([e], 1, {0}, {}, false, false, false, r.sink.epoch)]))
    requires Leads(c, Submitted(r, e), x)
    ensures Leads(c, Submitted(r, e), Settled(r, e))
  {
    hide Leads, T.ReportBatch, AllFinished;
    var b, bs, u := |r.sink.batches|, r.sink.batches, Submitted(r, e);
    var freed := S.Batch([e], 1, {0}, {}, false, false, false, r.sink.epoch);
    var told := freed.(done := true);
    assert Positions([e]) == [e.pos];
    OneSeqNo(e.pos);
    var y := x.(sink := r.sink.(batches := bs + [told]), tracker := T.ReportBatch(r.tracker, [e.pos]),
                reported := r.reported + {e.pos.seqNo});
    assert (bs + [freed])[b := told] == bs + [told];
    LeadsOn(c, u, x, Snk(RunDone(b)), y);
    var over := told.(finished := true);
    assert (bs + [told])[b := over] == bs + [over];
    LeadsOn(c, u, y, Snk(Finish(b)), Settled(r, e));
  }

  lemma OneSeqNo(p: Position)
    ensures T.SeqNos([p]) == {p.seqNo}
  {
    assert [p][0] == p;
  }

  lemma ReportAdvances(t: T.State, p: Position)
    requires t.next == p.seqNo && t.pending == map[]
    ensures T.ReportBatch(t, [p]) == T.State(t.next + 1, map[], p, true, true)
  {
    var m: map<nat, Position> := map[p.seqNo := p];
    assert [p][1..] == [];
    assert T.Record(map[], [p]) == T.Record(m, []) == m;
    assert m - {p.seqNo} == map[];
    assert T.Advance(t.(pending := m)) == T.Advance(T.State(t.next + 1, map[], p, true, true));
  }

  lemma SettledRests(c: Config, stream: seq<Event>, r: Run, n: nat)
    requires Resting(c, stream, r, n) && n < |stream| && stream[n].pos.seqNo == n + 1
    ensures Resting(c, stream, Settled(r, stream[n]), n + 1)
  {
    hide T.ReportBatch;
    ReportAdvances(r.tracker, stream[n].pos);
  }

  lemma SettledIsDirty(c: Config, stream: seq<Event>, r: Run, n: nat)
    requires Resting(c, stream, r, n) && n < |stream| && stream[n].pos.seqNo == n + 1
    ensures Settled(r, stream[n]).tracker.dirty
  {
    hide T.ReportBatch;
    ReportAdvances(r.tracker, stream[n].pos);
  }

  /** One more event is sent, published, acknowledged and reported. */
  lemma OneMore(c: Config, stream: seq<Event>, r: Run, n: nat) returns (t: Run)
    requires ConfigOk(c) && T.Numbered(stream) && Resting(c, stream, r, n) && n < |stream|
    ensures Leads(c, r, t) && Resting(c, stream, t, n + 1) && t.persisted == r.persisted && t.tracker.dirty
  {
    hide Leads, Route, Resting, T.ReportBatch;
    var e := stream[n];
    var q := Route(c, e);
    RestingShape(c, stream, r, n);
    Dispatches(c, stream, r, n);
    Publishes(c, stream, r, n, q, e);
    LeadsThrough(c, r, Queued(r, q, e), Submitted(r, e));
    Settles(c, stream, r, n, e);
    t := Settled(r, e);
    LeadsThrough(c, r, Submitted(r, e), t);
    SettledRests(c, stream, r, n);
    SettledIsDirty(c, stream, r, n);
  }

  lemma RestingShape(c: Config, stream: seq<Event>, r: Run, n: nat)
    requires Resting(c, stream, r, n)
    ensures Shaped(c, r)
  {}

  lemma {:induction false} RestsAfter(c: Config, stream: seq<Event>, loaded: Position, n: nat) returns (t: Run)
    requires ConfigOk(c) && T.Numbered(stream) && n <= |stream|
    ensures Leads(c, Start(c, stream, loaded), t) && Resting(c, stream, t, n) && t.persisted == loaded
  {
    hide Leads, Resting;
    if n == 0 {
      t := Start(c, stream, loaded);
      LeadsNowhere(c, t);
      StartRests(c, stream, loaded);
    } else {
      var r := RestsAfter(c, stream, loaded, n - 1);
      t := OneMore(c, stream, r, n - 1);
      LeadsThrough(c, Start(c, stream, loaded), r, t);
    }
  }

  /** PERIODIC SAVE. The committer can save what was reported since its last
      save, while the run goes on, and has nothing left to save then. */
  lemma SavesPeriodically(c: Config, stream: seq<Event>, r: Run, n: nat) returns (t: Run)
    requires ConfigOk(c) && Resting(c, stream, r, n) && r.tracker.dirty && 0 < n <= |stream|
    ensures Leads(c, r, t) && Resting(c, stream, t, n) && t.persisted == stream[n - 1].pos && !t.tracker.dirty
  {
    hide Leads, Route, AllFinished;
    LeadsNowhere(c, r);
    var u := Apply(c, r, ZERO, Com(SaveBegins)).0;
    LeadsOn(c, r, r, Com(SaveBegins), u);
    var v := Apply(c, u, ZERO, Com(SaveTakesEffect)).0;
    LeadsOn(c, r, u, Com(SaveTakesEffect), v);
    t := Apply(c, v, ZERO, Com(SaveOk)).0;
    LeadsOn(c, r, v, Com(SaveOk), t);
  }

  // ---- The graceful stop ----

  /** The source is stopped, the queues are closed, k publishers have left. */
  function Leaving(r: Run, k: nat): Run {
    r.(ctl := r.ctl.(main := Stopping), srcDone := true, disp := r.disp.(returned := true),
       pubs := seq(|r.pubs|, q requires 0 <= q < |r.pubs| => if q < k then Publisher([], Exited) else r.pubs[q]))
  }

  lemma Closes(c: Config, stream: seq<Event>, r: Run, n: nat)
    requires ConfigOk(c) && Resting(c, stream, r, n)
    ensures Leads(c, r, Leaving(r, 0))
  {
    hide Leads, Route, AllFinished;
    LeadsNowhere(c, r);
    var u := r.(ctl := r.ctl.(main := Stopping));
    LeadsOn(c, r, r, Ctl(GracefulStop), u);
    var v := u.(srcDone := true);
    LeadsOn(c, r, u, Src(End(Some(Cancelled))), v);
    assert r.pubs == Leaving(r, 0).pubs;
    LeadsOn(c, r, v, Disp(Close), Leaving(r, 0));
  }

  lemma {:induction false} Leave(c: Config, stream: seq<Event>, r: Run, n: nat, k: nat)
    requires ConfigOk(c) && Resting(c, stream, r, n) && k <= c.queues
    ensures Leads(c, r, Leaving(r, k))
  {
    hide Leads, Route, AllFinished;
    if k == 0 {
      Closes(c, stream, r, n);
    } else {
      Leave(c, stream, r, n, k - 1);
      var u, v := Leaving(r, k - 1), Leaving(r, k);
      assert u.pubs[k - 1 := Publisher([], Exited)] == v.pubs;
      LeadsOn(c, r, u, Pub(k - 1, Closed), v);
    }
  }

  /** `run` past its Flush and its committer, about to save for good. */
  function Gone(c: Config, r: Run): Run {
    Leaving(r, c.queues).(ctl := r.ctl.(main := Finalizing), com := r.com.(stopped := true))
  }

  lemma Goes(c: Config, stream: seq<Event>, r: Run, n: nat)
    requires ConfigOk(c) && Resting(c, stream, r, n)
    ensures Leads(c, r, Gone(c, r))
  {
    hide Leads, Route;
    Leave(c, stream, r, n, c.queues);
    var u := Leaving(r, c.queues);
    var v := u.(ctl := r.ctl.(main := Gathered(false)));
    LeadsOn(c, r, u, Ctl(MainStep.AllFinished), v);
    var w := u.(ctl := r.ctl.(main := Flushing));
    LeadsOn(c, r, v, Ctl(ReadErr), w);
    var x := u.(ctl := r.ctl.(main := Closing));
    LeadsOn(c, r, w, Ctl(FlushOk), x);
    var y := x.(com := r.com.(stopped := true));
    LeadsOn(c, r, x, Com(Stop), y);
    LeadsOn(c, r, y, Ctl(CommitterGone), Gone(c, r));
  }

  /** The run has returned nil with what it sent saved. */
  ghost predicate Completed(stream: seq<Event>, loaded: Position, r: Run, n: nat) {
    && r.ctl == Control(Returned, None, None, true, false) && r.stream == stream && r.sent == n <= |stream|
    && r.persisted == if n == 0 then loaded else stream[n - 1].pos
  }

  lemma SavesLast(c: Config, stream: seq<Event>, r: Run, n: nat) returns (t: Run)
    requires ConfigOk(c) && Resting(c, stream, r, n)
    ensures Leads(c, r, t) && Completed(stream, r.persisted, t, n)
  {
    hide Leads, Route, AllFinished;
    Goes(c, stream, r, n);
    var u := Gone(c, r);
    if n == 0 {
      t := Return(u, None);
      LeadsOn(c, r, u, Ctl(FinalBegins), t);
    } else {
      var v := Apply(c, u, ZERO, Ctl(FinalBegins)).0;
      LeadsOn(c, r, u, Ctl(FinalBegins), v);
      var w := Apply(c, v, ZERO, Ctl(FinalTakesEffect)).0;
      LeadsOn(c, r, v, Ctl(FinalTakesEffect), w);
      t := Apply(c, w, ZERO, Ctl(FinalOk)).0;
      LeadsOn(c, r, w, Ctl(FinalOk), t);
    }
  }

  /** COMPLETION. For every stream and every n there is a run that sends
      exactly n events, returns nil after a graceful stop, with no drain
      timeout, and has saved the position of the last one. */
  lemma CanStopCleanly(c: Config, stream: seq<Event>, loaded: Position, n: nat) returns (t: Run)
    requires ConfigOk(c) && T.Numbered(stream) && n <= |stream|
    ensures Leads(c, Start(c, stream, loaded), t) && Completed(stream, loaded, t, n)
  {
    hide Leads, Resting, Completed;
    var r := RestsAfter(c, stream, loaded, n);
    t := SavesLast(c, stream, r, n);
    LeadsThrough(c, Start(c, stream, loaded), r, t);
  }
}
