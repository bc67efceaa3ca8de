/** What one run keeps about acknowledgements, the checkpoint and the store. */
module Safety {
  import opened Prelude
  import opened Events
  import opened Pipeline
  import opened Flow
  import T = Tracking
  import S = SinkContract

  ghost predicate OfStream(stream: seq<Event>, e: Event) {
    1 <= e.pos.seqNo <= |stream| && stream[e.pos.seqNo - 1] == e
  }

  ghost predicate BatchAcks(r: Run, b: S.Batch<Event>) {
    && (forall e :: e in b.events ==> OfStream(r.stream, e))
    && (forall i :: i in b.acked && i < |b.events| ==> b.events[i].pos.seqNo in r.acked)
    && (b.done ==> forall e :: e in b.events ==> e.pos.seqNo in r.reported)
  }

  /** Acknowledged means written, reported means acknowledged, and the
      tracker reflects what was reported. */
  ghost predicate Acks(c: Config, r: Run) {
    && T.Numbered(r.stream)
    && S.Valid(c.maxInflight, r.sink)
    && T.Tracks(r.stream, r.reported, r.tracker)
    && (forall n :: n in r.reported ==> n in r.acked)
    && (forall n :: n in r.acked ==> 1 <= n <= |r.stream| && r.stream[n - 1] in r.written)
    && (forall e :: e in r.written ==> e in r.submitted)
    && (forall e :: e in r.submitted ==> OfStream(r.stream, e))
    && (forall b :: 0 <= b < |r.sink.batches| ==> BatchAcks(r, r.sink.batches[b]))
  }

  lemma {:induction false} PositionsOf(es: seq<Event>, e: Event)
    requires e in es
    ensures e.pos in Positions(es)
  {
    if es[0] != e { PositionsOf(es[1..], e); }
  }

  lemma {:induction false} OnlyPositions(stream: seq<Event>, es: seq<Event>)
    requires forall e :: e in es ==> OfStream(stream, e)
    ensures T.Positions(stream, Positions(es))
  {
    hide T.SeqNos;
    if es != [] {
      OnlyPositions(stream, es[1..]);
      assert Positions(es) == [es[0].pos] + Positions(es[1..]);
      assert es[0] in es;
    }
  }

  lemma {:induction false} OnlySeqNos(es: seq<Event>, n: nat) returns (e: Event)
    requires n in T.SeqNos(Positions(es))
    ensures e in es && e.pos.seqNo == n
  {
    assert es != [];
    assert Positions(es)[1..] == Positions(es[1..]) && Positions(es)[0] == es[0].pos;
    if n == es[0].pos.seqNo { e := es[0]; } else { e := OnlySeqNos(es[1..], n); }
  }

  // ---- Sink steps ----

  lemma SameAcks(c: Config, r: Run, t: Run)
    requires Acks(c, r)
    requires t.stream == r.stream && t.sink == r.sink && t.reported == r.reported && t.acked == r.acked
    requires t.written == r.written && t.submitted == r.submitted && t.tracker == r.tracker.(dirty := t.tracker.dirty)
    ensures Acks(c, t)
  {
    forall b | 0 <= b < |t.sink.batches| ensures BatchAcks(t, t.sink.batches[b]) {
      assert BatchAcks(r, r.sink.batches[b]);
    }
  }

  /** A sink step on one batch that acknowledges and reports nothing new. */
  lemma QuietSinkStep(c: Config, r: Run, t: Run, step: S.Step<Event>)
    requires Acks(c, r) && S.Enabled(c.maxInflight, r.sink, step)
    requires step.Produce? || step.Fail? || step.SetErr? || step.Release? || step.Finish? || step.Reset?
    requires t == r.(sink := S.Apply(r.sink, step))
    ensures Acks(c, t)
  {
    S.StepKeepsValid(c.maxInflight, r.sink, step);
    forall b | 0 <= b < |t.sink.batches| ensures BatchAcks(t, t.sink.batches[b]) {
      assert BatchAcks(r, r.sink.batches[b]);
    }
  }

  lemma AckKeepsAcks(c: Config, r: Run, b: nat, i: nat)
    requires ConfigOk(c) && Acks(c, r) && SinkEnabled(c, r, Resolve(b, i, true))
    ensures Acks(c, SinkApply(c, r, Resolve(b, i, true)))
  {
    var t := SinkApply(c, r, Resolve(b, i, true));
    S.StepKeepsValid(c.maxInflight, r.sink, S.Ack(b, i));
    var e := r.sink.batches[b].events[i];
    assert BatchAcks(r, r.sink.batches[b]) && e in r.sink.batches[b].events;
    forall x | 0 <= x < |t.sink.batches| ensures BatchAcks(t, t.sink.batches[x]) {
      assert BatchAcks(r, r.sink.batches[x]);
    }
  }

  lemma DoneKeepsAcks(c: Config, r: Run, b: nat)
    requires ConfigOk(c) && Acks(c, r) && SinkEnabled(c, r, RunDone(b))
    ensures Acks(c, SinkApply(c, r, RunDone(b)))
    ensures var t := SinkApply(c, r, RunDone(b));
            && t.tracker.next >= r.tracker.next
            && (t.tracker.dirty <==> r.tracker.dirty || t.tracker.next > r.tracker.next)
            && (t.tracker.next == r.tracker.next ==> t.tracker.ckpt == r.tracker.ckpt)
  {
    hide T.ReportBatch, T.Tracks, T.SeqNos, Positions;
    var t := SinkApply(c, r, RunDone(b));
    var x := r.sink.batches[b];
    var ps := Positions(x.events);
    S.StepKeepsValid(c.maxInflight, r.sink, S.Done(b));
    assert BatchAcks(r, x) && S.BatchOk(r.sink, x);
    OnlyPositions(r.stream, x.events);
    T.ReportTracks(r.stream, r.reported, r.tracker, ps);
    forall n | n in t.reported ensures n in t.acked {
      if n in T.SeqNos(ps) {
        var e := OnlySeqNos(x.events, n);
        var i :| 0 <= i < |x.events| && x.events[i] == e;
        assert i in x.acked;
      }
    }
    forall y | 0 <= y < |t.sink.batches| ensures BatchAcks(t, t.sink.batches[y]) {
      assert BatchAcks(r, r.sink.batches[y]);
      if y == b {
        forall e | e in x.events ensures e.pos.seqNo in t.reported {
          PositionsOf(x.events, e);
          T.SeqNosMember(ps, e.pos);
        }
      }
    }
  }

  lemma SinkKeepsAcks(c: Config, r: Run, step: SinkStep)
    requires ConfigOk(c) && Acks(c, r) && SinkEnabled(c, r, step)
    ensures Acks(c, SinkApply(c, r, step))
  {
    var t := SinkApply(c, r, step);
    match step {
      case Write(i) =>
        forall b | 0 <= b < |t.sink.batches| ensures BatchAcks(t, t.sink.batches[b]) {
          assert BatchAcks(r, r.sink.batches[b]);
        }
      case Resolve(b, i, ok) =>
        if ok { AckKeepsAcks(c, r, b, i); } else { QuietSinkStep(c, r, t, S.Fail(b, i)); }
      case Fault(e) => QuietSinkStep(c, r, t, S.SetErr(e));
      case Release(b) => QuietSinkStep(c, r, t, S.Release(b));
      case RunDone(b) => DoneKeepsAcks(c, r, b);
      case Finish(b) => QuietSinkStep(c, r, t, S.Finish(b));
      case ResetSink => QuietSinkStep(c, r, t, S.Reset);
    }
  }

  lemma ProduceKeepsAcks(c: Config, r: Run, q: nat)
    requires ConfigOk(c) && Acks(c, r) && Shaped(c, r) && PubEnabled(c, r, q, Produce)
    ensures Acks(c, PubApply(c, r, q, Produce))
  {
    var t, x := PubApply(c, r, q, Produce), r.sink.batches[r.pubs[q].phase.b];
    var e := x.events[x.produced];
    assert BatchAcks(r, x) && e in x.events;
    var u := r.(sink := t.sink);
    QuietSinkStep(c, r, u, S.Produce(r.pubs[q].phase.b));
    forall b | 0 <= b < |t.sink.batches| ensures BatchAcks(t, t.sink.batches[b]) {
      assert BatchAcks(u, u.sink.batches[b]);
    }
  }

  lemma BufferedIsOfStream(c: Config, r: Run, q: nat, e: Event)
    requires ConfigOk(c) && Acks(c, r) && Flowing(c, r) && q < c.queues && e in r.pubs[q].buf
    ensures OfStream(r.stream, e)
  {
    hide LineOf, Line, Filter;
    assert FlowAt(c, r, q);
    InLine(c, r, q, e);
    var i :| 0 <= i < |Sent(r)| && Sent(r)[i] == e;
    assert r.stream[i] == e;
  }

  lemma AcquireKeepsAcks(c: Config, r: Run, q: nat)
    requires ConfigOk(c) && Acks(c, r) && Flowing(c, r) && PubEnabled(c, r, q, Acquire)
    ensures Acks(c, PubApply(c, r, q, Acquire))
  {
    hide LineOf, Line, Filter, FlowAt, SubmitAt, ProducerAt;
    var t := PubApply(c, r, q, Acquire);
    S.StepKeepsValid(c.maxInflight, r.sink, S.Open(r.pubs[q].buf));
    forall e | e in r.pubs[q].buf ensures OfStream(r.stream, e) { BufferedIsOfStream(c, r, q, e); }
    forall b | 0 <= b < |t.sink.batches| ensures BatchAcks(t, t.sink.batches[b]) {
      if b < |r.sink.batches| { assert BatchAcks(r, r.sink.batches[b]); }
    }
  }

  lemma PubKeepsAcks(c: Config, r: Run, q: nat, step: PubStep)
    requires ConfigOk(c) && Acks(c, r) && Flowing(c, r) && PubEnabled(c, r, q, step)
    ensures Acks(c, PubApply(c, r, q, step))
  {
    hide FlowAt, SubmitAt, ProducerAt, Acks, S.Enabled, S.Apply;
    if step.Produce? {
      ProduceKeepsAcks(c, r, q);
    } else if step.Acquire? {
      AcquireKeepsAcks(c, r, q);
    } else {
      SameAcks(c, r, PubApply(c, r, q, step));
    }
  }

  /** What steps up to the producer leave alone. */
  ghost predicate Upstream(r: Run, t: Run) {
    && t.stream == r.stream && t.tracker == r.tracker && t.reported == r.reported && t.acked == r.acked
    && t.written == r.written && t.com == r.com && t.persisted == r.persisted && t.floor == r.floor
    && t.ctl == r.ctl.(firstErr := t.ctl.firstErr, hardCancelled := t.ctl.hardCancelled)
  }

  /** What the committer and `run` itself leave alone. */
  ghost predicate Controls(r: Run, t: Run) {
    && t.stream == r.stream && t.tracker == r.tracker.(dirty := t.tracker.dirty) && t.reported == r.reported
    && t.acked == r.acked && t.written == r.written && t.sink == r.sink && t.submitted == r.submitted
  }

  lemma SrcFrame(c: Config, r: Run, step: SrcStep)
    requires ConfigOk(c) && Shaped(c, r) && SrcEnabled(c, r, step)
    ensures var t := SrcApply(r, step); Upstream(r, t) && t.sink == r.sink && t.submitted == r.submitted
  {}

  lemma DispFrame(c: Config, r: Run, step: DispStep)
    requires ConfigOk(c) && Shaped(c, r) && DispEnabled(c, r, step)
    ensures var t := DispApply(c, r, step); Upstream(r, t) && t.sink == r.sink && t.submitted == r.submitted
  {
    hide Route;
  }

  lemma PubFrame(c: Config, r: Run, q: nat, step: PubStep)
    requires ConfigOk(c) && Shaped(c, r) && PubEnabled(c, r, q, step)
    ensures Upstream(r, PubApply(c, r, q, step))
  {
    hide Route, S.Apply, S.Enabled;
  }

  lemma ComFrame(r: Run, store: Position, step: ComStep)
    requires ComEnabled(r, step)
    ensures Controls(r, ComApply(r, store, step).0)
  {}

  lemma MainFrame(r: Run, store: Position, step: MainStep)
    requires MainEnabled(r, step)
    ensures Controls(r, MainApply(r, store, step).0)
  {
    hide AllExited;
  }

  lemma StepKeepsAcks(c: Config, r: Run, store: Position, step: Step)
    requires ConfigOk(c) && Acks(c, r) && Flowing(c, r) && Enabled(c, r, step)
    ensures Acks(c, Apply(c, r, store, step).0)
  {
    hide Flowing, Acks, DispEnabled, ComEnabled, MainEnabled, SrcApply, DispApply, ComApply, MainApply,
         PubEnabled, PubApply, SinkEnabled, SinkApply;
    match step
    case Src(s) => SrcFrame(c, r, s); SameAcks(c, r, SrcApply(r, s));
    case Disp(s) => DispFrame(c, r, s); SameAcks(c, r, DispApply(c, r, s));
    case Pub(q, s) => PubKeepsAcks(c, r, q, s);
    case Snk(s) => SinkKeepsAcks(c, r, s);
    case Com(s) => ComFrame(r, store, s); SameAcks(c, r, ComApply(r, store, s).0);
    case Ctl(s) => MainFrame(r, store, s); SameAcks(c, r, MainApply(r, store, s).0);
  }

  /** No gap inside a run: the checkpoint is the position of the greatest N
      such that events 1..N are reported, and all of them are acknowledged. */
  lemma CheckpointIsAcked(c: Config, r: Run, n: nat)
    requires Acks(c, r) && 1 <= n < r.tracker.next
    ensures n in r.acked && r.stream[n - 1] in r.written
    ensures r.tracker.has && r.tracker.ckpt == r.stream[r.tracker.next - 2].pos && r.tracker.next !in r.reported
  {}

  // ---- The committer and the store ----

  /** `base` is what the store held when the run started. A save in progress
      is of a checkpoint reached; the store holds the last save that took
      effect; saves only move forward. */
  ghost predicate Saves(r: Run, base: Position, store: Position) {
    && r.floor < r.tracker.next
    && r.tracker.next <= |r.stream| + 1
    && (if r.floor == 0 then store == base else r.floor <= |r.stream| && store == r.stream[r.floor - 1].pos)
    && (r.com.saving.Some? ==>
          var n := r.com.saving.value.seqNo;
          && 1 <= n < r.tracker.next && n <= |r.stream| && r.com.saving.value == r.stream[n - 1].pos
          && r.floor <= n && (r.com.effective ==> r.floor == n))
  }

  /** With no save in progress, a clean dirty flag means the last successful
      save is the checkpoint, and the store holds it. */
  ghost predicate Settled(r: Run, store: Position) {
    && (r.tracker.dirty ==> r.tracker.has)
    && (r.ctl.main !in {FinalSaving, Returned} ==>
          && (r.com.saving.None? && r.tracker.has && !r.tracker.dirty ==>
                r.persisted == r.tracker.ckpt && store == r.tracker.ckpt)
          && (r.com.saving.Some? && !r.tracker.dirty ==> r.com.saving.value == r.tracker.ckpt))
    && (r.ctl.main in {FinalSaving, Finalizing} ==> r.com.stopped)
    && (r.com.stopped && !r.ctl.main.FinalSaving? ==> r.com.saving.None?)
    && (r.ctl.main.Returned? ==> r.com.saving.None? && r.com.stopped)
  }

  /** The checkpoint is the stamp of the last event of the reported prefix. */
  lemma CheckpointIsStamp(c: Config, r: Run)
    requires Acks(c, r)
    ensures r.tracker.has ==>
              && 2 <= r.tracker.next <= |r.stream| + 1
              && r.tracker.ckpt == r.stream[r.tracker.next - 2].pos && r.tracker.ckpt.seqNo == r.tracker.next - 1
  {}

  lemma ComKeepsSaves(c: Config, r: Run, base: Position, store: Position, step: ComStep)
    requires Acks(c, r) && Saves(r, base, store) && Settled(r, store) && ComEnabled(r, step)
    ensures var (t, store') := ComApply(r, store, step); Saves(t, base, store') && Settled(t, store') && t.floor >= r.floor && t.stream == r.stream
  {
    hide Acks;
    CheckpointIsStamp(c, r);
  }

  /** The steps of the final save. */
  predicate IsFinal(step: MainStep) { step.FinalBegins? || step.FinalTakesEffect? || step.FinalOk? || step.FinalFails? }

  lemma SteeringKeepsSaves(r: Run, base: Position, store: Position, step: MainStep)
    requires Saves(r, base, store) && Settled(r, store) && MainEnabled(r, step) && !IsFinal(step)
    ensures var (t, store') := MainApply(r, store, step); Saves(t, base, store') && Settled(t, store') && t.floor >= r.floor && t.stream == r.stream
  {
    hide AllExited;
    var t := MainApply(r, store, step).0;
    assert t == r.(ctl := t.ctl) && t.ctl.main !in {FinalSaving, Returned} && r.ctl.main !in {FinalSaving, Returned};
  }

  lemma FinalBeginsKeepsSaves(c: Config, r: Run, base: Position, store: Position)
    requires Acks(c, r) && Saves(r, base, store) && Settled(r, store) && MainEnabled(r, FinalBegins)
    ensures var (t, store') := MainApply(r, store, FinalBegins); Saves(t, base, store') && Settled(t, store') && t.floor >= r.floor && t.stream == r.stream
  {
    hide AllExited, Acks;
    CheckpointIsStamp(c, r);
  }

  lemma FinalKeepsSaves(r: Run, base: Position, store: Position, step: MainStep)
    requires Saves(r, base, store) && Settled(r, store) && MainEnabled(r, step) && IsFinal(step) && !step.FinalBegins?
    ensures var (t, store') := MainApply(r, store, step); Saves(t, base, store') && Settled(t, store') && t.floor >= r.floor && t.stream == r.stream
  {
    hide AllExited;
  }

  lemma MainKeepsSaves(c: Config, r: Run, base: Position, store: Position, step: MainStep)
    requires Acks(c, r) && Saves(r, base, store) && Settled(r, store) && MainEnabled(r, step)
    ensures var (t, store') := MainApply(r, store, step); Saves(t, base, store') && Settled(t, store') && t.floor >= r.floor && t.stream == r.stream
  {
    hide Acks, Saves, Settled, MainEnabled, MainApply;
    if !IsFinal(step) {
      SteeringKeepsSaves(r, base, store, step);
    } else if step.FinalBegins? {
      FinalBeginsKeepsSaves(c, r, base, store);
    } else {
      FinalKeepsSaves(r, base, store, step);
    }
  }

  lemma SinkKeepsSaves(c: Config, r: Run, base: Position, store: Position, step: SinkStep)
    requires ConfigOk(c) && Acks(c, r) && Saves(r, base, store) && Settled(r, store) && SinkEnabled(c, r, step)
    ensures var t := SinkApply(c, r, step); Saves(t, base, store) && Settled(t, store) && t.floor == r.floor && t.stream == r.stream
  {
    hide T.ReportBatch, Acks;
    SinkKeepsAcks(c, r, step);
    NextInStream(c, SinkApply(c, r, step));
    NextInStream(c, r);
    if step.RunDone? { DoneKeepsAcks(c, r, step.b); }
  }

  lemma NextInStream(c: Config, r: Run)
    requires Acks(c, r)
    ensures 1 <= r.tracker.next <= |r.stream| + 1 && (r.tracker.has <==> r.tracker.next > 1)
  {}

  /** Every step keeps the persistence protocol; the store only moves forward. */
  lemma StepKeepsSaves(c: Config, r: Run, base: Position, store: Position, step: Step)
    requires ConfigOk(c) && Acks(c, r) && Flowing(c, r) && Saves(r, base, store) && Settled(r, store) && Enabled(c, r, step)
    ensures var (t, store') := Apply(c, r, store, step);
            Saves(t, base, store') && Settled(t, store') && t.floor >= r.floor && t.stream == r.stream
  {
    hide Flowing, Acks, SrcEnabled, DispEnabled, PubEnabled, SrcApply, DispApply, PubApply, SinkEnabled, SinkApply,
         ComEnabled, ComApply, MainEnabled, MainApply;
    match step
    case Src(s) => SrcFrame(c, r, s);
    case Disp(s) => DispFrame(c, r, s);
    case Pub(q, s) => PubFrame(c, r, q, s);
    case Snk(s) => SinkKeepsSaves(c, r, base, store, s);
    case Com(s) => ComKeepsSaves(c, r, base, store, s);
    case Ctl(s) => MainKeepsSaves(c, r, base, store, s);
  }

  function NewlyWritten(r: Run, step: Step): seq<Event> {
    if step.Snk? && step.snk.Write? && step.snk.i < |r.submitted| then [r.submitted[step.snk.i]] else []
  }

  /** Every step: the stream is fixed, writes are appended, acks are kept. */
  lemma StepGrows(c: Config, r: Run, store: Position, step: Step)
    requires ConfigOk(c) && Enabled(c, r, step)
    ensures var t := Apply(c, r, store, step).0;
            t.stream == r.stream && t.written == r.written + NewlyWritten(r, step) && r.acked <= t.acked
  {
    hide SrcApply, DispEnabled, DispApply, PubEnabled, PubApply, ComEnabled, ComApply, MainEnabled, MainApply,
         S.Apply, T.ReportBatch, Positions, T.SeqNos;
    match step
    case Src(s) => SrcFrame(c, r, s);
    case Disp(s) => DispFrame(c, r, s);
    case Pub(q, s) => PubFrame(c, r, q, s);
    case Snk(s) =>
    case Com(s) => ComFrame(r, store, s);
    case Ctl(s) => MainFrame(r, store, s);
  }

  /** A returned run's goroutines can still act, but not on the store. */
  ghost predicate Retired(r: Run) { r.ctl.main.Returned? && r.com.stopped }

  lemma RetiredStays(c: Config, r: Run, store: Position, step: Step)
    requires ConfigOk(c) && Retired(r) && Enabled(c, r, step)
    ensures Apply(c, r, store, step).1 == store && Retired(Apply(c, r, store, step).0)
  {
    hide SrcApply, DispEnabled, DispApply, PubEnabled, PubApply, S.Apply, T.ReportBatch, Positions, T.SeqNos;
    match step
    case Src(s) => SrcFrame(c, r, s);
    case Disp(s) => DispFrame(c, r, s);
    case Pub(q, s) => PubFrame(c, r, q, s);
    case Snk(s) =>
    case Com(s) =>
    case Ctl(s) =>
  }

  lemma StartIsSafe(c: Config, stream: seq<Event>, store: Position)
    requires ConfigOk(c) && T.Numbered(stream)
    ensures var r := Start(c, stream, store); Acks(c, r) && Saves(r, store, store) && Settled(r, store)
  {}
}
