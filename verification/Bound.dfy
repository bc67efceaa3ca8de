/** Backpressure: however the goroutines interleave, the number of events that
    are dispatched but not resolved stays under a bound of the configuration. */
module Bound {
  import opened Prelude
  import opened Events
  import opened Pipeline
  import S = SinkContract

  /** The largest batch drainBatch returns: one micro-batch may overshoot. */
  function BatchLimit(c: Config): nat
    requires ConfigOk(c)
  {
    c.batchMax + FlushSize(c) - 1
  }

  ghost predicate Sized(c: Config, r: Run)
    requires ConfigOk(c)
  {
    && Shaped(c, r) && S.Valid(c.maxInflight, r.sink)
    && (forall q :: 0 <= q < c.queues ==> SizedAt(c, r, q))
    && (forall b :: 0 <= b < |r.sink.batches| ==> |r.sink.batches[b].events| <= BatchLimit(c))
  }

  ghost predicate SizedAt(c: Config, r: Run, q: nat)
    requires ConfigOk(c) && Shaped(c, r) && q < c.queues
  {
    && |r.disp.staging[q]| <= FlushSize(c) && |r.disp.queues[q]| <= Slots(c)
    && (forall x :: x in r.disp.queues[q] ==> |x| <= FlushSize(c))
    && |r.pubs[q].buf| <= BatchLimit(c)
  }

  // ---- Steps ----

  lemma SinkKeepsSizes(c: Config, r: Run, t: Run, step: S.Step<Event>)
    requires ConfigOk(c) && Sized(c, r) && S.Enabled(c.maxInflight, r.sink, step)
    requires step.Open? ==> |step.events| <= BatchLimit(c)
    requires t.sink == S.Apply(r.sink, step)
    ensures S.Valid(c.maxInflight, t.sink)
    ensures forall b :: 0 <= b < |t.sink.batches| ==> |t.sink.batches[b].events| <= BatchLimit(c)
  {
    S.StepKeepsValid(c.maxInflight, r.sink, step);
  }

  lemma DispKeepsSizes(c: Config, r: Run, step: DispStep)
    requires ConfigOk(c) && Sized(c, r) && DispEnabled(c, r, step)
    ensures Sized(c, DispApply(c, r, step))
  {
    hide Route, S.Valid;
    var t := DispApply(c, r, step);
    forall q | 0 <= q < c.queues ensures SizedAt(c, t, q) {
      assert SizedAt(c, r, q);
      if step.Flush? && step.q == q {
        forall x | x in t.disp.queues[q] ensures |x| <= FlushSize(c) {
          assert x in r.disp.queues[q] || x == r.disp.staging[q];
        }
      }
    }
  }

  lemma PubKeepsSizes(c: Config, r: Run, q: nat, step: PubStep)
    requires ConfigOk(c) && Sized(c, r) && PubEnabled(c, r, q, step)
    ensures Sized(c, PubApply(c, r, q, step))
  {
    hide S.Valid, S.Apply, S.Enabled;
    var t := PubApply(c, r, q, step);
    assert SizedAt(c, r, q);
    if step.Acquire? { SinkKeepsSizes(c, r, t, S.Open(r.pubs[q].buf)); }
    if step.Produce? { SinkKeepsSizes(c, r, t, S.Produce(r.pubs[q].phase.b)); }
    forall p | 0 <= p < c.queues ensures SizedAt(c, t, p) {
      assert SizedAt(c, r, p);
      if step.Take? && p == q {
        var micro := r.disp.queues[q][0];
        assert micro in r.disp.queues[q] && |micro| <= FlushSize(c);
        assert |t.pubs[q].buf| == |r.pubs[q].buf| + |micro|;
      }
    }
  }

  lemma SnkKeepsSizes(c: Config, r: Run, step: SinkStep)
    requires ConfigOk(c) && Sized(c, r) && SinkEnabled(c, r, step)
    ensures Sized(c, SinkApply(c, r, step))
  {
    hide S.Valid, S.Apply, S.Enabled, Filter;
    var t := SinkApply(c, r, step);
    match step {
      case Write(_) =>
      case Resolve(b, i, ok) => SinkKeepsSizes(c, r, t, if ok then S.Ack(b, i) else S.Fail(b, i));
      case Fault(e) => SinkKeepsSizes(c, r, t, S.SetErr(e));
      case Release(b) => SinkKeepsSizes(c, r, t, S.Release(b));
      case RunDone(b) => SinkKeepsSizes(c, r, t, S.Done(b));
      case Finish(b) => SinkKeepsSizes(c, r, t, S.Finish(b));
      case ResetSink => SinkKeepsSizes(c, r, t, S.Reset);
    }
    forall q | 0 <= q < c.queues ensures SizedAt(c, t, q) { assert SizedAt(c, r, q); }
  }

  lemma StepKeepsSizes(c: Config, r: Run, store: Position, step: Step)
    requires ConfigOk(c) && Sized(c, r) && Enabled(c, r, step)
    ensures Sized(c, Apply(c, r, store, step).0)
  {
    hide S.Valid, DispEnabled, DispApply, PubEnabled, PubApply, SinkEnabled, SinkApply;
    match step
    case Src(s) => SameSizes(c, r, SrcApply(r, s));
    case Disp(s) => DispKeepsSizes(c, r, s);
    case Pub(q, s) => PubKeepsSizes(c, r, q, s);
    case Snk(s) => SnkKeepsSizes(c, r, s);
    case Com(s) => SameSizes(c, r, ComApply(r, store, s).0);
    case Ctl(s) => SameSizes(c, r, MainApply(r, store, s).0);
  }

  lemma SameSizes(c: Config, r: Run, t: Run)
    requires ConfigOk(c) && Sized(c, r)
    requires t.stream == r.stream && t.sent <= |t.stream| && t.disp == r.disp && t.pubs == r.pubs && t.sink == r.sink
    ensures Sized(c, t)
  {
    forall q | 0 <= q < c.queues ensures SizedAt(c, t, q) { assert SizedAt(c, r, q); }
  }

  lemma StartIsSized(c: Config, stream: seq<Event>, store: Position)
    requires ConfigOk(c)
    ensures Sized(c, Start(c, stream, store))
  {}

  // ---- Counting ----

  /** Events of a batch not resolved yet, among its first n. */
  function OpenIn(b: S.Batch<Event>, n: nat): nat {
    if n == 0 then 0 else OpenIn(b, n - 1) + (if n - 1 in b.acked || n - 1 in b.failed then 0 else 1)
  }

  function OpenInBatches(bs: seq<S.Batch<Event>>): nat {
    if bs == [] then 0
    else OpenInBatches(bs[..|bs| - 1]) + OpenIn(bs[|bs| - 1], |bs[|bs| - 1].events|)
  }

  /** Events staged, queued or drained for the first n queues. */
  function HeldIn(c: Config, r: Run, n: nat): nat
    requires n <= |r.disp.staging| && n <= |r.disp.queues| && n <= |r.pubs|
  {
    if n == 0 then 0
    else HeldIn(c, r, n - 1) + |r.disp.staging[n - 1]| + |Flatten(r.disp.queues[n - 1])| + |r.pubs[n - 1].buf|
  }

  /** Dispatched but unresolved events. */
  ghost function Unresolved(c: Config, r: Run): nat
    requires ConfigOk(c) && Shaped(c, r)
  {
    HeldIn(c, r, c.queues) + OpenInBatches(r.sink.batches)
  }

  function PerQueue(c: Config): nat
    requires ConfigOk(c)
  {
    FlushSize(c) + Slots(c) * FlushSize(c) + BatchLimit(c)
  }

  lemma {:induction false} FlattenBounded<T>(ss: seq<seq<T>>, limit: nat)
    requires forall x :: x in ss ==> |x| <= limit
    ensures |Flatten(ss)| <= |ss| * limit
  {
    if ss != [] {
      FlattenBounded(ss[1..], limit);
      assert ss[0] in ss;
      assert |ss| * limit == (|ss| - 1) * limit + limit;
    }
  }

  lemma {:induction false} HeldBounded(c: Config, r: Run, n: nat)
    requires ConfigOk(c) && Sized(c, r) && n <= c.queues
    ensures HeldIn(c, r, n) <= n * PerQueue(c)
  {
    hide S.Valid;
    if n > 0 {
      HeldBounded(c, r, n - 1);
      assert SizedAt(c, r, n - 1);
      FlattenBounded(r.disp.queues[n - 1], FlushSize(c));
      ProductMonotone(|r.disp.queues[n - 1]|, Slots(c), FlushSize(c));
      assert n * PerQueue(c) == (n - 1) * PerQueue(c) + PerQueue(c);
    }
  }

  lemma ProductMonotone(a: nat, b: nat, k: nat)
    requires a <= b
    ensures a * k <= b * k
  {}

  lemma {:induction false} OpenBounded(b: S.Batch<Event>, n: nat)
    ensures OpenIn(b, n) <= n
    ensures (forall i :: 0 <= i < n ==> i in b.acked || i in b.failed) ==> OpenIn(b, n) == 0
  {
    if n > 0 { OpenBounded(b, n - 1); }
  }

  /** Only batches that hold a slot have unresolved events. */
  lemma {:induction false} BatchesBounded(s: S.Sink<Event>, bs: seq<S.Batch<Event>>, limit: nat)
    requires forall b :: 0 <= b < |bs| ==> S.BatchOk(s, bs[b]) && |bs[b].events| <= limit
    ensures OpenInBatches(bs) <= S.InUse(bs) * limit
  {
    if bs != [] {
      var n := |bs| - 1;
      BatchesBounded(s, bs[..n], limit);
      OpenBounded(bs[n], |bs[n].events|);
      assert S.BatchOk(s, bs[n]);
      var used := S.InUse(bs[..n]);
      assert (used + 1) * limit == used * limit + limit;
    }
  }

  /** The bound: per queue a staging slice, a full channel and one drained
      batch, plus one batch per in-flight slot; in the configuration's numbers,
      with micro-batches of at most 256 events. */
  lemma UnresolvedIsBounded(c: Config, r: Run)
    requires ConfigOk(c) && Sized(c, r)
    ensures Unresolved(c, r) <= c.queues * PerQueue(c) + c.maxInflight * BatchLimit(c)
    ensures var micro := Min(c.batchMax, 256);
            && micro > 0
            && PerQueue(c) == micro + Max(c.queueCapacity / micro, 2) * micro + (c.batchMax + micro - 1)
            && BatchLimit(c) == c.batchMax + micro - 1
  {
    hide S.BatchOk;
    HeldBounded(c, r, c.queues);
    BatchesBounded(r.sink, r.sink.batches, BatchLimit(c));
    ProductMonotone(S.InUse(r.sink.batches), c.maxInflight, BatchLimit(c));
  }
}
