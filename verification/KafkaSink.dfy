/** pkg/publish/kafka/sink.go: the promise countdown of PublishBatch, with
    every promise split into its atomic steps and interleaved arbitrarily,
    and Flush. It refines `SinkContract`. */
module KafkaSink {
  import opened Prelude
  import C = SinkContract

  /** Where one record stands: from Produce through the statements of its
      promise. A failed record passes through Failing and Erring first. */
  datatype Stage =
    | Unsent | Waiting
    | Failing      // about to run failed.Store(true)
    | Erring       // about to run setErr
    | Counting     // about to run remaining.Add(-1)
    | Releasing    // saw zero: about to receive from inflight
    | Checking     // about to read failed
    | Calling      // about to call done
    | Running      // inside done
    | Leaving      // about to run pending.Done
    | Returned

  datatype Record = Record(stage: Stage, err: Option<Error>)

  /** One PublishBatch call that got its slot. `last` is the record whose
      countdown reached zero; the other fields are the code's variables and
      the number of times each effect happened. */
  datatype Batch<E> = Batch(events: seq<E>, recs: seq<Record>, added: bool, sent: nat,
                            remaining: int, failed: bool, last: Option<nat>,
                            released: nat, begun: nat, ended: nat, left: nat, epoch: nat)

  datatype FlushCall = Waits(covers: set<nat>) | Reads(covers: set<nat>)
                     | Answered(covers: set<nat>, ok: bool, epoch: nat) | Expired

  /** `sem` is the length of the inflight channel, `pending` the wait group's
      counter, `epoch` counts Resets. */
  datatype Sink<E> = Sink(sem: int, pending: int, err: Option<Error>, batches: seq<Batch<E>>,
                          flushes: seq<FlushCall>, epoch: nat)

  datatype Step<E> =
    | Acquire(events: seq<E>)                     // inflight <- struct{}{}
    | AddPending(b: nat)                          // pending.Add(1)
    | Send(b: nat)                                // Produce of the next record
    | Resolve(b: nat, r: nat, err: Option<Error>) // the client starts the promise
    | Advance(b: nat, r: nat)                     // its next atomic step
    | Reset
    | FlushStart
    | FlushSeesZero(f: nat)                       // pending.Wait returned
    | FlushReads(f: nat)                          // return s.Err()
    | FlushExpires(f: nat)                        // ctx expired first

  function INITIAL<E>(): Sink<E> { Sink(0, 0, None, [], [], 0) }

  predicate IsRecord<E>(s: Sink<E>, b: nat, r: nat) {
    b < |s.batches| && r < |s.batches[b].recs|
  }

  ghost predicate Enabled<E>(maxInflight: nat, s: Sink<E>, step: Step<E>) {
    match step
    case Acquire(_) => s.sem < maxInflight
    case AddPending(b) => b < |s.batches| && !s.batches[b].added
    case Send(b) => b < |s.batches| && s.batches[b].added && s.batches[b].sent < |s.batches[b].recs|
    case Resolve(b, r, _) => IsRecord(s, b, r) && s.batches[b].recs[r].stage == Waiting
    case Advance(b, r) => IsRecord(s, b, r) && s.batches[b].recs[r].stage !in {Unsent, Waiting, Returned}
    case Reset => true
    case FlushStart => true
    case FlushSeesZero(f) => f < |s.flushes| && s.flushes[f].Waits? && s.pending == 0
    case FlushReads(f) => f < |s.flushes| && s.flushes[f].Reads?
    case FlushExpires(f) => f < |s.flushes| && s.flushes[f].Waits?
  }

  ghost function Apply<E>(s: Sink<E>, step: Step<E>): Sink<E>
    requires exists max :: Enabled(max, s, step)
  {
    match step
    case Acquire(events) =>
      var n := |events|;
      s.(sem := s.sem + 1,
         batches := s.batches + [Batch(events, seq(n, i => Record(Unsent, None)), false, 0, n, false, None,
                                       0, 0, 0, 0, s.epoch)])
    case AddPending(b) =>
      s.(pending := s.pending + 1, batches := s.batches[b := s.batches[b].(added := true)])
    case Send(b) =>
      var x := s.batches[b];
      Put(s, b, x.(recs := x.recs[x.sent := Record(Waiting, None)], sent := x.sent + 1))
    case Resolve(b, r, err) =>
      var x := s.batches[b];
      Put(s, b, x.(recs := x.recs[r := Record(if err.Some? then Failing else Counting, err)]))
    case Advance(b, r) => AdvanceRecord(s, b, r)
    case Reset => s.(err := None, epoch := s.epoch + 1)
    case FlushStart => s.(flushes := s.flushes + [Waits(Submitted(s.batches))])
    case FlushSeesZero(f) => s.(flushes := s.flushes[f := Reads(s.flushes[f].covers)])
    case FlushReads(f) => s.(flushes := s.flushes[f := Answered(s.flushes[f].covers, s.err.None?, s.epoch)])
    case FlushExpires(f) => s.(flushes := s.flushes[f := Expired])
  }

  function Put<E>(s: Sink<E>, b: nat, x: Batch<E>): Sink<E>
    requires b < |s.batches|
  {
    s.(batches := s.batches[b := x])
  }

  function SetStage<E>(x: Batch<E>, r: nat, stage: Stage): Batch<E>
    requires r < |x.recs|
  {
    x.(recs := x.recs[r := x.recs[r].(stage := stage)])
  }

  /** The statements of `promise`, one at a time. */
  function AdvanceRecord<E>(s: Sink<E>, b: nat, r: nat): Sink<E>
    requires IsRecord(s, b, r)
  {
    var x := s.batches[b];
    match x.recs[r].stage
    case Failing => Put(s, b, SetStage(x, r, Erring).(failed := true))
    case Erring =>
      var e := if x.recs[r].err.Some? then x.recs[r].err.value else Other;
      Put(s, b, SetStage(x, r, Counting)).(err := Sticky(s.err, e))
    case Counting =>
      if x.remaining - 1 == 0
      then Put(s, b, SetStage(x, r, Releasing).(remaining := 0, last := Some(r)))
      else Put(s, b, SetStage(x, r, Returned).(remaining := x.remaining - 1))
    case Releasing => Put(s, b, SetStage(x, r, Checking).(released := x.released + 1)).(sem := s.sem - 1)
    case Checking => Put(s, b, SetStage(x, r, if x.failed then Leaving else Calling))
    case Calling => Put(s, b, SetStage(x, r, Running).(begun := x.begun + 1))
    case Running => Put(s, b, SetStage(x, r, Leaving).(ended := x.ended + 1))
    case Leaving => Put(s, b, SetStage(x, r, Returned).(left := x.left + 1)).(pending := s.pending - 1)
    case _ => s
  }

  /** The batches whose PublishBatch call has handed over every record. */
  ghost function Submitted<E>(bs: seq<Batch<E>>): set<nat> {
    set b | 0 <= b < |bs| && bs[b].added && bs[b].sent == |bs[b].recs|
  }

  // ---- Invariants ----

  predicate BeforeCount(stage: Stage) { stage in {Unsent, Waiting, Failing, Erring, Counting} }

  predicate PastFailing(stage: Stage) { stage !in {Unsent, Waiting, Failing} }

  predicate PastErring(stage: Stage) { stage !in {Unsent, Waiting, Failing, Erring} }

  function Uncounted(recs: seq<Record>): nat {
    if recs == [] then 0
    else Uncounted(recs[..|recs| - 1]) + (if BeforeCount(recs[|recs| - 1].stage) then 1 else 0)
  }

  /** The counters a batch shows while its last record is at `stage`. */
  ghost predicate Counters<E>(x: Batch<E>, stage: Stage) {
    var d := if x.failed then 0 else 1;
    match stage
    case Releasing => x.released == 0 && x.begun == 0 && x.ended == 0 && x.left == 0
    case Checking => x.released == 1 && x.begun == 0 && x.ended == 0 && x.left == 0
    case Calling => x.released == 1 && x.begun == 0 && x.ended == 0 && x.left == 0 && !x.failed
    case Running => x.released == 1 && x.begun == 1 && x.ended == 0 && x.left == 0 && !x.failed
    case Leaving => x.released == 1 && x.begun == d && x.ended == d && x.left == 0
    case Returned => x.released == 1 && x.begun == d && x.ended == d && x.left == 1
    case _ => false
  }

  ghost predicate Quiet<E>(x: Batch<E>) {
    x.released == 0 && x.begun == 0 && x.ended == 0 && x.left == 0
  }

  ghost predicate RecordOk<E>(s: Sink<E>, x: Batch<E>, r: nat)
    requires r < |x.recs|
  {
    var rec := x.recs[r];
    && (rec.stage == Unsent <==> r >= x.sent)
    && (rec.stage in {Unsent, Waiting} ==> rec.err.None?)
    && (rec.stage in {Failing, Erring} ==> rec.err.Some?)
    && (rec.err.Some? && PastFailing(rec.stage) ==> x.failed)
    && (rec.err.Some? && PastErring(rec.stage) && x.epoch == s.epoch ==> s.err.Some?)
    && (!BeforeCount(rec.stage) && rec.stage != Returned ==> x.last == Some(r))
  }

  ghost predicate BatchOk<E>(s: Sink<E>, x: Batch<E>) {
    && |x.recs| == |x.events| && x.sent <= |x.recs| && x.epoch <= s.epoch
    && (x.sent > 0 ==> x.added)
    && (forall r :: 0 <= r < |x.recs| ==> RecordOk(s, x, r))
    && (x.failed ==> exists r :: 0 <= r < |x.recs| && x.recs[r].err.Some? && PastFailing(x.recs[r].stage))
    && x.remaining == Uncounted(x.recs)
    && (x.last.None? ==> Quiet(x) && (x.recs != [] ==> x.remaining > 0))
    && (x.last.Some? ==> x.last.value < |x.recs| && x.remaining == 0 && Counters(x, x.recs[x.last.value].stage))
  }

  function Slots<E>(bs: seq<Batch<E>>): nat {
    if bs == [] then 0 else Slots(bs[..|bs| - 1]) + (if bs[|bs| - 1].released == 0 then 1 else 0)
  }

  function Units<E>(bs: seq<Batch<E>>): nat {
    if bs == [] then 0
    else Units(bs[..|bs| - 1]) + (if bs[|bs| - 1].added && bs[|bs| - 1].left == 0 then 1 else 0)
  }

  ghost predicate FlushOk<E>(s: Sink<E>, f: FlushCall) {
    match f
    case Waits(covers) => forall b :: b in covers ==> b < |s.batches| && s.batches[b].added
    case Reads(covers) => forall b :: b in covers ==> b < |s.batches| && s.batches[b].left == 1
    case Answered(covers, ok, epoch) =>
      && epoch <= s.epoch
      && (ok ==> forall b :: b in covers ==> b < |s.batches| && DeliveredIn(s.batches[b], epoch))
    case Expired => true
  }

  ghost predicate Valid<E>(maxInflight: nat, s: Sink<E>) {
    && (forall b :: 0 <= b < |s.batches| ==> BatchOk(s, s.batches[b]))
    && s.sem == Slots(s.batches) && s.sem <= maxInflight
    && s.pending == Units(s.batches)
    && (forall f :: 0 <= f < |s.flushes| ==> FlushOk(s, s.flushes[f]))
  }

  /** Every record acknowledged; done ran exactly once and returned; the slot
      and the pending unit were given back exactly once. */
  ghost predicate Delivered<E>(x: Batch<E>) {
    && (forall r :: 0 <= r < |x.recs| ==> x.recs[r] == Record(Returned, None))
    && x.begun == 1 && x.ended == 1 && x.released == 1 && x.left == 1
  }

  ghost predicate DeliveredIn<E>(x: Batch<E>, epoch: nat) {
    x.epoch == epoch ==> Delivered(x)
  }

  // ---- Counting lemmas ----

  lemma {:induction false} UncountedUpdate(recs: seq<Record>, r: nat, x: Record)
    requires r < |recs|
    ensures Uncounted(recs[r := x]) == Uncounted(recs)
            - (if BeforeCount(recs[r].stage) then 1 else 0) + (if BeforeCount(x.stage) then 1 else 0)
    decreases |recs|
  {
    var n := |recs| - 1;
    if r < n {
      assert recs[r := x][..n] == recs[..n][r := x];
      UncountedUpdate(recs[..n], r, x);
    } else {
      assert recs[r := x][..n] == recs[..n];
    }
  }

  lemma {:induction false} UncountedZero(recs: seq<Record>, r: nat)
    requires r < |recs| && Uncounted(recs) == 0
    ensures !BeforeCount(recs[r].stage)
    decreases |recs|
  {
    var n := |recs| - 1;
    if r < n {
      UncountedZero(recs[..n], r);
    }
  }

  lemma {:induction false} UncountedAll(recs: seq<Record>)
    requires forall r :: 0 <= r < |recs| ==> BeforeCount(recs[r].stage)
    ensures Uncounted(recs) == |recs|
    decreases |recs|
  {
    if recs != [] { UncountedAll(recs[..|recs| - 1]); }
  }

  lemma {:induction false} TotalsUpdate<E>(bs: seq<Batch<E>>, b: nat, x: Batch<E>)
    requires b < |bs|
    ensures Slots(bs[b := x]) == Slots(bs) - (if bs[b].released == 0 then 1 else 0) + (if x.released == 0 then 1 else 0)
    ensures Units(bs[b := x]) == Units(bs) - (if bs[b].added && bs[b].left == 0 then 1 else 0)
                                 + (if x.added && x.left == 0 then 1 else 0)
    decreases |bs|
  {
    var n := |bs| - 1;
    if b < n {
      assert bs[b := x][..n] == bs[..n][b := x];
      TotalsUpdate(bs[..n], b, x);
    } else {
      assert bs[b := x][..n] == bs[..n];
    }
  }

  lemma {:induction false} NoUnits<E>(bs: seq<Batch<E>>, b: nat)
    requires b < |bs| && Units(bs) == 0 && bs[b].added
    ensures bs[b].left > 0
    decreases |bs|
  {
    if b < |bs| - 1 { NoUnits(bs[..|bs| - 1], b); }
  }

  // ---- Step lemmas ----

  /** Replacing one batch by a good one keeps everything about the others. */
  lemma PutKeepsOthers<E>(s: Sink<E>, t: Sink<E>, b: nat)
    requires b < |s.batches| && |t.batches| == |s.batches| && t.batches == s.batches[b := t.batches[b]]
    requires t.epoch == s.epoch && (s.err.Some? ==> t.err.Some?)
    requires forall c :: 0 <= c < |s.batches| ==> BatchOk(s, s.batches[c])
    requires BatchOk(t, t.batches[b])
    ensures forall c :: 0 <= c < |t.batches| ==> BatchOk(t, t.batches[c])
  {
    forall c | 0 <= c < |t.batches| ensures BatchOk(t, t.batches[c]) {
      if c != b {
        var x := s.batches[c];
        assert BatchOk(s, x) && t.batches[c] == x;
        forall r | 0 <= r < |x.recs| ensures RecordOk(t, x, r) { assert RecordOk(s, x, r); }
      }
    }
  }

  /** Moving record r of a batch to another stage before the countdown. */
  lemma EarlyKeepsBatch<E>(s: Sink<E>, t: Sink<E>, x: Batch<E>, y: Batch<E>, r: nat)
    requires BatchOk(s, x) && r < |x.recs| && |y.recs| == |x.recs| && y.recs == x.recs[r := y.recs[r]]
    requires BeforeCount(x.recs[r].stage) && BeforeCount(y.recs[r].stage)
    requires y == x.(recs := y.recs, failed := y.failed, sent := y.sent)
    requires t.epoch == s.epoch && (s.err.Some? ==> t.err.Some?)
    requires y.failed && !x.failed ==> y.recs[r].err.Some? && PastFailing(y.recs[r].stage)
    requires PastFailing(x.recs[r].stage) ==> PastFailing(y.recs[r].stage) && y.recs[r].err == x.recs[r].err
    requires x.failed ==> y.failed
    requires y.sent == x.sent || (y.added && r == x.sent && y.sent == x.sent + 1)
    requires RecordOk(t, y, r)
    ensures BatchOk(t, y)
  {
    UncountedUpdate(x.recs, r, y.recs[r]);
    forall i | 0 <= i < |y.recs| ensures RecordOk(t, y, i) { assert RecordOk(s, x, i); }
    assert RecordOk(s, x, r);
    if x.failed {
      var i :| 0 <= i < |x.recs| && x.recs[i].err.Some? && PastFailing(x.recs[i].stage);
      assert y.recs[i].err.Some? && PastFailing(y.recs[i].stage);
    }
    if x.last.Some? { UncountedZero(x.recs, r); }
  }

  lemma CountKeepsBatch<E>(s: Sink<E>, t: Sink<E>, x: Batch<E>, y: Batch<E>, r: nat)
    requires BatchOk(s, x) && r < |x.recs| && x.recs[r].stage == Counting
    requires t.epoch == s.epoch && t.err == s.err
    requires y == if x.remaining - 1 == 0
                  then SetStage(x, r, Releasing).(remaining := 0, last := Some(r))
                  else SetStage(x, r, Returned).(remaining := x.remaining - 1)
    ensures BatchOk(t, y)
  {
    assert RecordOk(s, x, r);
    UncountedUpdate(x.recs, r, y.recs[r]);
    if x.last.Some? { UncountedZero(x.recs, r); }
    forall i | 0 <= i < |y.recs| ensures RecordOk(t, y, i) { assert RecordOk(s, x, i); }
    if y.failed {
      var i :| 0 <= i < |x.recs| && x.recs[i].err.Some? && PastFailing(x.recs[i].stage);
      assert y.recs[i].err.Some? && PastFailing(y.recs[i].stage);
    }
  }

  lemma LateKeepsRecords<E>(s: Sink<E>, b: nat, r: nat, i: nat)
    requires IsRecord(s, b, r) && BatchOk(s, s.batches[b])
    requires s.batches[b].recs[r].stage in {Releasing, Checking, Calling, Running, Leaving}
    requires i < |AdvanceRecord(s, b, r).batches[b].recs|
    ensures var t := AdvanceRecord(s, b, r); RecordOk(t, t.batches[b], i)
  {
    assert RecordOk(s, s.batches[b], r);
    assert i < |s.batches[b].recs| ==> RecordOk(s, s.batches[b], i);
  }

  lemma LateKeepsBatch<E>(s: Sink<E>, b: nat, r: nat)
    requires IsRecord(s, b, r) && BatchOk(s, s.batches[b])
    requires s.batches[b].recs[r].stage in {Releasing, Checking, Calling, Running, Leaving}
    ensures var t := AdvanceRecord(s, b, r); BatchOk(t, t.batches[b])
  {
    var t := AdvanceRecord(s, b, r);
    var x, y := s.batches[b], t.batches[b];
    assert RecordOk(s, x, r);
    UncountedUpdate(x.recs, r, y.recs[r]);
    forall i | 0 <= i < |y.recs| ensures RecordOk(t, y, i) { LateKeepsRecords(s, b, r, i); }
    if y.failed {
      var i :| 0 <= i < |x.recs| && x.recs[i].err.Some? && PastFailing(x.recs[i].stage);
      assert y.recs[i].err.Some? && PastFailing(y.recs[i].stage);
    }
  }

  lemma AdvanceKeepsBatch<E>(s: Sink<E>, b: nat, r: nat)
    requires IsRecord(s, b, r) && BatchOk(s, s.batches[b])
    requires s.batches[b].recs[r].stage !in {Unsent, Waiting, Returned}
    ensures var t := AdvanceRecord(s, b, r); BatchOk(t, t.batches[b])
  {
    var t := AdvanceRecord(s, b, r);
    var x, y := s.batches[b], t.batches[b];
    assert RecordOk(s, x, r);
    match x.recs[r].stage {
      case Failing => EarlyKeepsBatch(s, t, x, y, r);
      case Erring => EarlyKeepsBatch(s, t, x, y, r);
      case Counting => CountKeepsBatch(s, t, x, y, r);
      case _ => LateKeepsBatch(s, b, r);
    }
  }

  lemma FlushesStay<E>(s: Sink<E>, t: Sink<E>)
    requires t.epoch >= s.epoch && |t.batches| >= |s.batches|
    requires forall b :: 0 <= b < |s.batches| ==> BatchOk(s, s.batches[b]) && BatchOk(t, t.batches[b])
    requires forall b :: 0 <= b < |s.batches| ==> Later(s.batches[b], t.batches[b])
    ensures forall f :: FlushOk(s, f) ==> FlushOk(t, f)
  {
    forall f | FlushOk(s, f) ensures FlushOk(t, f) {
      if f.Answered? && f.ok {
        forall b | b in f.covers ensures b < |t.batches| && DeliveredIn(t.batches[b], f.epoch) {
          assert Later(s.batches[b], t.batches[b]);
        }
      }
    }
  }

  /** What a batch never takes back. */
  ghost predicate Later<E>(x: Batch<E>, y: Batch<E>) {
    && x.epoch == y.epoch && (x.added ==> y.added) && (x.left == 1 ==> y.left == 1)
    && (Delivered(x) ==> Delivered(y))
  }

  lemma StepKeepsBatch<E>(maxInflight: nat, s: Sink<E>, step: Step<E>)
    requires Enabled(maxInflight, s, step)
    requires step.AddPending? || step.Send? || step.Resolve? || step.Advance?
    requires BatchOk(s, s.batches[step.b])
    ensures var t := Apply(s, step); BatchOk(t, t.batches[step.b]) && Later(s.batches[step.b], t.batches[step.b])
  {
    var t, b := Apply(s, step), step.b;
    var x, y := s.batches[b], t.batches[b];
    match step {
      case Advance(_, r) =>
        AdvanceKeepsBatch(s, b, r);
        AdvanceIsLater(s, b, r);
      case AddPending(_) =>
        forall i | 0 <= i < |y.recs| ensures RecordOk(t, y, i) { assert RecordOk(s, x, i); }
      case Send(_) =>
        assert RecordOk(s, x, x.sent);
        EarlyKeepsBatch(s, t, x, y, x.sent);
      case Resolve(_, r, err) =>
        assert RecordOk(s, x, r);
        EarlyKeepsBatch(s, t, x, y, r);
    }
  }

  lemma BatchStepKeepsTotals<E>(maxInflight: nat, s: Sink<E>, step: Step<E>)
    requires Enabled(maxInflight, s, step)
    requires step.AddPending? || step.Send? || step.Resolve? || step.Advance?
    requires BatchOk(s, s.batches[step.b])
    requires s.sem == Slots(s.batches) && s.pending == Units(s.batches)
    ensures var t := Apply(s, step);
            && t.sem == Slots(t.batches) && t.pending == Units(t.batches) && t.sem <= s.sem
            && t.batches == s.batches[step.b := t.batches[step.b]]
            && t.flushes == s.flushes && t.epoch == s.epoch && (s.err.Some? ==> t.err.Some?)
  {
    match step {
      case Advance(b, r) =>
        AdvanceKeepsTotals(s, b, r);
      case AddPending(b) =>
        LastWasSent(s, s.batches[b]);
        TotalsUpdate(s.batches, b, Apply(s, step).batches[b]);
      case Send(b) =>
        TotalsUpdate(s.batches, b, Apply(s, step).batches[b]);
      case Resolve(b, _, _) =>
        TotalsUpdate(s.batches, b, Apply(s, step).batches[b]);
    }
  }

  lemma AdvanceKeepsTotals<E>(s: Sink<E>, b: nat, r: nat)
    requires IsRecord(s, b, r) && BatchOk(s, s.batches[b])
    requires s.batches[b].recs[r].stage !in {Unsent, Waiting, Returned}
    requires s.sem == Slots(s.batches) && s.pending == Units(s.batches)
    ensures var t := AdvanceRecord(s, b, r);
            && t.sem == Slots(t.batches) && t.pending == Units(t.batches) && t.sem <= s.sem
            && t.batches == s.batches[b := t.batches[b]]
            && t.flushes == s.flushes && t.epoch == s.epoch && (s.err.Some? ==> t.err.Some?)
  {
    var t := AdvanceRecord(s, b, r);
    assert RecordOk(s, s.batches[b], r);
    LastWasSent(s, s.batches[b]);
    TotalsUpdate(s.batches, b, t.batches[b]);
  }

  lemma LastWasSent<E>(s: Sink<E>, x: Batch<E>)
    requires BatchOk(s, x)
    ensures x.last.Some? ==> x.sent > 0
  {
    if x.last.Some? { assert RecordOk(s, x, x.last.value); }
  }

  lemma BatchStepKeepsValid<E>(maxInflight: nat, s: Sink<E>, step: Step<E>)
    requires Valid(maxInflight, s) && Enabled(maxInflight, s, step)
    requires step.AddPending? || step.Send? || step.Resolve? || step.Advance?
    ensures Valid(maxInflight, Apply(s, step))
  {
    assert BatchOk(s, s.batches[step.b]);
    StepKeepsBatch(maxInflight, s, step);
    BatchStepKeepsTotals(maxInflight, s, step);
    OneBatchKeepsValid(maxInflight, s, Apply(s, step), step.b);
  }

  lemma OneBatchKeepsValid<E>(maxInflight: nat, s: Sink<E>, t: Sink<E>, b: nat)
    requires Valid(maxInflight, s) && b < |s.batches| && |t.batches| == |s.batches|
    requires t.batches == s.batches[b := t.batches[b]]
    requires t.flushes == s.flushes && t.epoch == s.epoch && (s.err.Some? ==> t.err.Some?)
    requires BatchOk(t, t.batches[b]) && Later(s.batches[b], t.batches[b])
    requires t.sem == Slots(t.batches) && t.pending == Units(t.batches) && t.sem <= s.sem
    ensures Valid(maxInflight, t)
  {
    PutKeepsOthers(s, t, b);
    FlushesStay(s, t);
  }

  lemma AdvanceIsLater<E>(s: Sink<E>, b: nat, r: nat)
    requires IsRecord(s, b, r) && BatchOk(s, s.batches[b])
    requires s.batches[b].recs[r].stage !in {Unsent, Waiting, Returned}
    ensures Later(s.batches[b], AdvanceRecord(s, b, r).batches[b])
  {
    assert RecordOk(s, s.batches[b], r);
  }

  lemma OtherStepKeepsValid<E>(maxInflight: nat, s: Sink<E>, step: Step<E>)
    requires Valid(maxInflight, s) && Enabled(maxInflight, s, step)
    requires step.Acquire? || step.Reset?
    ensures Valid(maxInflight, Apply(s, step))
  {
    var t := Apply(s, step);
    if step.Acquire? {
      var x := t.batches[|s.batches|];
      assert t.batches[..|s.batches|] == s.batches;
      UncountedAll(x.recs);
      forall i | 0 <= i < |x.recs| ensures RecordOk(t, x, i) {}
    }
    forall c | 0 <= c < |s.batches| ensures BatchOk(t, s.batches[c]) {
      var x := s.batches[c];
      assert BatchOk(s, x);
      forall i | 0 <= i < |x.recs| ensures RecordOk(t, x, i) { assert RecordOk(s, x, i); }
    }
    FlushesStay(s, t);
  }

  /** A batch that left Flush's wait group in the current epoch while the
      sticky error is unset was delivered in full. */
  lemma LeftAndNoError<E>(s: Sink<E>, x: Batch<E>)
    requires BatchOk(s, x) && x.left == 1 && x.epoch == s.epoch && s.err.None?
    ensures Delivered(x)
  {
    forall r | 0 <= r < |x.recs| ensures x.recs[r] == Record(Returned, None) {
      UncountedZero(x.recs, r);
      assert RecordOk(s, x, r);
    }
  }

  lemma FlushStepKeepsValid<E>(maxInflight: nat, s: Sink<E>, step: Step<E>)
    requires Valid(maxInflight, s) && Enabled(maxInflight, s, step)
    requires step.FlushStart? || step.FlushSeesZero? || step.FlushReads? || step.FlushExpires?
    ensures Valid(maxInflight, Apply(s, step))
  {
    var t := Apply(s, step);
    forall c | 0 <= c < |t.batches| ensures BatchOk(t, t.batches[c]) {
      var x := s.batches[c];
      assert BatchOk(s, x);
      forall i | 0 <= i < |x.recs| ensures RecordOk(t, x, i) { assert RecordOk(s, x, i); }
    }
    FlushesStay(s, t);
    if step.FlushSeesZero? {
      forall b | b in s.flushes[step.f].covers ensures b < |s.batches| && s.batches[b].left == 1 {
        assert FlushOk(s, s.flushes[step.f]);
        NoUnits(s.batches, b);
        assert BatchOk(s, s.batches[b]);
      }
    }
    if step.FlushReads? && s.err.None? {
      assert FlushOk(s, s.flushes[step.f]);
      forall b | b in s.flushes[step.f].covers && s.batches[b].epoch == s.epoch ensures Delivered(s.batches[b]) {
        LeftAndNoError(s, s.batches[b]);
      }
    }
  }

  /** Every interleaving keeps the promise protocol's invariant. */
  lemma StepKeepsValid<E>(maxInflight: nat, s: Sink<E>, step: Step<E>)
    requires Valid(maxInflight, s) && Enabled(maxInflight, s, step)
    ensures Valid(maxInflight, Apply(s, step))
  {
    match step
    case AddPending(_) => BatchStepKeepsValid(maxInflight, s, step);
    case Send(_) => BatchStepKeepsValid(maxInflight, s, step);
    case Resolve(_, _, _) => BatchStepKeepsValid(maxInflight, s, step);
    case Advance(_, _) => BatchStepKeepsValid(maxInflight, s, step);
    case Acquire(_) => OtherStepKeepsValid(maxInflight, s, step);
    case Reset => OtherStepKeepsValid(maxInflight, s, step);
    case _ => FlushStepKeepsValid(maxInflight, s, step);
  }

  // ---- Whole runs ----

  ghost predicate Next<E(!new)>(maxInflight: nat, s: Sink<E>, t: Sink<E>) {
    exists step :: Enabled(maxInflight, s, step) && t == Apply(s, step)
  }

  ghost predicate IsRun<E(!new)>(maxInflight: nat, run: seq<Sink<E>>) {
    && run != [] && run[0] == INITIAL()
    && forall i :: 0 <= i < |run| - 1 ==> Next(maxInflight, run[i], run[i + 1])
  }

  lemma {:induction false} RunKeepsValid<E(!new)>(maxInflight: nat, run: seq<Sink<E>>)
    requires IsRun(maxInflight, run)
    ensures Valid(maxInflight, run[|run| - 1])
    decreases |run|
  {
    var n := |run| - 1;
    if n > 0 {
      RunKeepsValid(maxInflight, run[..n]);
      assert Next(maxInflight, run[n - 1], run[n]);
      var step :| Enabled(maxInflight, run[n - 1], step) && run[n] == Apply(run[n - 1], step);
      StepKeepsValid(maxInflight, run[n - 1], step);
    }
  }

  /** The promise protocol, in every state any interleaving can reach: `done`
      never runs twice, never after a failure, slot and pending unit are given
      back at most once; and once every promise of a non-empty batch has
      returned, exactly once, with `done` run exactly when nothing failed. */
  lemma PromiseProtocol<E(!new)>(maxInflight: nat, run: seq<Sink<E>>, b: nat)
    requires IsRun(maxInflight, run) && b < |run[|run| - 1].batches|
    ensures var x := run[|run| - 1].batches[b];
            && x.ended <= x.begun <= 1 && x.left <= x.released <= 1
            && ((exists r :: 0 <= r < |x.recs| && x.recs[r].err.Some?) ==> x.begun == 0)
            && (x.recs != [] && (forall r :: 0 <= r < |x.recs| ==> x.recs[r].stage == Returned) ==>
                  && x.released == 1 && x.left == 1 && x.begun == x.ended
                  && (x.begun == 1 <==> forall r :: 0 <= r < |x.recs| ==> x.recs[r].err.None?))
  {
    RunKeepsValid(maxInflight, run);
    var s := run[|run| - 1];
    var x := s.batches[b];
    assert BatchOk(s, x);
    forall r | 0 <= r < |x.recs| && x.recs[r].err.Some? ensures x.begun == 0 {
      assert RecordOk(s, x, r);
      if x.last.Some? { UncountedZero(x.recs, r); }
    }
    if x.recs != [] && forall r :: 0 <= r < |x.recs| ==> x.recs[r].stage == Returned {
      AllCounted(x.recs);
      assert x.last.Some?;
      assert x.recs[x.last.value].stage == Returned;
    }
  }

  lemma {:induction false} AllCounted(recs: seq<Record>)
    requires forall r :: 0 <= r < |recs| ==> recs[r].stage == Returned
    ensures Uncounted(recs) == 0
    decreases |recs|
  {
    if recs != [] { AllCounted(recs[..|recs| - 1]); }
  }

  /** How many steps of its promise a record has ahead. */
  function Ahead(stage: Stage): nat {
    match stage
    case Unsent => 10 case Waiting => 9 case Failing => 8 case Erring => 7 case Counting => 6 case Releasing => 5
    case Checking => 4 case Calling => 3 case Running => 2 case Leaving => 1 case Returned => 0
  }

  /** The stage a stage is followed by; a count or a check has two ways on. */
  predicate FollowedBy(now: Stage, next: Stage) {
    match now
    case Failing => next == Erring
    case Erring => next == Counting
    case Counting => next == Releasing || next == Returned
    case Releasing => next == Stage.Checking
    case Checking => next == Leaving || next == Calling
    case Calling => next == Stage.Running
    case Running => next == Leaving
    case Leaving => next == Returned
    case _ => next == now
  }

  lemma AdvancesStage<E>(s: Sink<E>, b: nat, r: nat)
    requires IsRecord(s, b, r)
    ensures var t := AdvanceRecord(s, b, r);
            && |t.batches| == |s.batches| && IsRecord(t, b, r)
            && FollowedBy(s.batches[b].recs[r].stage, t.batches[b].recs[r].stage)
  {}

  lemma FollowedIsNearer(now: Stage, next: Stage)
    requires FollowedBy(now, next) && Ahead(now) < 9
    ensures now !in {Unsent, Waiting} && (now != Returned ==> Ahead(next) < Ahead(now))
  {}

  /** Every promise that was started returns: in any state, its next step can
      be taken, brings it nearer to its end, and leaves all other records where
      they are. */
  lemma PromiseEnds<E>(maxInflight: nat, s: Sink<E>, b: nat, r: nat)
    requires IsRecord(s, b, r) && Ahead(s.batches[b].recs[r].stage) < 9
    ensures s.batches[b].recs[r].stage == Returned || Enabled(maxInflight, s, Advance(b, r))
    ensures var t := AdvanceRecord(s, b, r);
            && |t.batches| == |s.batches| && IsRecord(t, b, r)
            && (s.batches[b].recs[r].stage != Returned ==> Ahead(t.batches[b].recs[r].stage) < Ahead(s.batches[b].recs[r].stage))
            && forall c: nat, q: nat :: IsRecord(s, c, q) && !(c == b && q == r) ==>
                 IsRecord(t, c, q) && t.batches[c].recs[q] == s.batches[c].recs[q]
  {
    hide AdvanceRecord, Ahead, FollowedBy;
    AdvancesStage(s, b, r);
    FollowedIsNearer(s.batches[b].recs[r].stage, AdvanceRecord(s, b, r).batches[b].recs[r].stage);
    forall c: nat, q: nat | IsRecord(s, c, q) && !(c == b && q == r)
      ensures IsRecord(AdvanceRecord(s, b, r), c, q) && AdvanceRecord(s, b, r).batches[c].recs[q] == s.batches[c].recs[q]
    {
      AdvancesOne(s, b, r, c, q);
    }
  }

  // ---- Flush ----

  /** The states around the start of Flush call f. */
  ghost predicate Begins<E(!new)>(run: seq<Sink<E>>, i: nat, f: nat) {
    i + 1 < |run| && |run[i].flushes| == f && |run[i + 1].flushes| == f + 1
  }

  lemma CoversStay<E(!new)>(maxInflight: nat, s: Sink<E>, step: Step<E>, f: nat)
    requires Enabled(maxInflight, s, step) && f < |s.flushes|
    ensures var t := Apply(s, step);
            f < |t.flushes| && (t.flushes[f].Expired? || (!s.flushes[f].Expired? && t.flushes[f].covers == s.flushes[f].covers))
  {}

  lemma {:induction false} FlushCovers<E(!new)>(maxInflight: nat, run: seq<Sink<E>>, i: nat, f: nat)
    requires IsRun(maxInflight, run) && Begins(run, i, f)
    ensures var s := run[|run| - 1];
            f < |s.flushes| && (s.flushes[f].Expired? || s.flushes[f].covers == Submitted(run[i].batches))
    decreases |run|
  {
    hide Enabled, Apply, Submitted;
    var n := |run| - 1;
    assert Next(maxInflight, run[n - 1], run[n]);
    var step :| Enabled(maxInflight, run[n - 1], step) && run[n] == Apply(run[n - 1], step);
    if i == n - 1 {
      StartsFlush(maxInflight, run[i], step);
    } else {
      FlushCovers(maxInflight, run[..n], i, f);
      CoversStay(maxInflight, run[n - 1], step, f);
    }
  }

  lemma StartsFlush<E(!new)>(maxInflight: nat, s: Sink<E>, step: Step<E>)
    requires Enabled(maxInflight, s, step) && |Apply(s, step).flushes| == |s.flushes| + 1
    ensures Apply(s, step).flushes == s.flushes + [Waits(Submitted(s.batches))]
  {}

  /** Flush returning nil: every batch whose PublishBatch had handed over all
      records before the call began, submitted since the last Reset, was
      acknowledged record by record and its done callback has returned. */
  lemma FlushReturningNil<E(!new)>(maxInflight: nat, run: seq<Sink<E>>, i: nat, f: nat, b: nat)
    requires IsRun(maxInflight, run) && Begins(run, i, f)
    requires f < |run[|run| - 1].flushes| && run[|run| - 1].flushes[f].Answered? && run[|run| - 1].flushes[f].ok
    requires b < |run[i].batches| && run[i].batches[b].added && run[i].batches[b].sent == |run[i].batches[b].recs|
    ensures var s := run[|run| - 1];
            b < |s.batches| && (s.batches[b].epoch == s.flushes[f].epoch ==> Delivered(s.batches[b]))
  {
    RunKeepsValid(maxInflight, run);
    FlushCovers(maxInflight, run, i, f);
    var s := run[|run| - 1];
    assert FlushOk(s, s.flushes[f]);
    assert DeliveredIn(s.batches[b], s.flushes[f].epoch);
  }

  /** Some record failed and its promise made the error sticky. */
  ghost predicate Blamed<E>(s: Sink<E>) {
    exists b: nat, r: nat :: IsRecord(s, b, r) && s.batches[b].recs[r].err.Some? && PastErring(s.batches[b].recs[r].stage)
  }

  /** A record that has failed stays as it is, or is advanced. */
  lemma FailedRecordStays<E>(maxInflight: nat, s: Sink<E>, step: Step<E>, b: nat, r: nat)
    requires Valid(maxInflight, s) && Enabled(maxInflight, s, step) && IsRecord(s, b, r) && step != Advance(b, r)
    requires s.batches[b].recs[r].err.Some? && PastErring(s.batches[b].recs[r].stage)
    ensures var t := Apply(s, step); IsRecord(t, b, r) && t.batches[b].recs[r] == s.batches[b].recs[r]
  {
    hide Slots, Units, Counters, Uncounted, Valid, FlushOk;
    ValidRecord(maxInflight, s, b, r);
    if step.Advance? { AdvancesOne(s, step.b, step.r, b, r); }
  }

  lemma ValidRecord<E>(maxInflight: nat, s: Sink<E>, b: nat, r: nat)
    requires Valid(maxInflight, s) && IsRecord(s, b, r)
    ensures BatchOk(s, s.batches[b]) && RecordOk(s, s.batches[b], r)
  {
    hide RecordOk;
  }

  lemma AdvancesOne<E>(s: Sink<E>, c: nat, q: nat, b: nat, r: nat)
    requires IsRecord(s, c, q) && IsRecord(s, b, r) && (b != c || r != q)
    ensures var t := AdvanceRecord(s, c, q); IsRecord(t, b, r) && t.batches[b].recs[r] == s.batches[b].recs[r]
  {}

  lemma BlameStays<E>(maxInflight: nat, s: Sink<E>, step: Step<E>, b: nat, r: nat)
    requires Valid(maxInflight, s) && Enabled(maxInflight, s, step) && IsRecord(s, b, r)
    requires s.batches[b].recs[r].err.Some? && PastErring(s.batches[b].recs[r].stage)
    ensures Blamed(Apply(s, step))
  {
    hide Valid;
    var t := Apply(s, step);
    if step != Advance(b, r) { FailedRecordStays(maxInflight, s, step, b, r); }
    assert IsRecord(t, b, r) && t.batches[b].recs[r].err.Some? && PastErring(t.batches[b].recs[r].stage);
  }

  lemma ErrorIsBlamed<E>(maxInflight: nat, s: Sink<E>, step: Step<E>)
    requires Valid(maxInflight, s) && Enabled(maxInflight, s, step) && (s.err.Some? ==> Blamed(s))
    ensures Apply(s, step).err.Some? ==> Blamed(Apply(s, step))
  {
    var t := Apply(s, step);
    if s.err.Some? {
      var b: nat, r: nat :| IsRecord(s, b, r) && s.batches[b].recs[r].err.Some? && PastErring(s.batches[b].recs[r].stage);
      BlameStays(maxInflight, s, step, b, r);
    } else if step.Advance? && s.batches[step.b].recs[step.r].stage == Erring {
      assert BatchOk(s, s.batches[step.b]) && RecordOk(s, s.batches[step.b], step.r);
      assert IsRecord(t, step.b, step.r) && t.batches[step.b].recs[step.r].err.Some?;
    }
  }

  /** Between states j and j + 1 the promise of a failed record reports it. */
  ghost predicate ReportsAt<E(!new)>(run: seq<Sink<E>>, j: nat) {
    j + 1 < |run| && exists b: nat, r: nat ::
      && IsRecord(run[j], b, r) && run[j].batches[b].recs[r].stage == Erring && run[j].batches[b].recs[r].err.Some?
      && IsRecord(run[j + 1], b, r) && run[j + 1].batches[b].recs[r].stage == Counting
  }

  lemma NewErrorIsReported<E(!new)>(maxInflight: nat, s: Sink<E>, step: Step<E>)
    requires Valid(maxInflight, s) && Enabled(maxInflight, s, step) && Apply(s, step).err.Some?
    ensures Apply(s, step).epoch == s.epoch && (s.err.None? ==> ReportsAt([s, Apply(s, step)], 0))
  {
    var t := Apply(s, step);
    if s.err.None? {
      assert step.Advance? && s.batches[step.b].recs[step.r].stage == Erring;
      ValidRecord(maxInflight, s, step.b, step.r);
      assert [s, t][0] == s && [s, t][1] == t;
      assert IsRecord(t, step.b, step.r) && t.batches[step.b].recs[step.r].stage == Counting;
    }
  }

  /** STICKY. An error is sticky only if, since the last Reset, the promise of
      a failed record reported it. */
  lemma {:induction false} StickySinceReset<E(!new)>(maxInflight: nat, run: seq<Sink<E>>)
    requires IsRun(maxInflight, run) && run[|run| - 1].err.Some?
    ensures exists j: nat :: ReportsAt(run, j) && run[j + 1].epoch == run[|run| - 1].epoch
    decreases |run|
  {
    hide Valid, Enabled, Apply;
    var n := |run| - 1;
    assert Next(maxInflight, run[n - 1], run[n]);
    var step :| Enabled(maxInflight, run[n - 1], step) && run[n] == Apply(run[n - 1], step);
    RunKeepsValid(maxInflight, run[..n]);
    NewErrorIsReported(maxInflight, run[n - 1], step);
    if run[n - 1].err.Some? {
      StickySinceReset(maxInflight, run[..n]);
      var j: nat :| ReportsAt(run[..n], j) && run[..n][j + 1].epoch == run[..n][n - 1].epoch;
      assert ReportsAt(run, j);
    } else {
      assert ReportsAt(run, n - 1);
    }
  }

  lemma {:induction false} ErrorsAreBlamed<E(!new)>(maxInflight: nat, run: seq<Sink<E>>)
    requires IsRun(maxInflight, run)
    ensures run[|run| - 1].err.Some? ==> Blamed(run[|run| - 1])
    decreases |run|
  {
    hide Valid, Enabled, Apply, Blamed;
    var n := |run| - 1;
    if n > 0 {
      ErrorsAreBlamed(maxInflight, run[..n]);
      RunKeepsValid(maxInflight, run[..n]);
      assert Next(maxInflight, run[n - 1], run[n]);
      var step :| Enabled(maxInflight, run[n - 1], step) && run[n] == Apply(run[n - 1], step);
      ErrorIsBlamed(maxInflight, run[n - 1], step);
    }
  }

  lemma {:induction false} NoUnitsLeft<E>(bs: seq<Batch<E>>)
    requires forall b :: 0 <= b < |bs| ==> bs[b].left == 1
    ensures Units(bs) == 0
  {
    if bs != [] { NoUnitsLeft(bs[..|bs| - 1]); }
  }

  lemma Extends<E(!new)>(maxInflight: nat, run: seq<Sink<E>>, step: Step<E>) returns (longer: seq<Sink<E>>)
    requires IsRun(maxInflight, run) && Enabled(maxInflight, run[|run| - 1], step)
    ensures IsRun(maxInflight, longer) && longer == run + [Apply(run[|run| - 1], step)]
  {
    hide Enabled, Apply;
    var t := Apply(run[|run| - 1], step);
    longer := run + [t];
    forall i | 0 <= i < |longer| - 1 ensures Next(maxInflight, longer[i], longer[i + 1]) {
      if i < |run| - 1 { assert Next(maxInflight, run[i], run[i + 1]); }
    }
  }

  /** No batch is empty, and every promise of every batch has returned. */
  ghost predicate AllReturned<E>(s: Sink<E>) {
    && (forall b: nat, r: nat :: IsRecord(s, b, r) ==> s.batches[b].recs[r].stage == Returned)
    && forall b :: 0 <= b < |s.batches| ==> s.batches[b].events != []
  }

  /** FLUSH ANSWERS. Once every promise of every batch has returned, a Flush
      that is called then goes through and answers nil exactly when no error is
      sticky; it is, if no record failed. */
  lemma FlushAnswers<E(!new)>(maxInflight: nat, run: seq<Sink<E>>) returns (longer: seq<Sink<E>>)
    requires IsRun(maxInflight, run)
    requires AllReturned(run[|run| - 1])
    ensures IsRun(maxInflight, longer) && |longer| == |run| + 3 && run <= longer
    ensures var s, t := run[|run| - 1], longer[|longer| - 1];
            && t.batches == s.batches && t.err == s.err && |t.flushes| == |s.flushes| + 1
            && t.flushes[|s.flushes|].Answered? && (t.flushes[|s.flushes|].ok <==> s.err.None?)
            && ((forall b: nat, r: nat :: IsRecord(s, b, r) ==> s.batches[b].recs[r].err.None?) ==> t.flushes[|s.flushes|].ok)
  {
    hide BatchOk, Submitted;
    var s := run[|run| - 1];
    var f := |s.flushes|;
    RunKeepsValid(maxInflight, run);
    forall b | 0 <= b < |s.batches| ensures s.batches[b].left == 1 { PromisesReturned(maxInflight, s, b); }
    NoUnitsLeft(s.batches);
    ErrorsAreBlamed(maxInflight, run);
    var one := Extends(maxInflight, run, FlushStart);
    var two := Extends(maxInflight, one, FlushSeesZero(f));
    longer := Extends(maxInflight, two, FlushReads(f));
  }

  lemma PromisesReturned<E(!new)>(maxInflight: nat, s: Sink<E>, b: nat)
    requires Valid(maxInflight, s) && b < |s.batches| && s.batches[b].events != []
    requires forall r: nat :: IsRecord(s, b, r) ==> s.batches[b].recs[r].stage == Returned
    ensures s.batches[b].left == 1
  {
    var x := s.batches[b];
    assert BatchOk(s, x);
    forall r | 0 <= r < |x.recs| ensures x.recs[r].stage == Returned { assert IsRecord(s, b, r); }
    AllCounted(x.recs);
  }

  /** Why runPublisher must not submit an empty batch: no promise ever runs, so
      its slot is never given back, its pending unit stays, and Flush waits. */
  lemma EmptyBatchLeaks<E(!new)>(maxInflight: nat, run: seq<Sink<E>>, b: nat)
    requires IsRun(maxInflight, run) && b < |run[|run| - 1].batches|
    requires run[|run| - 1].batches[b].events == []
    ensures var s := run[|run| - 1];
            && s.batches[b].released == 0 && s.batches[b].begun == 0 && s.sem >= 1
            && (s.batches[b].added ==> s.pending >= 1)
  {
    RunKeepsValid(maxInflight, run);
    var s := run[|run| - 1];
    assert BatchOk(s, s.batches[b]);
    HeldCounts(s.batches, b);
  }

  lemma {:induction false} HeldCounts<E>(bs: seq<Batch<E>>, b: nat)
    requires b < |bs|
    ensures bs[b].released == 0 ==> Slots(bs) >= 1
    ensures bs[b].added && bs[b].left == 0 ==> Units(bs) >= 1
    decreases |bs|
  {
    if b < |bs| - 1 { HeldCounts(bs[..|bs| - 1], b); }
  }

  // ---- Refinement of the Sink contract ----

  predicate IsResolved(stage: Stage) { stage !in {Unsent, Waiting} }

  ghost function Outcome(recs: seq<Record>, bad: bool): set<nat> {
    set r | 0 <= r < |recs| && IsResolved(recs[r].stage) && recs[r].err.Some? == bad
  }

  ghost function AbsBatch<E>(x: Batch<E>): C.Batch<E> {
    C.Batch(x.events, x.sent, Outcome(x.recs, false), Outcome(x.recs, true), x.released == 0, x.begun == 1, x.left == 1, x.epoch)
  }

  ghost function Abs<E>(s: Sink<E>): C.Sink<E> {
    C.Sink(seq(|s.batches|, i requires 0 <= i < |s.batches| => AbsBatch(s.batches[i])), s.err, s.epoch)
  }

  /** The contract step an atomic step of the sink amounts to, if any. */
  ghost function Meaning<E>(s: Sink<E>, step: Step<E>): Option<C.Step<E>> {
    match step
    case Acquire(events) => Some(C.Open(events))
    case Send(b) => Some(C.Produce(b))
    case Resolve(b, r, err) => Some(if err.None? then C.Ack(b, r) else C.Fail(b, r))
    case Reset => Some(C.Reset)
    case Advance(b, r) =>
      if !IsRecord(s, b, r) then None else
      (match s.batches[b].recs[r].stage
       case Erring => Some(C.SetErr(if s.batches[b].recs[r].err.Some? then s.batches[b].recs[r].err.value else Other))
       case Releasing => Some(C.Release(b))
       case Calling => Some(C.Done(b))
       case Leaving => Some(C.Finish(b))
       case _ => None)
    case _ => None
  }

  lemma {:induction false} InUseIsSlots<E>(s: Sink<E>, n: nat)
    requires n <= |s.batches|
    ensures C.InUse(Abs(s).batches[..n]) == Slots(s.batches[..n])
  {
    if n > 0 {
      InUseIsSlots(s, n - 1);
      assert Abs(s).batches[..n][..n - 1] == Abs(s).batches[..n - 1];
      assert s.batches[..n][..n - 1] == s.batches[..n - 1];
    }
  }

  /** The last record of a batch resolves it: nothing is still out. */
  lemma LateIsResolved<E>(s: Sink<E>, x: Batch<E>)
    requires BatchOk(s, x) && x.last.Some?
    ensures C.Resolved(AbsBatch(x)) && x.recs != []
    ensures !x.failed ==> AbsBatch(x).failed == {}
    ensures x.failed ==> AbsBatch(x).failed != {}
    ensures x.failed && x.epoch == s.epoch ==> s.err.Some?
  {
    forall r | 0 <= r < |x.recs| ensures r in AbsBatch(x).acked || r in AbsBatch(x).failed {
      UncountedZero(x.recs, r);
    }
    if !x.failed {
      forall r | 0 <= r < |x.recs| ensures r !in AbsBatch(x).failed {
        UncountedZero(x.recs, r);
        assert RecordOk(s, x, r);
      }
    } else {
      var r :| 0 <= r < |x.recs| && x.recs[r].err.Some? && PastFailing(x.recs[r].stage);
      UncountedZero(x.recs, r);
      assert RecordOk(s, x, r);
      assert r in AbsBatch(x).failed;
    }
  }

  /** A change inside one batch that keeps its outcomes. */
  lemma SameOutcome(recs: seq<Record>, r: nat, x: Record)
    requires r < |recs| && IsResolved(recs[r].stage) == IsResolved(x.stage) && recs[r].err == x.err
    ensures forall bad :: Outcome(recs[r := x], bad) == Outcome(recs, bad)
  {
    forall bad ensures Outcome(recs[r := x], bad) == Outcome(recs, bad) {}
  }

  lemma NewOutcome(recs: seq<Record>, r: nat, x: Record)
    requires r < |recs| && recs[r].stage == Waiting && IsResolved(x.stage)
    ensures Outcome(recs[r := x], x.err.Some?) == Outcome(recs, x.err.Some?) + {r}
    ensures Outcome(recs[r := x], x.err.None?) == Outcome(recs, x.err.None?)
  {}

  lemma AcquireRefines<E>(maxInflight: nat, s: Sink<E>, events: seq<E>)
    requires Valid(maxInflight, s) && Enabled(maxInflight, s, Acquire(events)) && events != []
    ensures C.Enabled(maxInflight, Abs(s), C.Open(events)) && Abs(Apply(s, Acquire(events))) == C.Apply(Abs(s), C.Open(events))
  {
    hide BatchOk;
    var t := Apply(s, Acquire(events));
    InUseIsSlots(s, |s.batches|);
    assert s.batches[..|s.batches|] == s.batches && Abs(s).batches[..|s.batches|] == Abs(s).batches;
    assert AbsBatch(t.batches[|s.batches|]) == C.Batch(events, 0, {}, {}, true, false, false, s.epoch);
    assert Abs(t).batches == Abs(s).batches + [AbsBatch(t.batches[|s.batches|])];
  }

  /** Every atomic step of the Kafka sink is a step of the contract that the
      contract allows, or is invisible to it. */
  lemma Refines<E>(maxInflight: nat, s: Sink<E>, step: Step<E>)
    requires Valid(maxInflight, s) && Enabled(maxInflight, s, step)
    requires step.Acquire? ==> step.events != []
    ensures var m, t := Meaning(s, step), Apply(s, step);
            match m
            case None => Abs(t) == Abs(s)
            case Some(c) => C.Enabled(maxInflight, Abs(s), c) && Abs(t) == C.Apply(Abs(s), c)
  {
    hide Valid;
    var t := Apply(s, step);
    match step {
      case Acquire(events) => AcquireRefines(maxInflight, s, events);
      case AddPending(b) => assert Abs(t).batches == Abs(s).batches;
      case Send(b) => SendRefines(maxInflight, s, b);
      case Resolve(b, r, err) => ResolveRefines(maxInflight, s, b, r, err);
      case Advance(b, r) => AdvanceRefines(maxInflight, s, b, r);
      case Reset => assert Abs(t).batches == Abs(s).batches;
      case _ =>
    }
  }

  lemma OneBatchAbs<E>(s: Sink<E>, t: Sink<E>, b: nat)
    requires b < |s.batches| && |t.batches| == |s.batches| && t.batches == s.batches[b := t.batches[b]]
    ensures Abs(t).batches == Abs(s).batches[b := AbsBatch(t.batches[b])]
  {}

  lemma SendRefines<E>(maxInflight: nat, s: Sink<E>, b: nat)
    requires Valid(maxInflight, s) && Enabled(maxInflight, s, Send(b))
    ensures C.Enabled(maxInflight, Abs(s), C.Produce(b)) && Abs(Apply(s, Send(b))) == C.Apply(Abs(s), C.Produce(b))
  {
    var x := s.batches[b];
    assert BatchOk(s, x) && RecordOk(s, x, x.sent);
    SameOutcome(x.recs, x.sent, Record(Waiting, None));
    OneBatchAbs(s, Apply(s, Send(b)), b);
  }

  lemma ResolveRefines<E>(maxInflight: nat, s: Sink<E>, b: nat, r: nat, err: Option<Error>)
    requires Valid(maxInflight, s) && Enabled(maxInflight, s, Resolve(b, r, err))
    ensures var c := if err.None? then C.Ack(b, r) else C.Fail(b, r);
            C.Enabled(maxInflight, Abs(s), c) && Abs(Apply(s, Resolve(b, r, err))) == C.Apply(Abs(s), c)
  {
    var x, t := s.batches[b], Apply(s, Resolve(b, r, err));
    assert BatchOk(s, x) && RecordOk(s, x, r);
    NewOutcome(x.recs, r, t.batches[b].recs[r]);
    OneBatchAbs(s, t, b);
  }

  lemma AdvanceRefines<E>(maxInflight: nat, s: Sink<E>, b: nat, r: nat)
    requires Valid(maxInflight, s) && Enabled(maxInflight, s, Advance(b, r))
    ensures var m, t := Meaning(s, Advance(b, r)), AdvanceRecord(s, b, r);
            match m
            case None => Abs(t) == Abs(s)
            case Some(c) => C.Enabled(maxInflight, Abs(s), c) && Abs(t) == C.Apply(Abs(s), c)
  {
    if s.batches[b].recs[r].stage in {Erring, Releasing, Calling, Leaving} {
      VisibleAdvanceRefines(maxInflight, s, b, r);
    } else {
      SilentAdvanceRefines(maxInflight, s, b, r);
    }
  }

  lemma SilentAdvanceRefines<E>(maxInflight: nat, s: Sink<E>, b: nat, r: nat)
    requires Valid(maxInflight, s) && Enabled(maxInflight, s, Advance(b, r))
    requires s.batches[b].recs[r].stage !in {Erring, Releasing, Calling, Leaving}
    ensures Abs(AdvanceRecord(s, b, r)) == Abs(s)
  {
    var x, t := s.batches[b], AdvanceRecord(s, b, r);
    assert BatchOk(s, x) && RecordOk(s, x, r);
    SameOutcome(x.recs, r, t.batches[b].recs[r]);
    OneBatchAbs(s, t, b);
    assert AbsBatch(t.batches[b]) == AbsBatch(x);
    assert Abs(t).batches == Abs(s).batches;
  }

  lemma VisibleAdvanceRefines<E>(maxInflight: nat, s: Sink<E>, b: nat, r: nat)
    requires Valid(maxInflight, s) && Enabled(maxInflight, s, Advance(b, r))
    requires s.batches[b].recs[r].stage in {Erring, Releasing, Calling, Leaving}
    ensures var m, t := Meaning(s, Advance(b, r)), AdvanceRecord(s, b, r);
            m.Some? && C.Enabled(maxInflight, Abs(s), m.value) && Abs(t) == C.Apply(Abs(s), m.value)
  {
    var x, t := s.batches[b], AdvanceRecord(s, b, r);
    assert BatchOk(s, x) && RecordOk(s, x, r);
    SameOutcome(x.recs, r, t.batches[b].recs[r]);
    OneBatchAbs(s, t, b);
    var y := AbsBatch(t.batches[b]);
    assert Abs(s).batches[b] == AbsBatch(x);
    if x.recs[r].stage == Erring {
      assert y == AbsBatch(x);
      assert Abs(t).batches == Abs(s).batches;
    } else {
      LateIsResolved(s, x);
      assert y == match x.recs[r].stage
                  case Releasing => AbsBatch(x).(slot := false)
                  case Calling => AbsBatch(x).(done := true)
                  case _ => AbsBatch(x).(finished := true);
    }
  }

  /** When Flush is about to answer nil, the contract sees every batch it
      covers as finished, and no sticky error. */
  lemma FlushAnswersContract<E>(maxInflight: nat, s: Sink<E>, f: nat, b: nat)
    requires Valid(maxInflight, s) && Enabled(maxInflight, s, FlushReads(f)) && s.err.None?
    requires b in s.flushes[f].covers
    ensures b < |s.batches| && Abs(s).batches[b].finished && Abs(s).err.None?
  {
    assert FlushOk(s, s.flushes[f]);
  }
}
