/** The asynchronous Sink contract (pkg/hyperloop/hyperloop.go): what the
    pipeline may rely on, as a state machine over submitted batches. */
module SinkContract {
  import opened Prelude

  /** `produced` events have been handed to the producer; `acked` and `failed`
      are the indexes of the events resolved either way. `finished` is set
      when the batch no longer counts for Flush. */
  datatype Batch<E> = Batch(events: seq<E>, produced: nat, acked: set<nat>, failed: set<nat>,
                            slot: bool, done: bool, finished: bool, epoch: nat)

  /** `err` is the sticky error, `epoch` the number of Resets so far. */
  datatype Sink<E> = Sink(batches: seq<Batch<E>>, err: Option<Error>, epoch: nat)

  datatype Step<E> =
    | Open(events: seq<E>)      // take an in-flight slot for a batch
    | Produce(b: nat)           // hand the next event of b to the producer
    | Ack(b: nat, i: nat)       // event i of b is durably published
    | Fail(b: nat, i: nat)      // event i of b failed permanently
    | SetErr(e: Error)          // an asynchronous failure becomes sticky
    | Release(b: nat)           // the in-flight slot of b is given back
    | Done(b: nat)              // the done callback of b runs
    | Finish(b: nat)            // b leaves the set Flush waits for
    | Reset                     // a later run starts on the same sink

  ghost predicate Resolved<E>(b: Batch<E>) {
    forall i :: 0 <= i < |b.events| ==> i in b.acked || i in b.failed
  }

  function InUse<E>(bs: seq<Batch<E>>): nat {
    if bs == [] then 0 else (if bs[|bs| - 1].slot then 1 else 0) + InUse(bs[..|bs| - 1])
  }

  ghost predicate Enabled<E>(maxInflight: nat, s: Sink<E>, step: Step<E>) {
    match step
    case Open(events) => |events| > 0 && InUse(s.batches) < maxInflight
    case Produce(b) => b < |s.batches| && s.batches[b].produced < |s.batches[b].events|
    case Ack(b, i) => Pending(s, b, i)
    case Fail(b, i) => Pending(s, b, i)
    case SetErr(_) => true
    case Release(b) => b < |s.batches| && s.batches[b].slot && Resolved(s.batches[b])
    case Done(b) =>
      && b < |s.batches| && Resolved(s.batches[b]) && s.batches[b].failed == {}
      && !s.batches[b].slot && !s.batches[b].done && !s.batches[b].finished
    case Finish(b) =>
      && b < |s.batches| && Resolved(s.batches[b]) && !s.batches[b].slot && !s.batches[b].finished
      && (s.batches[b].failed == {} ==> s.batches[b].done)
      && (s.batches[b].failed != {} && s.batches[b].epoch == s.epoch ==> s.err.Some?)
    case Reset => true
  }

  ghost predicate Pending<E>(s: Sink<E>, b: nat, i: nat) {
    b < |s.batches| && i < s.batches[b].produced && i !in s.batches[b].acked && i !in s.batches[b].failed
  }

  /** The step names a batch that exists. */
  predicate Refers<E>(s: Sink<E>, step: Step<E>) {
    step.Open? || step.SetErr? || step.Reset? || step.b < |s.batches|
  }

  ghost function Apply<E>(s: Sink<E>, step: Step<E>): Sink<E>
    requires Refers(s, step)
  {
    match step
    case Open(events) => s.(batches := s.batches + [Batch(events, 0, {}, {}, true, false, false, s.epoch)])
    case Produce(b) => s.(batches := s.batches[b := s.batches[b].(produced := s.batches[b].produced + 1)])
    case Ack(b, i) => s.(batches := s.batches[b := s.batches[b].(acked := s.batches[b].acked + {i})])
    case Fail(b, i) => s.(batches := s.batches[b := s.batches[b].(failed := s.batches[b].failed + {i})])
    case SetErr(e) => s.(err := Sticky(s.err, e))
    case Release(b) => s.(batches := s.batches[b := s.batches[b].(slot := false)])
    case Done(b) => s.(batches := s.batches[b := s.batches[b].(done := true)])
    case Finish(b) => s.(batches := s.batches[b := s.batches[b].(finished := true)])
    case Reset => s.(err := None, epoch := s.epoch + 1)
  }

  function INITIAL<E>(): Sink<E> { Sink([], None, 0) }

  // ---- What the contract gives its caller, in every reachable state ----

  ghost predicate BatchOk<E>(s: Sink<E>, b: Batch<E>) {
    && 0 < |b.events| && b.produced <= |b.events| && b.epoch <= s.epoch
    && (forall i :: i in b.acked || i in b.failed ==> i < b.produced)
    && b.acked !! b.failed
    && (!b.slot ==> Resolved(b))
    && (b.done ==> Resolved(b) && b.failed == {} && !b.slot)
    && (b.finished ==> Resolved(b) && !b.slot && (b.failed == {} ==> b.done)
                       && (b.failed != {} && b.epoch == s.epoch ==> s.err.Some?))
  }

  ghost predicate Valid<E>(maxInflight: nat, s: Sink<E>) {
    && InUse(s.batches) <= maxInflight
    && forall b :: 0 <= b < |s.batches| ==> BatchOk(s, s.batches[b])
  }

  lemma {:induction false} InUseUpdate<E>(bs: seq<Batch<E>>, b: nat, x: Batch<E>)
    requires b < |bs|
    ensures InUse(bs[b := x]) == InUse(bs) - (if bs[b].slot then 1 else 0) + (if x.slot then 1 else 0)
    decreases |bs|
  {
    var last := |bs| - 1;
    if b < last {
      assert bs[b := x][..last] == bs[..last][b := x];
      InUseUpdate(bs[..last], b, x);
    } else {
      assert bs[b := x][..last] == bs[..last];
    }
  }

  /** `done` only after every event of the batch was acknowledged and never
      after a failure, slots bounded, failures sticky before a batch finishes. */
  lemma StepKeepsValid<E>(maxInflight: nat, s: Sink<E>, step: Step<E>)
    requires Valid(maxInflight, s) && Enabled(maxInflight, s, step)
    ensures Valid(maxInflight, Apply(s, step))
  {
    var t := Apply(s, step);
    if step.Open? {
      assert t.batches[..|s.batches|] == s.batches;
    } else if !step.SetErr? && !step.Reset? {
      InUseUpdate(s.batches, step.b, t.batches[step.b]);
      forall b | 0 <= b < |t.batches| ensures BatchOk(t, t.batches[b]) {
        assert BatchOk(s, s.batches[b]);
      }
    } else {
      forall b | 0 <= b < |t.batches| ensures BatchOk(t, t.batches[b]) {
        assert BatchOk(s, s.batches[b]);
      }
    }
  }
}
