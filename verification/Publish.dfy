/** pkg/hyperloop/hyperloop.go: drainBatch and runPublisher, over any outcome
    of their selects and of PublishBatch. */
module Publish {
  import opened Prelude
  import opened Events

  /** When a drain is interrupted: the timer fires, or the context ends, once
      that many micro-batches were taken, if the drain lasts so long. */
  datatype Interrupts = Interrupts(timer: nat, context: Option<nat>)

  predicate CancelledAt(w: Interrupts, taken: nat) { w.context == Some(taken) }

  /** With k micro-batches taken nothing ends the drain. */
  ghost predicate Passes(queue: seq<seq<Event>>, maxSize: nat, w: Interrupts, k: nat)
    requires k <= |queue|
  {
    !CancelledAt(w, k) && (k >= 1 ==> |Flatten(queue[..k])| < maxSize && k != w.timer)
  }

  /** Nothing ends the drain before `taken` micro-batches are taken. */
  ghost predicate GoesOn(queue: seq<seq<Event>>, maxSize: nat, w: Interrupts, taken: nat)
    requires taken <= |queue|
  {
    forall k :: 0 <= k < taken ==> Passes(queue, maxSize, w, k)
  }

  lemma GoesOnNext(queue: seq<seq<Event>>, maxSize: nat, w: Interrupts, taken: nat)
    requires taken < |queue| && GoesOn(queue, maxSize, w, taken) && !CancelledAt(w, taken)
    requires taken >= 1 ==> |Flatten(queue[..taken])| < maxSize && taken != w.timer
    ensures GoesOn(queue, maxSize, w, taken + 1)
  {
    hide Flatten;
  }

  lemma WentOn(queue: seq<seq<Event>>, maxSize: nat, w: Interrupts, taken: nat)
    requires taken < |queue| && GoesOn(queue, maxSize, w, taken + 1)
    ensures GoesOn(queue, maxSize, w, taken) && (taken >= 1 ==> |Flatten(queue[..taken])| < maxSize)
  {
    hide Flatten;
    assert Passes(queue, maxSize, w, taken);
  }

  /** drainBatch. `queue` is what the queue carries from now until it closes.
      The batch is the micro-batches taken, in order. The drain ends with the
      first of: the context ends, the queue is closed and empty, the batch is
      full (at most one micro-batch past the limit), the timer fires; only the
      last two leave it open, and the first micro-batch does not wait for the
      timer. */
  method DrainBatch(queue: seq<seq<Event>>, maxSize: nat, w: Interrupts) returns (batch: seq<Event>, open: bool, taken: nat)
    ensures taken <= |queue| && batch == Flatten(queue[..taken]) && GoesOn(queue, maxSize, w, taken)
    ensures open ==> taken > 0 && (|batch| >= maxSize || taken == w.timer)
    ensures !open ==> CancelledAt(w, taken) || taken == |queue|
    ensures !open && taken > 0 ==> |batch| < maxSize && taken != w.timer
  {
    hide Flatten, GoesOn;
    batch, taken := [], 0;
    NothingTaken(queue, maxSize, w);
    if w.context == Some(0) { return batch, false, taken; }
    if |queue| == 0 { return batch, false, taken; }
    GoesOnNext(queue, maxSize, w, 0);
    batch, taken := queue[0], 1;
    FirstTaken(queue);
    while |batch| < maxSize
      invariant 1 <= taken <= |queue| && batch == Flatten(queue[..taken]) && GoesOn(queue, maxSize, w, taken)
      decreases |queue| - taken
    {
      if w.timer == taken { return batch, true, taken; }
      if w.context == Some(taken) { return batch, false, taken; }
      if taken == |queue| { return batch, false, taken; }
      assert queue[..taken + 1] == queue[..taken] + [queue[taken]];
      FlattenSnoc(queue[..taken], queue[taken]);
      GoesOnNext(queue, maxSize, w, taken);
      batch := batch + queue[taken];
      taken := taken + 1;
    }
    open := true;
  }

  lemma NothingTaken(queue: seq<seq<Event>>, maxSize: nat, w: Interrupts)
    ensures queue[..0] == [] && Flatten(queue[..0]) == [] && GoesOn(queue, maxSize, w, 0)
  {}

  lemma FirstTaken(queue: seq<seq<Event>>)
    requires queue != []
    ensures Flatten(queue[..1]) == queue[0] && Flatten(queue[..0]) == []
  {
    assert queue[..1] == [queue[0]] && queue[..1][1..] == [];
    assert queue[0] + [] == queue[0];
  }

  /** The size limit this gives: with micro-batches of at most f events, a
      batch overshoots maxSize by less than one micro-batch. */
  lemma BatchIsBounded(queue: seq<seq<Event>>, taken: nat, maxSize: nat, w: Interrupts, f: nat)
    requires taken <= |queue| && GoesOn(queue, maxSize, w, taken)
    requires maxSize > 0 && f > 0 && forall x :: x in queue ==> |x| <= f
    ensures |Flatten(queue[..taken])| <= maxSize + f - 1
  {
    if taken > 0 {
      assert queue[..taken] == queue[..taken - 1] + [queue[taken - 1]];
      FlattenSnoc(queue[..taken - 1], queue[taken - 1]);
      assert queue[taken - 1] in queue;
      assert Passes(queue, maxSize, w, taken - 1);
      if taken == 1 { assert Flatten(queue[..0]) == []; }
    }
  }

  /** The newest event time of a batch, or 0. */
  predicate IsNewest(batch: seq<Event>, ms: int) {
    && ms >= 0 && (forall e :: e in batch ==> e.occurredMs <= ms)
    && (ms == 0 || exists e :: e in batch && e.occurredMs == ms)
  }

  method Newest(batch: seq<Event>) returns (ms: int)
    ensures IsNewest(batch, ms)
  {
    ms := 0;
    for i := 0 to |batch|
      invariant ms >= 0 && forall j :: 0 <= j < i ==> batch[j].occurredMs <= ms
      invariant ms == 0 || exists j :: 0 <= j < i && batch[j].occurredMs == ms
    {
      if batch[i].occurredMs > ms { ms := batch[i].occurredMs; }
    }
  }

  /** Draining `taken` more micro-batches after the first `at`. */
  lemma Progress(queue: seq<seq<Event>>, at: nat, taken: nat)
    requires at <= |queue| && taken <= |queue[at..]|
    ensures Flatten(queue[..at + taken]) == Flatten(queue[..at]) + Flatten(queue[at..][..taken])
    ensures Flatten(queue[..at]) <= Flatten(queue) && Flatten(queue[..at + taken]) <= Flatten(queue)
    ensures at + taken == |queue| ==> queue[..at + taken] == queue
    ensures queue[at..at + taken] == queue[at..][..taken]
    ensures Flatten<Event>([]) == [] && (taken == 0 ==> Flatten(queue[at..][..taken]) == []) && (at == 0 ==> queue[..at] == [])
  {
    hide Flatten;
    var more := queue[at..][..taken];
    assert more == queue[at..at + taken];
    assert queue[..at + taken][..at] == queue[..at] && queue[..at + taken][at..] == more;
    SplitAt(queue[..at + taken], at);
    FlattenAppend(queue[..at], more);
    SplitAt(queue, at + taken);
    FlattenAppend(queue[..at + taken], queue[at + taken..]);
    SplitAt(queue, at);
    FlattenAppend(queue[..at], queue[at..]);
    NothingFlattens();
  }

  lemma SplitAt<T>(s: seq<T>, m: nat)
    requires m <= |s|
    ensures s[..m] + s[m..] == s
  {}

  lemma NothingFlattens()
    ensures Flatten<Event>([]) == []
  {}

  lemma TakenIsNotEmpty(queue: seq<seq<Event>>, at: nat, taken: nat)
    requires at <= |queue| && taken <= |queue[at..]|
    ensures (forall x :: x in queue ==> x != []) && taken > 0 ==> Flatten(queue[at..][..taken]) != []
  {
    if taken > 0 {
      assert queue[at..][..taken][0] == queue[at];
      assert queue[at] in queue;
    }
  }

  /** What PublishBatch returns: nil, an error, or any error after the context
      ended. */
  datatype Publication = Accepted | Fails(error: Error) | Ended

  datatype Round = Round(drain: Interrupts, publish: Publication)

  /** One publisher: what it handed to the sink, with the newest event time
      the batch's callback will record. */
  class Worker {
    const maxSize: nat
    var batches: seq<seq<Event>>
    var newest: seq<int>

    ghost predicate Valid()
      reads this
    {
      && maxSize > 0 && |newest| == |batches|
      && forall i :: 0 <= i < |batches| ==> batches[i] != [] && IsNewest(batches[i], newest[i])
    }

    constructor (maxSize: nat)
      requires maxSize > 0
      ensures Valid() && batches == [] && this.maxSize == maxSize
    {
      this.maxSize := maxSize;
      batches, newest := [], [];
    }

    /** runPublisher. `plan` says for every round how its drain is interrupted
        and what PublishBatch returns. The rounds before the last submitted the
        first `at` micro-batches of the queue, in order and without empty
        batches; the last one drained `taken` more, and submitted them if
        PublishBatch accepted. An error is returned exactly if the last round
        had something to publish and PublishBatch failed with the context
        alive, and nil only when the queue is drained or the context ended. */
    method RunPublisher(queue: seq<seq<Event>>, plan: nat -> Round)
      returns (err: Option<Error>, ghost rounds: nat, ghost at: nat, ghost taken: nat)
      requires Valid() && batches == []
      modifies this
      ensures Valid() && rounds > 0 && at + taken <= |queue|
      ensures var last := Flatten(queue[at..at + taken]);
              && Flatten(batches) == Flatten(queue[..at]) + (if plan(rounds - 1).publish.Accepted? then last else [])
              && err == (if last != [] && plan(rounds - 1).publish.Fails? then Some(plan(rounds - 1).publish.error) else None)
              && (err.None? ==> at + taken == |queue| || CancelledAt(plan(rounds - 1).drain, taken)
                                || (last != [] && plan(rounds - 1).publish.Ended?))
      ensures Flatten(batches) <= Flatten(queue)
      ensures (forall x :: x in queue ==> x != []) ==> forall k :: 0 <= k < rounds - 1 ==> plan(k).publish.Accepted?
    {
      hide Flatten, IsNewest;
      var from: nat, n: nat := 0, 0;
      rounds := 0;
      Progress(queue, 0, 0);
      while true
        invariant Valid() && from <= |queue| && n == rounds && Flatten(batches) == Flatten(queue[..from])
        invariant (forall x :: x in queue ==> x != []) ==> forall k :: 0 <= k < rounds ==> plan(k).publish.Accepted?
        decreases |queue| - from
      {
        var round := plan(n);
        n, rounds, at := n + 1, rounds + 1, from;
        var batch, open, count := DrainBatch(queue[from..], maxSize, round.drain);
        taken := count;
        Progress(queue, from, count);
        TakenIsNotEmpty(queue, from, count);
        if |batch| > 0 {
          var ms := Newest(batch);
          if round.publish.Fails? { return Some(round.publish.error), rounds, at, taken; }
          if round.publish.Ended? { return None, rounds, at, taken; }
          FlattenSnoc(batches, batch);
          batches, newest := batches + [batch], newest + [ms];
        }
        if !open { return None, rounds, at, taken; }
        from := from + count;
      }
    }
  }
}
