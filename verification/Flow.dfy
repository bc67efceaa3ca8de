/** Conservation and order: at every moment, what the source sent for a queue
    is, in order, what was submitted for it, then what is in flight to its
    publisher. Nothing is lost, duplicated, reordered or misrouted. */
module Flow {
  import opened Prelude
  import opened Events
  import opened Pipeline
  import S = SinkContract
  import Keys

  /** All events of the batches that got a slot, in order. */
  function Batched(bs: seq<S.Batch<Event>>): seq<Event> {
    if bs == [] then [] else Batched(bs[..|bs| - 1]) + bs[|bs| - 1].events
  }

  /** The line of events of queue q, oldest first. */
  function Line(c: Config, q: nat, taken: seq<Event>, buf: seq<Event>, queue: seq<seq<Event>>, staging: seq<Event>,
                cur: seq<Event>, out: seq<seq<Event>>): seq<Event>
    requires ConfigOk(c)
  {
    Filter(On(c, q), taken) + buf + Flatten(queue) + staging + Filter(On(c, q), cur) + Filter(On(c, q), Flatten(out))
  }

  ghost function LineOf(c: Config, r: Run, q: nat): seq<Event>
    requires ConfigOk(c) && Shaped(c, r) && q < c.queues
  {
    Line(c, q, Batched(r.sink.batches), r.pubs[q].buf, r.disp.queues[q], r.disp.staging[q], r.disp.cur, r.out)
  }

  ghost function Sent(r: Run): seq<Event>
    requires r.sent <= |r.stream|
  {
    r.stream[..r.sent]
  }

  /** Everything sent for queue q is in its line, in the order it was sent. */
  ghost predicate FlowAt(c: Config, r: Run, q: nat)
    requires ConfigOk(c) && Shaped(c, r) && q < c.queues
  {
    Filter(On(c, q), Sent(r)) == LineOf(c, r, q)
  }

  /** The part of publisher q's current batch not handed to the producer yet. */
  ghost function Unproduced(r: Run, q: nat): seq<Event>
    requires q < |r.pubs|
  {
    if r.pubs[q].phase.Producing? && r.pubs[q].phase.b < |r.sink.batches|
       && r.sink.batches[r.pubs[q].phase.b].produced <= |r.sink.batches[r.pubs[q].phase.b].events|
    then r.sink.batches[r.pubs[q].phase.b].events[r.sink.batches[r.pubs[q].phase.b].produced..]
    else []
  }

  /** Submissions of queue q follow the batches of queue q. */
  ghost predicate SubmitAt(c: Config, r: Run, q: nat)
    requires ConfigOk(c) && Shaped(c, r) && q < c.queues
  {
    Filter(On(c, q), r.submitted) + Unproduced(r, q) == Filter(On(c, q), Batched(r.sink.batches))
  }

  ghost predicate ProducerAt(c: Config, r: Run, q: nat)
    requires ConfigOk(c) && Shaped(c, r) && q < c.queues
  {
    r.pubs[q].phase.Producing? ==>
      && r.pubs[q].buf == [] && r.pubs[q].phase.b < |r.sink.batches|
      && r.sink.batches[r.pubs[q].phase.b].produced <= |r.sink.batches[r.pubs[q].phase.b].events|
      && r.sink.batches[r.pubs[q].phase.b].events != []
      && forall e :: e in r.sink.batches[r.pubs[q].phase.b].events ==> Route(c, e) == q
  }

  ghost predicate Flowing(c: Config, r: Run)
    requires ConfigOk(c)
  {
    && Shaped(c, r)
    && forall q :: 0 <= q < c.queues ==> FlowAt(c, r, q) && SubmitAt(c, r, q) && ProducerAt(c, r, q)
  }

  // ---- How a line changes ----

  lemma LineSend(c: Config, q: nat, taken: seq<Event>, buf: seq<Event>, queue: seq<seq<Event>>, staging: seq<Event>,
                 cur: seq<Event>, out: seq<seq<Event>>, x: seq<Event>)
    requires ConfigOk(c)
    ensures Line(c, q, taken, buf, queue, staging, cur, out + [x])
         == Line(c, q, taken, buf, queue, staging, cur, out) + Filter(On(c, q), x)
  {
    FlattenSnoc(out, x);
    FilterAppend(On(c, q), Flatten(out), x);
  }

  lemma LineReceive(c: Config, q: nat, taken: seq<Event>, buf: seq<Event>, queue: seq<seq<Event>>, staging: seq<Event>,
                    out: seq<seq<Event>>)
    requires ConfigOk(c) && out != []
    ensures Line(c, q, taken, buf, queue, staging, [], out) == Line(c, q, taken, buf, queue, staging, out[0], out[1..])
  {
    FilterAppend(On(c, q), out[0], Flatten(out[1..]));
  }

  lemma LineStage(c: Config, q: nat, taken: seq<Event>, buf: seq<Event>, queue: seq<seq<Event>>, staging: seq<Event>,
                  cur: seq<Event>, out: seq<seq<Event>>)
    requires ConfigOk(c) && cur != []
    ensures var more := if Route(c, cur[0]) == q then [cur[0]] else [];
            Line(c, q, taken, buf, queue, staging, cur, out) == Line(c, q, taken, buf, queue, staging + more, cur[1..], out)
  {}

  lemma LineFlush(c: Config, q: nat, taken: seq<Event>, buf: seq<Event>, queue: seq<seq<Event>>, staging: seq<Event>,
                  cur: seq<Event>, out: seq<seq<Event>>)
    requires ConfigOk(c)
    ensures Line(c, q, taken, buf, queue, staging, cur, out) == Line(c, q, taken, buf, queue + [staging], [], cur, out)
  {
    FlattenSnoc(queue, staging);
  }

  lemma LineTake(c: Config, q: nat, taken: seq<Event>, buf: seq<Event>, queue: seq<seq<Event>>, staging: seq<Event>,
                 cur: seq<Event>, out: seq<seq<Event>>)
    requires ConfigOk(c) && queue != []
    ensures Line(c, q, taken, buf, queue, staging, cur, out)
         == Line(c, q, taken, buf + queue[0], queue[1..], staging, cur, out)
  {
    assert Filter(On(c, q), taken) + buf + (queue[0] + Flatten(queue[1..]))
        == Filter(On(c, q), taken) + (buf + queue[0]) + Flatten(queue[1..]);
  }

  lemma LineAcquireOwn(c: Config, q: nat, taken: seq<Event>, x: seq<Event>, queue: seq<seq<Event>>,
                       staging: seq<Event>, cur: seq<Event>, out: seq<seq<Event>>)
    requires ConfigOk(c) && forall e :: e in x ==> Route(c, e) == q
    ensures Filter(On(c, q), taken + x) == Filter(On(c, q), taken) + x
    ensures Line(c, q, taken, x, queue, staging, cur, out) == Line(c, q, taken + x, [], queue, staging, cur, out)
  {
    hide Route, Flatten;
    FilterAppend(On(c, q), taken, x);
    FilterAll(On(c, q), x);
    assert Filter(On(c, q), taken + x) + [] == Filter(On(c, q), taken) + x;
  }

  lemma LineAcquireOther(c: Config, q: nat, taken: seq<Event>, x: seq<Event>, buf: seq<Event>, queue: seq<seq<Event>>,
                         staging: seq<Event>, cur: seq<Event>, out: seq<seq<Event>>)
    requires ConfigOk(c) && forall e :: e in x ==> Route(c, e) != q
    ensures Filter(On(c, q), taken + x) == Filter(On(c, q), taken)
    ensures Line(c, q, taken, buf, queue, staging, cur, out) == Line(c, q, taken + x, buf, queue, staging, cur, out)
  {
    hide Route, Flatten;
    FilterAppend(On(c, q), taken, x);
    FilterNone(On(c, q), x);
    assert Filter(On(c, q), taken) + [] == Filter(On(c, q), taken);
  }

  /** Whatever is in a line was sent and belongs to its queue. */
  lemma InLine(c: Config, r: Run, q: nat, e: Event)
    requires ConfigOk(c) && Shaped(c, r) && q < c.queues && FlowAt(c, r, q)
    requires e in r.pubs[q].buf || e in r.disp.staging[q] || e in Flatten(r.disp.queues[q])
             || e in Filter(On(c, q), Batched(r.sink.batches))
    ensures e in Sent(r) && Route(c, e) == q
  {
    FilterMember(On(c, q), Sent(r), e);
    assert e in LineOf(c, r, q);
  }

  // ---- Steps ----

  /** Steps that leave every part of the lines alone. */
  lemma SameFlow(c: Config, r: Run, t: Run)
    requires ConfigOk(c) && Flowing(c, r)
    requires t.stream == r.stream && t.sent == r.sent && t.out == r.out && t.submitted == r.submitted
    requires t.disp == r.disp.(returned := t.disp.returned) && t.pubs == r.pubs
    requires SameBatches(r.sink.batches, t.sink.batches)
    ensures Flowing(c, t)
  {
    SameBatched(r.sink.batches, t.sink.batches);
    forall q | 0 <= q < c.queues ensures FlowAt(c, t, q) && SubmitAt(c, t, q) && ProducerAt(c, t, q) {
      assert FlowAt(c, r, q) && SubmitAt(c, r, q) && ProducerAt(c, r, q);
    }
  }

  ghost predicate SameBatches(a: seq<S.Batch<Event>>, b: seq<S.Batch<Event>>) {
    |a| == |b| && forall i :: 0 <= i < |a| ==> a[i].events == b[i].events && a[i].produced == b[i].produced
  }

  lemma {:induction false} SameBatched(a: seq<S.Batch<Event>>, b: seq<S.Batch<Event>>)
    requires |a| == |b| && forall i :: 0 <= i < |a| ==> a[i].events == b[i].events
    ensures Batched(a) == Batched(b)
  {
    if a != [] { SameBatched(a[..|a| - 1], b[..|b| - 1]); }
  }

  lemma SrcKeepsFlow(c: Config, r: Run, step: SrcStep)
    requires ConfigOk(c) && Flowing(c, r) && SrcEnabled(c, r, step)
    ensures Flowing(c, SrcApply(r, step))
  {
    hide Route, Filter, Flatten, Line, Batched;
    var t := SrcApply(r, step);
    match step {
      case End(_) => SameFlow(c, r, t);
      case Send(n) =>
        var x := r.stream[r.sent..r.sent + n];
        assert Sent(t) == Sent(r) + x;
        forall q | 0 <= q < c.queues ensures FlowAt(c, t, q) && SubmitAt(c, t, q) && ProducerAt(c, t, q) {
          assert FlowAt(c, r, q) && SubmitAt(c, r, q) && ProducerAt(c, r, q);
          FilterAppend(On(c, q), Sent(r), x);
          LineSend(c, q, Batched(r.sink.batches), r.pubs[q].buf, r.disp.queues[q], r.disp.staging[q], r.disp.cur, r.out, x);
        }
    }
  }

  lemma DispKeepsFlow(c: Config, r: Run, step: DispStep)
    requires ConfigOk(c) && Flowing(c, r) && DispEnabled(c, r, step)
    ensures Flowing(c, DispApply(c, r, step))
  {
    hide Route, Filter, Flatten, Line, Batched;
    var t := DispApply(c, r, step);
    var d := r.disp;
    if step.Close? || step.DispCancel? {
      SameFlow(c, r, t);
    } else {
      forall q | 0 <= q < c.queues ensures FlowAt(c, t, q) && SubmitAt(c, t, q) && ProducerAt(c, t, q) {
        assert FlowAt(c, r, q) && SubmitAt(c, r, q) && ProducerAt(c, r, q);
        var taken, buf := Batched(r.sink.batches), r.pubs[q].buf;
        match step {
          case Receive => LineReceive(c, q, taken, buf, d.queues[q], d.staging[q], r.out);
          case Stage => LineStage(c, q, taken, buf, d.queues[q], d.staging[q], d.cur, r.out);
          case Flush(p) => if p == q { LineFlush(c, q, taken, buf, d.queues[q], d.staging[q], d.cur, r.out); }
          case Close =>
          case DispCancel =>
        }
        if step.Stage? && Route(c, d.cur[0]) != q { assert d.staging[q] + [] == d.staging[q]; }
      }
    }
  }

  /** A publisher step that changes only its own phase, outside Producing. */
  lemma PhaseKeepsFlow(c: Config, r: Run, q: nat, t: Run)
    requires ConfigOk(c) && Flowing(c, r) && q < c.queues && Unproduced(r, q) == []
    requires |t.pubs| == |r.pubs| && !t.pubs[q].phase.Producing? && t.pubs[q].buf == r.pubs[q].buf
    requires forall p :: 0 <= p < c.queues && p != q ==> t.pubs[p] == r.pubs[p]
    requires t == r.(pubs := t.pubs, ctl := t.ctl)
    ensures Flowing(c, t)
  {
    forall p | 0 <= p < c.queues ensures FlowAt(c, t, p) && SubmitAt(c, t, p) && ProducerAt(c, t, p) {
      assert FlowAt(c, r, p) && SubmitAt(c, r, p) && ProducerAt(c, r, p);
    }
  }

  lemma TakeKeepsFlow(c: Config, r: Run, q: nat)
    requires ConfigOk(c) && Flowing(c, r) && PubEnabled(c, r, q, Take)
    ensures Flowing(c, PubApply(c, r, q, Take))
  {
    var t := PubApply(c, r, q, Take);
    forall p | 0 <= p < c.queues ensures FlowAt(c, t, p) && SubmitAt(c, t, p) && ProducerAt(c, t, p) {
      assert FlowAt(c, r, p) && SubmitAt(c, r, p) && ProducerAt(c, r, p);
      if p == q {
        LineTake(c, q, Batched(r.sink.batches), r.pubs[q].buf, r.disp.queues[q], r.disp.staging[q], r.disp.cur, r.out);
      }
    }
  }

  lemma AcquireAt(c: Config, r: Run, q: nat, p: nat)
    requires ConfigOk(c) && Flowing(c, r) && PubEnabled(c, r, q, Acquire) && p < c.queues
    requires Batched(PubApply(c, r, q, Acquire).sink.batches) == Batched(r.sink.batches) + r.pubs[q].buf
    requires forall e :: e in r.pubs[q].buf ==> Route(c, e) == q
    ensures var t := PubApply(c, r, q, Acquire); FlowAt(c, t, p) && SubmitAt(c, t, p) && ProducerAt(c, t, p)
  {
    hide Route, Filter, Batched, Flatten;
    var t := PubApply(c, r, q, Acquire);
    var x, bs := r.pubs[q].buf, r.sink.batches;
    assert FlowAt(c, r, p) && SubmitAt(c, r, p) && ProducerAt(c, r, p);
    if p == q {
      LineAcquireOwn(c, q, Batched(bs), x, r.disp.queues[q], r.disp.staging[q], r.disp.cur, r.out);
      assert Unproduced(r, q) == [] && Unproduced(t, q) == x;
      assert Filter(On(c, q), r.submitted) + [] + x == Filter(On(c, q), r.submitted) + x;
    } else {
      LineAcquireOther(c, p, Batched(bs), x, r.pubs[p].buf, r.disp.queues[p], r.disp.staging[p], r.disp.cur, r.out);
      assert t.pubs[p] == r.pubs[p];
      if r.pubs[p].phase.Producing? { assert t.sink.batches[r.pubs[p].phase.b] == bs[r.pubs[p].phase.b]; }
    }
  }

  lemma AcquireKeepsFlow(c: Config, r: Run, q: nat)
    requires ConfigOk(c) && Flowing(c, r) && PubEnabled(c, r, q, Acquire)
    ensures Flowing(c, PubApply(c, r, q, Acquire))
  {
    hide Route, Filter;
    var t := PubApply(c, r, q, Acquire);
    var x, bs := r.pubs[q].buf, r.sink.batches;
    assert t.sink.batches[..|bs|] == bs && t.sink.batches[|bs|].events == x;
    assert FlowAt(c, r, q);
    forall e | e in x ensures Route(c, e) == q { InLine(c, r, q, e); }
    forall p | 0 <= p < c.queues ensures FlowAt(c, t, p) && SubmitAt(c, t, p) && ProducerAt(c, t, p) {
      AcquireAt(c, r, q, p);
    }
  }

  lemma ProduceFlowAt(c: Config, r: Run, q: nat, p: nat)
    requires ConfigOk(c) && Flowing(c, r) && PubEnabled(c, r, q, Produce) && p < c.queues
    ensures FlowAt(c, PubApply(c, r, q, Produce), p)
  {
    hide Route, Filter, Flatten, Line;
    assert FlowAt(c, r, p);
    SameBatched(r.sink.batches, PubApply(c, r, q, Produce).sink.batches);
  }

  lemma NextUnproduced(c: Config, r: Run, q: nat)
    requires ConfigOk(c) && Shaped(c, r) && PubEnabled(c, r, q, Produce) && ProducerAt(c, r, q)
    ensures var t, b := PubApply(c, r, q, Produce), r.sink.batches[r.pubs[q].phase.b];
            && Unproduced(r, q) == [b.events[b.produced]] + Unproduced(t, q)
            && Route(c, b.events[b.produced]) == q && ProducerAt(c, t, q)
            && t.submitted == r.submitted + [b.events[b.produced]]
  {
    hide Route, Flatten, Filter;
    var b := r.sink.batches[r.pubs[q].phase.b];
    assert b.events[b.produced] in b.events;
    assert b.events[b.produced..] == [b.events[b.produced]] + b.events[b.produced + 1..];
  }

  lemma ProduceOwner(c: Config, r: Run, q: nat)
    requires ConfigOk(c) && Flowing(c, r) && PubEnabled(c, r, q, Produce)
    ensures var t := PubApply(c, r, q, Produce); SubmitAt(c, t, q) && ProducerAt(c, t, q)
  {
    hide Route, Flatten, Line, LineOf, Filter, Batched, Unproduced;
    var t, b := PubApply(c, r, q, Produce), r.sink.batches[r.pubs[q].phase.b];
    var e := b.events[b.produced];
    assert SubmitAt(c, r, q) && ProducerAt(c, r, q);
    NextUnproduced(c, r, q);
    SameBatched(r.sink.batches, t.sink.batches);
    FilterAppend(On(c, q), r.submitted, [e]);
    FilterAll(On(c, q), [e]);
    var done, rest := Filter(On(c, q), r.submitted), Unproduced(t, q);
    assert (done + [e]) + rest == done + ([e] + rest);
  }

  lemma ProduceOther(c: Config, r: Run, q: nat, p: nat)
    requires ConfigOk(c) && Flowing(c, r) && PubEnabled(c, r, q, Produce) && p < c.queues && p != q
    ensures var t := PubApply(c, r, q, Produce); SubmitAt(c, t, p) && ProducerAt(c, t, p)
  {
    hide Route, Flatten, Line, LineOf;
    var t, i := PubApply(c, r, q, Produce), r.pubs[q].phase.b;
    var b := r.sink.batches[i];
    var e := b.events[b.produced];
    assert SubmitAt(c, r, p) && ProducerAt(c, r, p) && ProducerAt(c, r, q);
    assert e in b.events && !On(c, p)(e);
    SameBatched(r.sink.batches, t.sink.batches);
    FilterAppend(On(c, p), r.submitted, [e]);
    FilterNone(On(c, p), [e]);
    assert Filter(On(c, p), r.submitted) + [] == Filter(On(c, p), r.submitted);
    assert r.pubs[p].phase.Producing? ==> r.pubs[p].phase.b != i;
    assert Unproduced(t, p) == Unproduced(r, p);
  }

  lemma ProduceKeepsFlow(c: Config, r: Run, q: nat)
    requires ConfigOk(c) && Flowing(c, r) && PubEnabled(c, r, q, Produce)
    ensures Flowing(c, PubApply(c, r, q, Produce))
  {
    hide Route, Filter, Flatten, FlowAt, SubmitAt, ProducerAt;
    var t := PubApply(c, r, q, Produce);
    forall p | 0 <= p < c.queues ensures FlowAt(c, t, p) && SubmitAt(c, t, p) && ProducerAt(c, t, p) {
      ProduceFlowAt(c, r, q, p);
      if p == q { ProduceOwner(c, r, q); } else { ProduceOther(c, r, q, p); }
    }
  }

  lemma PubKeepsFlow(c: Config, r: Run, q: nat, step: PubStep)
    requires ConfigOk(c) && Flowing(c, r) && PubEnabled(c, r, q, step)
    ensures Flowing(c, PubApply(c, r, q, step))
  {
    hide Route, Filter, Flatten, Line, Batched;
    assert SubmitAt(c, r, q) && ProducerAt(c, r, q);
    match step {
      case Take => TakeKeepsFlow(c, r, q);
      case Acquire => AcquireKeepsFlow(c, r, q);
      case Produce => ProduceKeepsFlow(c, r, q);
      case _ => PhaseKeepsFlow(c, r, q, PubApply(c, r, q, step));
    }
  }

  lemma SinkKeepsFlow(c: Config, r: Run, step: SinkStep)
    requires ConfigOk(c) && Flowing(c, r) && SinkEnabled(c, r, step)
    ensures Flowing(c, SinkApply(c, r, step))
  {
    hide Route, Filter, Flatten, Line, Batched, FlowAt, SubmitAt, ProducerAt;
    SameFlow(c, r, SinkApply(c, r, step));
  }

  lemma StepKeepsFlow(c: Config, r: Run, store: Position, step: Step)
    requires ConfigOk(c) && Flowing(c, r) && Enabled(c, r, step)
    ensures Flowing(c, Apply(c, r, store, step).0)
  {
    hide Route, Filter, Flatten, Line, Batched, FlowAt, SubmitAt, ProducerAt,
         SrcEnabled, SrcApply, DispEnabled, DispApply, PubEnabled, PubApply, SinkEnabled, SinkApply, AllExited;
    match step
    case Src(s) => SrcKeepsFlow(c, r, s);
    case Disp(s) => DispKeepsFlow(c, r, s);
    case Pub(q, s) => PubKeepsFlow(c, r, q, s);
    case Snk(s) => SinkKeepsFlow(c, r, s);
    case Com(s) => SameFlow(c, r, ComApply(r, store, s).0);
    case Ctl(s) => SameFlow(c, r, MainApply(r, store, s).0);
  }

  lemma StartFlows(c: Config, stream: seq<Event>, store: Position)
    requires ConfigOk(c)
    ensures Flowing(c, Start(c, stream, store))
  {
    var r := Start(c, stream, store);
    assert Sent(r) == [];
    forall q | 0 <= q < c.queues ensures FlowAt(c, r, q) && SubmitAt(c, r, q) && ProducerAt(c, r, q) {}
  }

  // ---- What flow gives ----

  /** The events of one record key. */
  function WithKey(c: Config, key: string): Event -> bool {
    (e: Event) => RecordKey(c, e) == key
  }

  /** Per-queue order: what publisher q handed to the producer is a prefix of
      what the source sent for queue q. */
  lemma PublisherOrder(c: Config, r: Run, q: nat)
    requires ConfigOk(c) && Flowing(c, r) && q < c.queues
    ensures Filter(On(c, q), r.submitted) <= Filter(On(c, q), Sent(r))
  {
    hide Route, Filter, Flatten;
    assert FlowAt(c, r, q) && SubmitAt(c, r, q);
  }

  /** Per-key order: a key's submissions are a prefix of its source events. */
  lemma KeyOrder(c: Config, r: Run, key: string)
    requires ConfigOk(c) && Flowing(c, r)
    ensures Filter(WithKey(c, key), r.submitted) <= Filter(WithKey(c, key), Sent(r))
  {
    hide Filter, Flatten, Keys.QueueOf;
    var q := Keys.QueueOf(key, c.queues);
    PublisherOrder(c, r, q);
    FilterPrefix(WithKey(c, key), Filter(On(c, q), r.submitted), Filter(On(c, q), Sent(r)));
    FilterTwice(WithKey(c, key), On(c, q), r.submitted);
    FilterTwice(WithKey(c, key), On(c, q), Sent(r));
  }

  lemma {:induction false} FilterDistinct<T(!new)>(f: T -> bool, s: seq<T>)
    requires Distinct(s)
    ensures Distinct(Filter(f, s))
  {
    if s != [] {
      var rest := Filter(f, s[1..]);
      FilterDistinct(f, s[1..]);
      forall i | 0 <= i < |rest| ensures rest[i] != s[0] {
        FilterMember(f, s[1..], rest[i]);
      }
    }
  }

  /** Conservation: an event that was sent for queue q is in exactly one place
      of its line (a batch, the publisher's buffer, the queue, staging, the
      dispatcher's hands, the source's channel), an event of another queue or
      one that was not sent is in none. */
  lemma ExactlyOnePlace(c: Config, r: Run, q: nat, e: Event)
    requires ConfigOk(c) && Flowing(c, r) && q < c.queues && Distinct(r.stream)
    ensures Distinct(LineOf(c, r, q))
    ensures e in LineOf(c, r, q) <==> e in Sent(r) && Route(c, e) == q
  {
    hide Filter, Flatten, LineOf;
    assert FlowAt(c, r, q);
    FilterDistinct(On(c, q), Sent(r));
    FilterMember(On(c, q), Sent(r), e);
  }
}
