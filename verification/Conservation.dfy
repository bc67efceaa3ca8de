/** Conservation, place by place: an event that was sent is in exactly one of
    eight places, an acknowledged, failed or open record of a batch included. */
module Conservation {
  import opened Prelude
  import opened Events
  import opened Pipeline
  import opened Flow
  import opened Bound
  import S = SinkContract

  /** Event e is record i of batch b. */
  predicate IsRecord(bs: seq<S.Batch<Event>>, b: nat, i: nat, e: Event) {
    b < |bs| && i < |bs[b].events| && bs[b].events[i] == e
  }

  ghost predicate Acknowledged(bs: seq<S.Batch<Event>>, e: Event) {
    exists b: nat, i: nat :: IsRecord(bs, b, i, e) && i in bs[b].acked
  }

  ghost predicate Failed(bs: seq<S.Batch<Event>>, e: Event) {
    exists b: nat, i: nat :: IsRecord(bs, b, i, e) && i in bs[b].failed
  }

  ghost predicate Open(bs: seq<S.Batch<Event>>, e: Event) {
    exists b: nat, i: nat :: IsRecord(bs, b, i, e) && i !in bs[b].acked && i !in bs[b].failed
  }

  function Count(p: bool): nat { if p then 1 else 0 }

  /** In how many places of queue q event e is. */
  ghost function Places(c: Config, r: Run, q: nat, e: Event): nat
    requires ConfigOk(c) && Shaped(c, r) && q < c.queues
  {
    var bs := r.sink.batches;
    Count(On(c, q)(e) && Acknowledged(bs, e)) + Count(On(c, q)(e) && Failed(bs, e)) + Count(On(c, q)(e) && Open(bs, e))
    + Count(e in r.pubs[q].buf) + Count(e in Flatten(r.disp.queues[q])) + Count(e in r.disp.staging[q])
    + Count(e in Filter(On(c, q), r.disp.cur)) + Count(e in Filter(On(c, q), Flatten(r.out)))
  }

  // ---- Records of distinct batches ----

  /** The number of events in the first b batches. */
  function Offset(bs: seq<S.Batch<Event>>, b: nat): nat
    requires b <= |bs|
  {
    if b == 0 then 0 else Offset(bs, b - 1) + |bs[b - 1].events|
  }

  lemma {:induction false} OffsetOfFront(bs: seq<S.Batch<Event>>, n: nat, b: nat)
    requires b <= n <= |bs|
    ensures Offset(bs[..n], b) == Offset(bs, b)
  {
    if b > 0 { OffsetOfFront(bs, n, b - 1); }
  }

  lemma {:induction false} BatchedAt(bs: seq<S.Batch<Event>>, b: nat, i: nat)
    requires b < |bs| && i < |bs[b].events|
    ensures |Batched(bs)| == Offset(bs, |bs|)
    ensures Offset(bs, b) + i < |Batched(bs)| && Batched(bs)[Offset(bs, b) + i] == bs[b].events[i]
    decreases |bs|
  {
    var n := |bs| - 1;
    BatchedLength(bs[..n]);
    OffsetOfFront(bs, n, n);
    if b < n {
      BatchedAt(bs[..n], b, i);
      OffsetOfFront(bs, n, b);
    }
  }

  lemma {:induction false} BatchedLength(bs: seq<S.Batch<Event>>)
    ensures |Batched(bs)| == Offset(bs, |bs|)
  {
    if bs != [] {
      var n := |bs| - 1;
      BatchedLength(bs[..n]);
      OffsetOfFront(bs, n, n);
    }
  }

  lemma {:induction false} OffsetsAscend(bs: seq<S.Batch<Event>>, a: nat, b: nat)
    requires a < b <= |bs|
    ensures Offset(bs, a) + |bs[a].events| <= Offset(bs, b)
    decreases b
  {
    if a < b - 1 { OffsetsAscend(bs, a, b - 1); }
  }

  /** With distinct events a record is in one place. */
  lemma OneRecord(bs: seq<S.Batch<Event>>, e: Event, a: nat, i: nat, b: nat, j: nat)
    requires Distinct(Batched(bs)) && IsRecord(bs, a, i, e) && IsRecord(bs, b, j, e)
    ensures a == b && i == j
  {
    hide Batched, Offset;
    BatchedAt(bs, a, i);
    BatchedAt(bs, b, j);
    if a < b { OffsetsAscend(bs, a, b); } else if b < a { OffsetsAscend(bs, b, a); }
  }

  lemma {:induction false} RecordOf(bs: seq<S.Batch<Event>>, e: Event) returns (b: nat, i: nat)
    requires e in Batched(bs)
    ensures IsRecord(bs, b, i, e)
  {
    assert bs != [];
    var n := |bs| - 1;
    if e in bs[n].events {
      i :| 0 <= i < |bs[n].events| && bs[n].events[i] == e;
      b := n;
    } else {
      b, i := RecordOf(bs[..n], e);
    }
  }

  /** A submitted record is acknowledged, failed or open, and only one of them. */
  lemma RecordHasOneFate(maxInflight: nat, s: S.Sink<Event>, e: Event)
    requires S.Valid(maxInflight, s) && Distinct(Batched(s.batches))
    ensures var bs := s.batches;
            Count(Acknowledged(bs, e)) + Count(Failed(bs, e)) + Count(Open(bs, e)) == Count(e in Batched(bs))
  {
    hide Batched, S.InUse;
    var bs := s.batches;
    if e in Batched(bs) {
      var b, i := RecordOf(bs, e);
      assert S.BatchOk(s, bs[b]);
      forall x: nat, y: nat | IsRecord(bs, x, y, e) ensures x == b && y == i { OneRecord(bs, e, x, y, b, i); }
      assert Acknowledged(bs, e) <==> i in bs[b].acked;
      assert Failed(bs, e) <==> i in bs[b].failed;
      assert Open(bs, e) <==> i !in bs[b].acked && i !in bs[b].failed;
    } else {
      forall b: nat, i: nat ensures !IsRecord(bs, b, i, e) { NoRecord(bs, e, b, i); }
    }
  }

  lemma NoRecord(bs: seq<S.Batch<Event>>, e: Event, b: nat, i: nat)
    requires e !in Batched(bs)
    ensures !IsRecord(bs, b, i, e)
  {
    hide Batched, Offset;
    if IsRecord(bs, b, i, e) { BatchedAt(bs, b, i); }
  }

  // ---- Lines ----

  /** A pair of equal elements survives filtering. */
  lemma {:induction false} FilterKeepsPair<T>(f: T -> bool, s: seq<T>, i: nat, j: nat) returns (a: nat, b: nat)
    requires i < j < |s| && s[i] == s[j] && f(s[i])
    ensures a < b < |Filter(f, s)| && Filter(f, s)[a] == Filter(f, s)[b]
    decreases |s|
  {
    var rest := Filter(f, s[1..]);
    if i > 0 {
      a, b := FilterKeepsPair(f, s[1..], i - 1, j - 1);
      if f(s[0]) { a, b := a + 1, b + 1; }
    } else {
      assert s[1..][j - 1] == s[j];
      FilterMember(f, s[1..], s[j]);
      var k :| 0 <= k < |rest| && rest[k] == s[0];
      a, b := 0, k + 1;
    }
  }

  lemma Shared<T(!new)>(a: seq<T>, b: seq<T>, e: T)
    requires e in a && e in b
    ensures !Distinct(a + b)
  {
    var i :| 0 <= i < |a| && a[i] == e;
    var j :| 0 <= j < |b| && b[j] == e;
    assert (a + b)[i] == e && (a + b)[|a| + j] == e;
  }

  lemma Apart<T(!new)>(a: seq<T>, b: seq<T>, e: T)
    requires Distinct(a + b)
    ensures Distinct(a) && Distinct(b) && Count(e in a + b) == Count(e in a) + Count(e in b)
  {
    var s := a + b;
    forall i, j | 0 <= i < j < |a| ensures a[i] != a[j] { assert s[i] == a[i] && s[j] == a[j]; }
    forall i, j | 0 <= i < j < |b| ensures b[i] != b[j] { assert s[|a| + i] == b[i] && s[|a| + j] == b[j]; }
    if e in a && e in b { Shared(a, b, e); }
  }

  lemma BatchedIsDistinct(c: Config, r: Run)
    requires ConfigOk(c) && Flowing(c, r) && Distinct(r.stream)
    ensures Distinct(Batched(r.sink.batches))
  {
    hide Filter, Batched, Flatten, LineOf, Route;
    var s := Batched(r.sink.batches);
    forall i, j | 0 <= i < j < |s| ensures s[i] != s[j] {
      TakenIsDistinct(c, r, Route(c, s[i]));
      DistinctIfFiltered(On(c, Route(c, s[i])), s, i, j);
    }
  }

  lemma DistinctIfFiltered<T(!new)>(f: T -> bool, s: seq<T>, i: nat, j: nat)
    requires i < j < |s| && f(s[i]) && Distinct(Filter(f, s))
    ensures s[i] != s[j]
  {
    hide Filter;
    if s[i] == s[j] { var a, b := FilterKeepsPair(f, s, i, j); }
  }

  lemma TakenIsDistinct(c: Config, r: Run, q: nat)
    requires ConfigOk(c) && Flowing(c, r) && Distinct(r.stream) && q < c.queues
    ensures Distinct(Filter(On(c, q), Batched(r.sink.batches)))
  {
    hide Filter, Batched, Flatten, Route;
    var e: Event :| true;
    ExactlyOnePlace(c, r, q, e);
    LineApart(c, r, q, e);
  }

  /** The parts of a line are apart. */
  lemma LineApart(c: Config, r: Run, q: nat, e: Event)
    requires ConfigOk(c) && Shaped(c, r) && q < c.queues && Distinct(LineOf(c, r, q))
    ensures Distinct(Filter(On(c, q), Batched(r.sink.batches)))
    ensures Count(e in LineOf(c, r, q))
         == Count(e in Filter(On(c, q), Batched(r.sink.batches)))
            + Count(e in r.pubs[q].buf) + Count(e in Flatten(r.disp.queues[q])) + Count(e in r.disp.staging[q])
            + Count(e in Filter(On(c, q), r.disp.cur)) + Count(e in Filter(On(c, q), Flatten(r.out)))
  {
    hide Filter, Batched, Flatten, Route, Count;
    var a, b, x := Filter(On(c, q), Batched(r.sink.batches)), r.pubs[q].buf, Flatten(r.disp.queues[q]);
    var d, f, g := r.disp.staging[q], Filter(On(c, q), r.disp.cur), Filter(On(c, q), Flatten(r.out));
    Apart(a + b + x + d + f, g, e);
    Apart(a + b + x + d, f, e);
    Apart(a + b + x, d, e);
    Apart(a + b, x, e);
    Apart(a, b, e);
  }

  /** CONSERVATION. An event is in exactly one place of queue q if it was sent
      and belongs to the queue, and in none otherwise. */
  lemma ExactlyOneOfEight(c: Config, r: Run, q: nat, e: Event)
    requires ConfigOk(c) && Flowing(c, r) && S.Valid(c.maxInflight, r.sink) && Distinct(r.stream) && q < c.queues
    ensures Places(c, r, q, e) == Count(e in Sent(r) && Route(c, e) == q)
  {
    hide Filter, Batched, Flatten, LineOf, Route, Acknowledged, Failed, Open, S.Valid;
    ExactlyOnePlace(c, r, q, e);
    LineApart(c, r, q, e);
    BatchedIsDistinct(c, r);
    RecordHasOneFate(c.maxInflight, r.sink, e);
    FilterMember(On(c, q), Batched(r.sink.batches), e);
  }

  // ---- Balance ----

  /** Records acknowledged or failed. */
  ghost function ResolvedIn(bs: seq<S.Batch<Event>>): nat {
    if bs == [] then 0 else ResolvedIn(bs[..|bs| - 1]) + |bs[|bs| - 1].acked| + |bs[|bs| - 1].failed|
  }

  function Below(s: set<nat>, n: nat): set<nat> { set i | i in s && i < n }

  lemma {:induction false} RecordsAddUp(b: S.Batch<Event>, n: nat)
    requires b.acked !! b.failed
    ensures OpenIn(b, n) + |Below(b.acked, n)| + |Below(b.failed, n)| == n
  {
    if n == 0 {
      assert Below(b.acked, 0) == {} && Below(b.failed, 0) == {};
    } else {
      RecordsAddUp(b, n - 1);
      OneMoreBelow(b.acked, n - 1);
      OneMoreBelow(b.failed, n - 1);
    }
  }

  lemma OneMoreBelow(s: set<nat>, n: nat)
    ensures |Below(s, n + 1)| == |Below(s, n)| + Count(n in s)
  {
    if n in s {
      assert Below(s, n + 1) == Below(s, n) + {n};
    } else {
      assert Below(s, n + 1) == Below(s, n);
    }
  }

  lemma {:induction false} BatchesAddUp(s: S.Sink<Event>, bs: seq<S.Batch<Event>>)
    requires forall b :: 0 <= b < |bs| ==> S.BatchOk(s, bs[b])
    ensures OpenInBatches(bs) + ResolvedIn(bs) == |Batched(bs)|
  {
    if bs != [] {
      var n := |bs| - 1;
      BatchesAddUp(s, bs[..n]);
      var b := bs[n];
      assert S.BatchOk(s, b);
      RecordsAddUp(b, |b.events|);
      assert Below(b.acked, |b.events|) == b.acked && Below(b.failed, |b.events|) == b.failed;
    }
  }

  /** The events of the first n queues among s. */
  ghost function Tally(c: Config, s: seq<Event>, n: nat): nat
    requires ConfigOk(c)
  {
    if n == 0 then 0 else Tally(c, s, n - 1) + |Filter(On(c, n - 1), s)|
  }

  lemma {:induction false} TallyCons(c: Config, s: seq<Event>, n: nat)
    requires ConfigOk(c) && s != []
    ensures Tally(c, s, n) == Tally(c, s[1..], n) + Count(Route(c, s[0]) < n)
  {
    hide Route;
    if n > 0 { TallyCons(c, s, n - 1); }
  }

  /** Every event has one queue. */
  lemma {:induction false} TallyIsAll(c: Config, s: seq<Event>)
    requires ConfigOk(c)
    ensures Tally(c, s, c.queues) == |s|
  {
    hide Route;
    if s == [] {
      TallyOfNone(c, c.queues);
    } else {
      TallyIsAll(c, s[1..]);
      TallyCons(c, s, c.queues);
    }
  }

  lemma {:induction false} TallyOfNone(c: Config, n: nat)
    requires ConfigOk(c)
    ensures Tally(c, [], n) == 0
  {
    if n > 0 { TallyOfNone(c, n - 1); }
  }

  lemma {:induction false} QueuesAddUp(c: Config, r: Run, n: nat)
    requires ConfigOk(c) && Flowing(c, r) && n <= c.queues
    ensures Tally(c, Sent(r), n) == Tally(c, Batched(r.sink.batches), n) + HeldIn(c, r, n)
                                    + Tally(c, r.disp.cur, n) + Tally(c, Flatten(r.out), n)
  {
    hide Route, Filter, Batched, Flatten, On, SubmitAt, ProducerAt;
    if n > 0 {
      QueuesAddUp(c, r, n - 1);
      assert FlowAt(c, r, n - 1);
    }
  }

  /** BALANCE. The events sent are those in the source's channel, those in the
      dispatcher's hands, the dispatched but unresolved ones that `Bound`
      counts, and the acknowledged and failed records: none is missing, and
      none is counted twice. */
  lemma SentAddsUp(c: Config, r: Run)
    requires ConfigOk(c) && Flowing(c, r) && S.Valid(c.maxInflight, r.sink)
    ensures r.sent == |Flatten(r.out)| + |r.disp.cur| + Unresolved(c, r) + ResolvedIn(r.sink.batches)
  {
    hide Route, Filter, Batched, Flatten, FlowAt, SubmitAt, ProducerAt, S.InUse, S.BatchOk, HeldIn, OpenInBatches, Tally,
         ResolvedIn;
    QueuesAddUp(c, r, c.queues);
    TallyIsAll(c, Sent(r));
    TallyIsAll(c, Batched(r.sink.batches));
    TallyIsAll(c, r.disp.cur);
    TallyIsAll(c, Flatten(r.out));
    BatchesAddUp(r.sink, r.sink.batches);
  }
}
