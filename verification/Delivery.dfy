/** What a deduplicating consumer sees: for every key, a gap-free in-order
    prefix of that key's source history, after any history of the system on
    one log in which every run's writes keep partition order. */
module Delivery {
  import opened Prelude
  import opened Events
  import opened Source
  import opened Binlog
  import opened Resume
  import opened Stamping
  import opened EventIds
  import P = Pipeline
  import opened Flow
  import opened Safety
  import opened World
  import T = Tracking
  import Keys

  // ---- Lanes: the rows of one table and record key ----

  /** A lane is what order is promised for: a table and a record key. */
  type Lane = (string, string)

  function LaneOf(k: Const, e: Event): Lane { (Fqtn(e.meta), P.RecordKey(k.shape, e)) }

  function InLane(k: Const, lane: Lane): Event -> bool { (e: Event) => LaneOf(k, e) == lane }

  /** The lane of a row, from the row alone. */
  function RowLane(k: Const, row: RowRef): Lane
    requires IsRow(k.txns, row)
  {
    var e := RowsEvent(k.txns[row.tid].body[row.ev], 0, row.tid, row.ev);
    LaneOf(k, MakeEvent(k.cfg, Begin(k.cfg, ZERO), e, row.change))
  }

  ghost function RowInLane(k: Const, lane: Lane): RowRef -> bool {
    (row: RowRef) => IsRow(k.txns, row) && RowLane(k, row) == lane
  }

  /** The lane depends on nothing but the row. */
  lemma LaneIsOfRow(k: Const, base: TxnState, it: Item, row: RowRef, seqNo: nat)
    requires ItemOk(k.txns, it) && it.Tx? && row.tid == it.tid && IsRow(k.txns, row)
    ensures LaneOf(k, Expected(k.cfg, k.txns, base, it, row, seqNo)) == RowLane(k, row)
  {
    hide Keys.KeyFromColumns, EventId;
    var e := Expected(k.cfg, k.txns, base, it, row, seqNo);
    var f := MakeEvent(k.cfg, Begin(k.cfg, ZERO), RowsEvent(k.txns[row.tid].body[row.ev], 0, row.tid, row.ev), row.change);
    assert Fqtn(e.meta) == Fqtn(f.meta) && e.key == f.key && CurrentRow(e) == CurrentRow(f);
  }

  // ---- The history of a lane ----

  /** Captured rows after the seed, in log order. */
  ghost function SeededHistory(k: Const): seq<RowRef>
    requires ConstOk(k) && k.fixed.Some?
  {
    Filter(Uncovered(k.cfg, k.txns, k.fixed.value, k.seed), History(k.cfg, k.txns, k.fixed.value.items))
  }

  ghost function LaneHistory(k: Const, lane: Lane): seq<RowRef>
    requires ConstOk(k) && k.fixed.Some?
  {
    Filter(RowInLane(k, lane), SeededHistory(k))
  }

  /** Row a comes before row b in the list. */
  ghost predicate Before<X(!new)>(s: seq<X>, a: X, b: X) {
    exists i, j :: 0 <= i < j < |s| && s[i] == a && s[j] == b
  }

  ghost predicate Precedes(k: Const, row: RowRef, e: Event)
    requires ConstOk(k) && k.fixed.Some?
  {
    IsRow(k.txns, row) && RowLane(k, row) == LaneOf(k, e) && Before(SeededHistory(k), row, e.row)
  }

  /** Before e is written for the first time, all earlier rows of its lane were. */
  ghost predicate NoJump(k: Const, topic: seq<Event>, e: Event)
    requires ConstOk(k) && k.fixed.Some?
  {
    forall row :: Precedes(k, row, e) ==> IsRowOf(topic, row)
  }

  ghost predicate NoJumps(k: Const, topic: seq<Event>)
    requires ConstOk(k) && k.fixed.Some?
  {
    forall x :: 0 <= x < |topic| ==> NoJump(k, topic[..x], topic[x])
  }

  ghost predicate IsRowOf(es: seq<Event>, row: RowRef) { exists e :: e in es && e.row == row }

  /** Every record carries the row's own ID and lane. */
  ghost predicate Genuine(k: Const, e: Event)
    requires ConstOk(k) && k.fixed.Some?
  {
    && IsRow(k.txns, e.row) && HasId(k.txns, k.fixed.value, e.row, e.id) && LaneOf(k, e) == RowLane(k, e.row)
    && e.row in SeededHistory(k)
  }

  // ---- Order in filtered lists ----

  lemma {:induction false} BeforeFiltered<X(!new)>(f: X -> bool, s: seq<X>, a: X, b: X)
    requires f(a) && f(b)
    ensures Before(Filter(f, s), a, b) <==> Before(s, a, b)
  {
    if s != [] {
      var h, rest := if f(s[0]) then [s[0]] else [], Filter(f, s[1..]);
      BeforeFiltered(f, s[1..], a, b);
      FilterMember(f, s[1..], b);
      BeforeCons(s[0], s[1..], a, b);
      if f(s[0]) { BeforeCons(s[0], rest, a, b); assert h + rest == [s[0]] + rest; } else { assert h + rest == rest; }
      assert [s[0]] + s[1..] == s;
    }
  }

  lemma BeforeCons<X(!new)>(x: X, s: seq<X>, a: X, b: X)
    ensures Before([x] + s, a, b) <==> (x == a && b in s) || Before(s, a, b)
  {
    var t := [x] + s;
    if Before(s, a, b) {
      var i, j :| 0 <= i < j < |s| && s[i] == a && s[j] == b;
      assert t[i + 1] == a && t[j + 1] == b;
    }
    if x == a && b in s {
      var j :| 0 <= j < |s| && s[j] == b;
      assert t[0] == a && t[j + 1] == b;
    }
    if Before(t, a, b) {
      var i, j :| 0 <= i < j < |t| && t[i] == a && t[j] == b;
      assert s[j - 1] == b;
      if i > 0 { assert s[i - 1] == a; }
    }
  }

  /** In a prefix that ends in b, everything before b has appeared. */
  lemma BeforeInPrefix<X(!new)>(s: seq<X>, done: seq<X>, a: X, b: X)
    requires Distinct(s) && done + [b] <= s && Before(s, a, b)
    ensures a in done
  {
    var i, j :| 0 <= i < j < |s| && s[i] == a && s[j] == b;
    assert s[|done|] == (done + [b])[|done|] == b;
    assert j == |done|;
    assert s[i] == (done + [b])[i] == done[i];
  }

  // ---- A write never jumps ----

  /** Within one run: when a record is written, every earlier record of its
      lane in the run's stream has been written. */
  lemma WriteFollowsItsLane(k: Const, l: Live, i: nat, a: Event)
    requires ConstOk(k) && RunSound(k, l) && i < |l.run.submitted|
    requires P.InPartitionOrder(k.shape, l.run.(written := l.run.written + [l.run.submitted[i]]))
    requires LaneOf(k, a) == LaneOf(k, l.run.submitted[i]) && Before(l.run.stream, a, l.run.submitted[i])
    ensures a in l.run.written
  {
    hide Acks, Flowing, RunStream;
    var r, e := l.run, l.run.submitted[i];
    var lane := LaneOf(k, e);
    var f, p := InLane(k, lane), P.PartitionOf(k.shape, e);
    assert Filter(P.In(k.shape, p), r.written + [e]) <= Filter(P.In(k.shape, p), r.submitted);
    // written ++ [e] restricted to the lane is a prefix of the stream restricted to it
    FilterPrefix(f, Filter(P.In(k.shape, p), r.written + [e]), Filter(P.In(k.shape, p), r.submitted));
    FilterTwice(f, P.In(k.shape, p), r.written + [e]);
    FilterTwice(f, P.In(k.shape, p), r.submitted);
    SubmittedFollowsStream(k, l, lane);
    FilterAppend(f, r.written, [e]);
    assert Filter(f, [e]) == [e];
    // and a comes before e in it
    BeforeFiltered(f, r.stream, a, e);
    StreamDistinct(k, l);
    FilterDistinct(f, r.stream);
    BeforeInPrefix(Filter(f, r.stream), Filter(f, r.written), a, e);
    FilterMember(f, r.written, a);
  }

  lemma StreamDistinct(k: Const, l: Live)
    requires ConstOk(k) && RunSound(k, l)
    ensures Distinct(l.run.stream)
  {
    hide Flowing, RunStream;
    assert T.Numbered(l.run.stream);
  }

  lemma SubmittedFollowsStream(k: Const, l: Live, lane: Lane)
    requires ConstOk(k) && RunSound(k, l)
    ensures Filter(InLane(k, lane), l.run.submitted) <= Filter(InLane(k, lane), l.run.stream)
  {
    hide Acks, RunStream, Keys.QueueOf, Filter;
    var r, f, g := l.run, InLane(k, lane), WithKey(k.shape, lane.1);
    KeyOrder(k.shape, r, lane.1);
    FilterPrefix(f, Filter(g, r.submitted), Filter(g, Sent(r)));
    FilterTwice(f, g, r.submitted);
    FilterTwice(f, g, Sent(r));
    assert Sent(r) <= r.stream;
    FilterPrefix(f, Sent(r), r.stream);
  }

  // ---- Records are genuine ----

  lemma StreamIsGenuine(k: Const, l: Live, x: nat)
    requires ConstOk(k) && k.fixed.Some? && RunSound(k, l) && AtLeast(k, l.from, k.seed) && x < |l.run.stream|
    ensures Genuine(k, l.run.stream[x])
  {
    hide Flowing, Acks, Run, AsExpected, Covers, RowLane, HasId, Filter;
    var e := l.run.stream[x];
    IdsAreStable(k.cfg, k.txns, l.log, l.from, x);
    StreamLane(k, l, x);
    RowsIndex(l.run.stream);
    assert Rows(l.run.stream)[x] == e.row;
    UncoveredInHistory(k, l, e.row);
  }

  lemma StreamLane(k: Const, l: Live, x: nat)
    requires ConstOk(k) && RunSound(k, l) && x < |l.run.stream|
    ensures IsRow(k.txns, l.run.stream[x].row) && LaneOf(k, l.run.stream[x]) == RowLane(k, l.run.stream[x].row)
  {
    hide Flowing, Acks, Run, After, Covers, RowLane, LaneOf, Expected;
    var items := Served(k.cfg, k.txns, l.log, l.from);
    ServedOnce(k.cfg, k.txns, l.log, l.from);
    var m := Origin(k.cfg, k.txns, l.from, items, x);
    var it := items[m];
    var row := CapturedRows(k.cfg, k.txns, it.tid)[x - |After(k.cfg, k.txns, l.from, items, m).1|];
    var base := Opened(After(k.cfg, k.txns, l.from, items, m).0, k.txns[it.tid].gtid);
    LaneIsOfRow(k, base, it, row, x + 1);
    ExpectedId(k.cfg, k.txns, base, it, row, x + 1);
  }

  /** Rows of the run are rows after the seed. */
  lemma UncoveredInHistory(k: Const, l: Live, row: RowRef)
    requires ConstOk(k) && k.fixed.Some? && RunSound(k, l) && AtLeast(k, l.from, k.seed)
    requires row in Rows(l.run.stream)
    ensures row in SeededHistory(k) && Uncovered(k.cfg, k.txns, l.log, l.from)(row)
  {
    hide Flowing, Acks, Covers, Filter, RunStream, History;
    var log := k.fixed.value;
    var f, g := Uncovered(k.cfg, k.txns, log, l.from), Uncovered(k.cfg, k.txns, log, k.seed);
    StreamIsUncoveredHistory(k.cfg, k.txns, log, l.from);
    FilterMember(f, History(k.cfg, k.txns, log.items), row);
    FilterMember(g, History(k.cfg, k.txns, log.items), row);
    HistoryExact(k.cfg, k.txns, log.items, row);
    PassedIsCovered(k, log, l.from, row.tid);
    PassedIsCovered(k, log, k.seed, row.tid);
  }

  /** An earlier row of the history that the run's start does not cover is
      earlier in the run's stream. */
  lemma EarlierInStream(k: Const, l: Live, x: nat, row: RowRef) returns (a: Event)
    requires ConstOk(k) && k.fixed.Some? && RunSound(k, l) && AtLeast(k, l.from, k.seed) && x < |l.run.stream|
    requires Before(SeededHistory(k), row, l.run.stream[x].row)
    requires !Covers(k.cfg, k.txns, l.log, l.from, row.tid)
    ensures a.row == row && Before(l.run.stream, a, l.run.stream[x])
  {
    hide Flowing, Acks, Covers, Filter, RunStream, History;
    var log, stream := k.fixed.value, l.run.stream;
    var e := stream[x];
    var f, g := Uncovered(k.cfg, k.txns, log, l.from), Uncovered(k.cfg, k.txns, log, k.seed);
    RowsIndex(stream);
    assert Rows(stream)[x] == e.row;
    UncoveredInHistory(k, l, e.row);
    StreamIsUncoveredHistory(k.cfg, k.txns, log, l.from);
    InBefore(SeededHistory(k), row, e.row);
    FilterMember(g, History(k.cfg, k.txns, log.items), row);
    FilterMember(g, History(k.cfg, k.txns, log.items), e.row);
    BeforeFiltered(g, History(k.cfg, k.txns, log.items), row, e.row);
    BeforeFiltered(f, History(k.cfg, k.txns, log.items), row, e.row);
    var i, j :| 0 <= i < j < |Rows(stream)| && Rows(stream)[i] == row && Rows(stream)[j] == e.row;
    RunRowsDistinct(k.cfg, k.txns, log, l.from);
    assert j == x;
    a := stream[i];
  }

  lemma InBefore<X(!new)>(s: seq<X>, a: X, b: X)
    requires Before(s, a, b)
    ensures a in s && b in s
  {}

  // ---- The whole system ----

  /** The Kafka assumption: every run's writes, late ones included, keep
      partition order. */
  ghost predicate Ordered(k: Const, w: World) {
    forall j :: 0 <= j < |w.runs| ==> P.InPartitionOrder(k.shape, w.runs[j].run)
  }

  ghost predicate IsOrderedHistory(k: Const, ws: seq<World>)
    requires ConstOk(k)
  {
    IsHistory(k, ws) && forall i :: 0 <= i < |ws| ==> Ordered(k, ws[i])
  }

  ghost predicate Delivering(k: Const, w: World)
    requires ConstOk(k) && k.fixed.Some?
  {
    && Valid(k, w) && NoJumps(k, w.topic)
    && (forall e :: e in w.topic ==> Genuine(k, e))
  }

  /** A write by any run, the current one or an abandoned one, does not jump. */
  lemma WriteDoesNotJump(k: Const, w: World, j: nat, i: nat)
    requires ConstOk(k) && k.fixed.Some? && Delivering(k, w)
    requires j < |w.runs| && i < |w.runs[j].run.submitted|
    requires var r := w.runs[j].run; P.InPartitionOrder(k.shape, r.(written := r.written + [r.submitted[i]]))
    ensures NoJump(k, w.topic, w.runs[j].run.submitted[i]) && Genuine(k, w.runs[j].run.submitted[i])
  {
    hide Valid, RunSound, Covers, SeededHistory, RowLane, LaneOf, HasId, P.InPartitionOrder, Precedes, Genuine;
    var l := w.runs[j];
    ValidGives(k, w, j);
    SubmittedIsStream(k, l, i);
    var e := l.run.submitted[i];
    StreamIsGenuine(k, l, e.pos.seqNo - 1);
    forall row | Precedes(k, row, e) ensures IsRowOf(w.topic, row) {
      EarlierWasWritten(k, w, l, i, row);
    }
  }

  lemma ValidGives(k: Const, w: World, j: nat)
    requires ConstOk(k) && Valid(k, w) && j < |w.runs|
    ensures var l := w.runs[j]; LiveOk(k, w, l) && RunSound(k, l) && AtLeast(k, l.from, k.seed)
  {
    hide RunSound, AtLeast, Saves, Settled;
  }

  lemma EarlierWasWritten(k: Const, w: World, l: Live, i: nat, row: RowRef)
    requires ConstOk(k) && k.fixed.Some? && Valid(k, w) && LiveOk(k, w, l) && i < |l.run.submitted|
    requires P.InPartitionOrder(k.shape, l.run.(written := l.run.written + [l.run.submitted[i]]))
    requires OfStream(l.run.stream, l.run.submitted[i]) && Precedes(k, row, l.run.submitted[i])
    ensures IsRowOf(w.topic, row)
  {
    hide Valid, RunSound, Covers, SeededHistory, RowLane, LaneOf, HasId, P.InPartitionOrder, Before, AtLeast, Anchored, Safe;
    var e := l.run.submitted[i];
    InBefore(SeededHistory(k), row, e.row);
    if Covers(k.cfg, k.txns, l.log, l.from, row.tid) {
      CoveredWasWritten(k, w, l, row);
    } else {
      var a := EarlierInStream(k, l, e.pos.seqNo - 1, row);
      EarlierLane(k, l, a, e);
      WriteFollowsItsLane(k, l, i, a);
      assert a in w.topic;
    }
  }

  lemma EarlierLane(k: Const, l: Live, a: Event, e: Event)
    requires ConstOk(k) && RunSound(k, l) && Before(l.run.stream, a, e)
    ensures IsRow(k.txns, a.row) && LaneOf(k, a) == RowLane(k, a.row)
  {
    hide Flowing, Acks, RunStream, RowLane, LaneOf;
    var i, j :| 0 <= i < j < |l.run.stream| && l.run.stream[i] == a && l.run.stream[j] == e;
    StreamLane(k, l, i);
  }

  lemma SubmittedIsStream(k: Const, l: Live, i: nat)
    requires ConstOk(k) && RunSound(k, l) && i < |l.run.submitted|
    ensures OfStream(l.run.stream, l.run.submitted[i])
  {
    hide Flowing, RunStream, Filter;
    assert l.run.submitted[i] in l.run.submitted;
  }

  /** What a run's start covers after the seed was written before. */
  lemma CoveredWasWritten(k: Const, w: World, l: Live, row: RowRef)
    requires ConstOk(k) && k.fixed.Some? && Valid(k, w) && LiveOk(k, w, l)
    requires row in SeededHistory(k) && Covers(k.cfg, k.txns, l.log, l.from, row.tid)
    ensures IsRowOf(w.topic, row)
  {
    hide Flowing, Acks, Covers, Filter, RunStream, History, Saves, Settled;
    var log := k.fixed.value;
    FilterMember(Uncovered(k.cfg, k.txns, log, k.seed), History(k.cfg, k.txns, log.items), row);
    HistoryExact(k.cfg, k.txns, log.items, row);
    PassedIsCovered(k, log, l.from, row.tid);
    PassedIsCovered(k, log, k.seed, row.tid);
  }

  lemma AppendKeepsNoJumps(k: Const, topic: seq<Event>, more: seq<Event>)
    requires ConstOk(k) && k.fixed.Some? && NoJumps(k, topic)
    requires more == [] || (|more| == 1 && NoJump(k, topic, more[0]))
    ensures NoJumps(k, topic + more)
  {
    hide NoJump;
    forall x | 0 <= x < |topic + more| ensures NoJump(k, (topic + more)[..x], (topic + more)[x]) {
      if x < |topic| {
        assert (topic + more)[..x] == topic[..x];
      } else {
        assert (topic + more)[..x] == topic;
      }
    }
  }

  lemma WriteAppends(k: Const, w: World, j: nat, i: nat)
    requires ConstOk(k) && Enabled(k, w, RunStep(j, P.Snk(P.Write(i))))
    ensures var r := w.runs[j].run;
            i < |r.submitted| && Apply(k, w, RunStep(j, P.Snk(P.Write(i)))).runs[j].run == r.(written := r.written + [r.submitted[i]])
  {}

  lemma StepKeepsDelivering(k: Const, w: World, step: Step)
    requires ConstOk(k) && k.fixed.Some? && Delivering(k, w) && Enabled(k, w, step) && Ordered(k, Apply(k, w, step))
    ensures Delivering(k, Apply(k, w, step))
  {
    hide Valid, NoJumps, NoJump, Genuine, P.Apply, P.Start, RunStream, P.InPartitionOrder, Echo, AckedRows;
    StepKeepsValid(k, w, step);
    if step.RunStep? {
      var s, r := step.step, w.runs[step.j].run;
      var more := NewlyWritten(r, s);
      if IsWrite(s) {
        WriteAppends(k, w, step.j, s.snk.i);
        WriteDoesNotJump(k, w, step.j, s.snk.i);
      }
      AppendKeepsNoJumps(k, w.topic, more);
    }
  }

  lemma {:induction false} HistoryDelivers(k: Const, ws: seq<World>)
    requires ConstOk(k) && k.fixed.Some? && Startable(k) && IsOrderedHistory(k, ws)
    ensures Delivering(k, ws[|ws| - 1])
    decreases |ws|
  {
    hide Valid, NoJump, Enabled, Apply, Ordered, Startable, Genuine;
    var n := |ws| - 1;
    if n == 0 {
      InitIsValid(k);
    } else {
      HistoryDelivers(k, ws[..n]);
      assert ws[..n][n - 1] == ws[n - 1];
      assert Next(k, ws[n - 1], ws[n]);
      var step :| Enabled(k, ws[n - 1], step) && ws[n] == Apply(k, ws[n - 1], step);
      StepKeepsDelivering(k, ws[n - 1], step);
    }
  }

  // ---- The consumer ----

  predicate Seen(es: seq<Event>, id: string) { exists i :: 0 <= i < |es| && es[i].id == id }

  /** A consumer that keeps the first record of every event ID. */
  function FirstPerId(es: seq<Event>): seq<Event> {
    if es == [] then []
    else
      var n := |es| - 1;
      FirstPerId(es[..n]) + (if Seen(es[..n], es[n].id) then [] else [es[n]])
  }

  /** IDs tell rows apart, exactly. */
  lemma IdsMatchRows(k: Const, a: Event, b: Event)
    requires ConstOk(k) && k.fixed.Some? && Genuine(k, a) && Genuine(k, b)
    requires HasGtids(k.txns) || RowCoordinatesDistinct(k.fixed.value)
    ensures a.id == b.id <==> a.row == b.row
  {
    hide HasId, SeededHistory, LaneOf, RowLane, RowCoordinatesDistinct;
    var log := k.fixed.value;
    if a.id == b.id { IdsAreUnique(k.txns, log, a.row, b.row, a.id); }
    if a.row == b.row { IdIsDetermined(k.txns, log, a.row, a.id, b.id); }
  }

  /** What the deduplicated lane is: its first m history rows, and these are
      exactly the rows that were written. */
  ghost predicate ReadsPrefix(h: seq<RowRef>, es: seq<Event>, m: nat) {
    && m <= |h| && Rows(FirstPerId(es)) == h[..m]
    && forall row :: IsRowOf(es, row) <==> row in h[..m]
  }

  lemma {:induction false} LaneReadsPrefix(k: Const, lane: Lane, topic: seq<Event>) returns (m: nat)
    requires ConstOk(k) && k.fixed.Some? && NoJumps(k, topic) && forall e :: e in topic ==> Genuine(k, e)
    requires HasGtids(k.txns) || RowCoordinatesDistinct(k.fixed.value)
    ensures ReadsPrefix(LaneHistory(k, lane), Filter(InLane(k, lane), topic), m)
    decreases |topic|
  {
    hide SeededHistory, LaneOf, RowLane, HasId, Precedes, HasGtids, RowCoordinatesDistinct;
    var f := InLane(k, lane);
    if topic == [] {
      m := 0;
    } else {
      var n := |topic| - 1;
      assert NoJumps(k, topic[..n]) by {
        forall x | 0 <= x < n ensures NoJump(k, topic[..n][..x], topic[..n][x]) { assert topic[..n][..x] == topic[..x]; }
      }
      m := LaneReadsPrefix(k, lane, topic[..n]);
      var e := topic[n];
      assert topic == topic[..n] + [e];
      FilterAppend(f, topic[..n], [e]);
      if f(e) {
        assert Filter(f, [e]) == [e];
        m := RecordExtendsPrefix(k, lane, topic[..n], e, m);
      } else {
        assert Filter(f, [e]) == [];
        assert Filter(f, topic[..n]) + [] == Filter(f, topic[..n]);
      }
    }
  }

  /** One more record of the lane repeats a row or is the next row. */
  lemma RecordExtendsPrefix(k: Const, lane: Lane, topic: seq<Event>, e: Event, m: nat) returns (m': nat)
    requires ConstOk(k) && k.fixed.Some? && (forall x :: x in topic ==> Genuine(k, x)) && Genuine(k, e)
    requires HasGtids(k.txns) || RowCoordinatesDistinct(k.fixed.value)
    requires InLane(k, lane)(e) && NoJump(k, topic, e)
    requires ReadsPrefix(LaneHistory(k, lane), Filter(InLane(k, lane), topic), m)
    ensures ReadsPrefix(LaneHistory(k, lane), Filter(InLane(k, lane), topic) + [e], m')
  {
    hide SeededHistory, LaneOf, RowLane, HasId, HasGtids, RowCoordinatesDistinct, Filter;
    var f, h := InLane(k, lane), LaneHistory(k, lane);
    var es := Filter(f, topic);
    var es' := es + [e];
    assert es'[..|es|] == es;
    SeenMeansRow(k, lane, topic, e);
    if IsRowOf(es, e.row) {
      m' := m;
      assert FirstPerId(es) + [] == FirstPerId(es);
      assert forall row :: IsRowOf(es', row) <==> IsRowOf(es, row) by { RowOfSnoc(es, e); }
    } else {
      NextInLane(k, lane, topic, e, m);
      m' := m + 1;
      assert h[..m + 1] == h[..m] + [e.row];
      RowsAppend(FirstPerId(es), [e]);
      assert Rows([e]) == [e.row];
      RowOfSnoc(es, e);
    }
  }

  lemma RowOfSnoc(es: seq<Event>, e: Event)
    ensures forall row :: IsRowOf(es + [e], row) <==> IsRowOf(es, row) || row == e.row
  {
    assert forall x :: x in es + [e] <==> x in es || x == e;
    assert e in es + [e];
  }

  lemma SeenMeansRow(k: Const, lane: Lane, topic: seq<Event>, e: Event)
    requires ConstOk(k) && k.fixed.Some? && (forall x :: x in topic ==> Genuine(k, x)) && Genuine(k, e)
    requires HasGtids(k.txns) || RowCoordinatesDistinct(k.fixed.value)
    ensures Seen(Filter(InLane(k, lane), topic), e.id) <==> IsRowOf(Filter(InLane(k, lane), topic), e.row)
  {
    hide Genuine, Filter, HasGtids, RowCoordinatesDistinct, LaneOf;
    var es := Filter(InLane(k, lane), topic);
    forall x | x in es ensures x.id == e.id <==> x.row == e.row {
      FilterMember(InLane(k, lane), topic, x);
      IdsMatchRows(k, x, e);
    }
    assert forall i :: 0 <= i < |es| ==> es[i] in es;
  }

  /** A row of the lane not written yet, with everything before it written, is
      the next one. */
  lemma NextInLane(k: Const, lane: Lane, topic: seq<Event>, e: Event, m: nat)
    requires ConstOk(k) && k.fixed.Some? && Genuine(k, e) && (forall x :: x in topic ==> Genuine(k, x))
    requires InLane(k, lane)(e) && NoJump(k, topic, e)
    requires ReadsPrefix(LaneHistory(k, lane), Filter(InLane(k, lane), topic), m)
    requires !IsRowOf(Filter(InLane(k, lane), topic), e.row)
    ensures m < |LaneHistory(k, lane)| && LaneHistory(k, lane)[m] == e.row
  {
    hide SeededHistory, LaneOf, RowLane, HasId, Filter, FirstPerId;
    var g, h := RowInLane(k, lane), LaneHistory(k, lane);
    FilterMember(g, SeededHistory(k), e.row);
    var j :| 0 <= j < |h| && h[j] == e.row;
    TakenOrLater(h, m, j);
    if j > m {
      var row := h[m];
      assert Before(h, row, e.row);
      FilterMember(g, SeededHistory(k), row);
      BeforeFiltered(g, SeededHistory(k), row, e.row);
      assert Precedes(k, row, e);
      var x :| x in topic && x.row == row;
      FilterMember(InLane(k, lane), topic, x);
      assert IsRowOf(Filter(InLane(k, lane), topic), row);
      LaneHistoryDistinct(k, lane);
      NotTaken(h, m);
    }
  }

  lemma TakenOrLater<X>(h: seq<X>, m: nat, j: nat)
    requires m <= |h| && j < |h|
    ensures j < m ==> h[j] in h[..m]
  {
    if j < m { assert h[..m][j] == h[j]; }
  }

  lemma NotTaken<X(!new)>(h: seq<X>, m: nat)
    requires Distinct(h) && m < |h|
    ensures h[m] !in h[..m]
  {
    assert forall i :: 0 <= i < m ==> h[..m][i] == h[i];
  }

  lemma LaneHistoryDistinct(k: Const, lane: Lane)
    requires ConstOk(k) && k.fixed.Some?
    ensures Distinct(LaneHistory(k, lane))
  {
    var log := k.fixed.value;
    HistoryDistinct(k.cfg, k.txns, log.items);
    FilterDistinct(Uncovered(k.cfg, k.txns, log, k.seed), History(k.cfg, k.txns, log.items));
    FilterDistinct(RowInLane(k, lane), SeededHistory(k));
  }

  /** PER-KEY DELIVERY. After any history of runs, failures, abandoned
      shutdowns, crashes and restarts on one log: a consumer that keeps the
      first record per event ID sees, for every table and record key, exactly
      the first m rows of that key's source history, in order. */
  lemma ConsumerSeesPrefix(k: Const, ws: seq<World>, lane: Lane) returns (m: nat)
    requires ConstOk(k) && k.fixed.Some? && Promised(k) && IsOrderedHistory(k, ws)
    requires HasGtids(k.txns) || RowCoordinatesDistinct(k.fixed.value)
    ensures m <= |LaneHistory(k, lane)|
    ensures Rows(FirstPerId(Filter(InLane(k, lane), ws[|ws| - 1].topic))) == LaneHistory(k, lane)[..m]
  {
    hide Valid, NoJump, Genuine, LaneHistory, LaneOf, Promised, Seeded, Enabled, Apply;
    if Startable(k) {
      HistoryDelivers(k, ws);
      m := LaneReadsPrefix(k, lane, ws[|ws| - 1].topic);
    } else {
      LostSeedStaysPut(k, ws);
      m := 0;
    }
  }
}
