/** What a run's event stream is: the captured history of the log that the
    start does not cover, in log order, every event stamped with coordinates
    that cover exactly what was committed before it, under a stable ID. */
module Stamping {
  import opened Prelude
  import opened Events
  import opened Source
  import opened Binlog
  import opened Resume
  import Tracking

  /** The hypotheses a run needs about its log and its start. */
  ghost predicate RunOk(cfg: Config, txns: seq<Txn>, log: Log, from: Position) {
    LogOk(txns, log) && TxnsOk(cfg, txns) && StartOk(cfg, log, from)
  }

  ghost function RunStream(cfg: Config, txns: seq<Txn>, log: Log, from: Position): seq<Event>
    requires RunOk(cfg, txns, log, from)
  {
    ServedOnce(cfg, txns, log, from);
    Stream(cfg, txns, from, Served(cfg, txns, log, from))
  }

  function Rows(es: seq<Event>): seq<RowRef> {
    if es == [] then [] else [es[0].row] + Rows(es[1..])
  }

  lemma {:induction false} RowsIndex(es: seq<Event>)
    ensures |Rows(es)| == |es| && forall x :: 0 <= x < |es| ==> Rows(es)[x] == es[x].row
  {
    if es != [] { RowsIndex(es[1..]); }
  }

  lemma {:induction false} RowsAppend(a: seq<Event>, b: seq<Event>)
    ensures Rows(a + b) == Rows(a) + Rows(b)
  {
    if a == [] {
      assert a + b == b;
    } else {
      assert (a + b)[1..] == a[1..] + b;
      RowsAppend(a[1..], b);
    }
  }

  // ---- The stream is the uncovered history ----

  /** All captured rows of a list of items, in order. */
  function History(cfg: Config, txns: seq<Txn>, items: seq<Item>): seq<RowRef>
    requires ItemsOk(txns, items)
  {
    if items == [] then []
    else History(cfg, txns, items[..|items| - 1]) + ItemRows(cfg, txns, items[|items| - 1])
  }

  /** Rows of transactions the position does not cover. */
  ghost function Uncovered(cfg: Config, txns: seq<Txn>, log: Log, p: Position): RowRef -> bool {
    (r: RowRef) => !Covers(cfg, txns, log, p, r.tid)
  }

  lemma {:induction false} StreamIsHistory(cfg: Config, txns: seq<Txn>, from: Position, items: seq<Item>, n: nat)
    requires ItemsOk(txns, items) && n <= |items|
    ensures Rows(After(cfg, txns, from, items, n).1) == History(cfg, txns, items[..n])
  {
    hide Run, Render, ItemRows;
    if n > 0 {
      StreamIsHistory(cfg, txns, from, items, n - 1);
      var (ts, before) := After(cfg, txns, from, items, n - 1);
      var es := Run(cfg, ts, Render(txns, items[n - 1])).1;
      RowsAppend(before, es);
      ItemRowsEmitted(cfg, txns, ts, items[n - 1]);
      assert items[..n][..n - 1] == items[..n - 1];
    }
  }

  /** An item emits its captured rows. */
  lemma ItemRowsEmitted(cfg: Config, txns: seq<Txn>, ts: TxnState, it: Item)
    requires ItemOk(txns, it)
    ensures Rows(Run(cfg, ts, Render(txns, it)).1) == ItemRows(cfg, txns, it)
  {
    hide Run, Render, CapturedRows, Expected;
    var es := Run(cfg, ts, Render(txns, it)).1;
    ItemEmits(cfg, txns, ts, it);
    RowsIndex(es);
    forall y | 0 <= y < |es| ensures Rows(es)[y] == ItemRows(cfg, txns, it)[y] { ItemEvent(cfg, txns, ts, it, y); }
  }

  lemma ItemRowsBelong(cfg: Config, txns: seq<Txn>, it: Item)
    requires ItemOk(txns, it)
    ensures forall r :: r in ItemRows(cfg, txns, it) ==> it.Tx? && r.tid == it.tid && IsRow(txns, r)
  {
    if it.Tx? {
      forall r | r in ItemRows(cfg, txns, it) ensures r.tid == it.tid && IsRow(txns, r) {
        CapturedExact(cfg, txns, it.tid, |txns[it.tid].body|, r);
      }
    }
  }

  lemma {:induction false} HistoryExact(cfg: Config, txns: seq<Txn>, items: seq<Item>, r: RowRef)
    requires ItemsOk(txns, items)
    ensures r in History(cfg, txns, items) <==>
            IsIn(items, r.tid) && r.tid < |txns| && r in CapturedRows(cfg, txns, r.tid)
  {
    if items != [] {
      var n := |items| - 1;
      HistoryExact(cfg, txns, items[..n], r);
      ItemRowsBelong(cfg, txns, items[n]);
      assert items == items[..n] + [items[n]];
      IsInSnoc(items[..n], items[n], r.tid);
    }
  }

  /** Leaving out executed transactions filters the history. */
  lemma {:induction false} UnexecutedHistory(cfg: Config, txns: seq<Txn>, log: Log, items: seq<Item>, p: Position)
    requires ItemsOk(txns, items) && cfg.gtid
    requires ItemsOk(txns, Unexecuted(txns, items, p.gtids))
    ensures History(cfg, txns, Unexecuted(txns, items, p.gtids))
         == Filter(Uncovered(cfg, txns, log, p), History(cfg, txns, items))
  {
    if items != [] {
      var n := |items| - 1;
      var it, f := items[n], Uncovered(cfg, txns, log, p);
      var head := Unexecuted(txns, items[..n], p.gtids);
      UnexecutedExact(txns, items[..n], p.gtids, 0);
      UnexecutedHistory(cfg, txns, log, items[..n], p);
      FilterAppend(f, History(cfg, txns, items[..n]), ItemRows(cfg, txns, it));
      ItemRowsBelong(cfg, txns, it);
      if it.Rot? || txns[it.tid].gtid !in p.gtids {
        FilterAll(f, ItemRows(cfg, txns, it));
        assert (head + [it])[..|head|] == head;
      } else {
        FilterNone(f, ItemRows(cfg, txns, it));
        assert head + [] == head;
      }
    }
  }

  lemma {:induction false} HistoryAppend(cfg: Config, txns: seq<Txn>, a: seq<Item>, b: seq<Item>)
    requires ItemsOk(txns, a) && ItemsOk(txns, b)
    ensures ItemsOk(txns, a + b) && History(cfg, txns, a + b) == History(cfg, txns, a) + History(cfg, txns, b)
    decreases |b|
  {
    hide ItemRows;
    if b == [] {
      assert a + b == a;
    } else {
      var n := |b| - 1;
      HistoryAppend(cfg, txns, a, b[..n]);
      assert (a + b)[..|a| + n] == a + b[..n] && (a + b)[|a| + n] == b[n];
      var x, y, z := History(cfg, txns, a), History(cfg, txns, b[..n]), ItemRows(cfg, txns, b[n]);
      assert (x + y) + z == x + (y + z);
    }
  }

  /** The rows of a run, in order: every captured row of the log whose
      transaction the start does not cover, and nothing else. */
  lemma StreamIsUncoveredHistory(cfg: Config, txns: seq<Txn>, log: Log, from: Position)
    requires RunOk(cfg, txns, log, from)
    ensures Rows(RunStream(cfg, txns, log, from))
         == Filter(Uncovered(cfg, txns, log, from), History(cfg, txns, log.items))
  {
    var items := Served(cfg, txns, log, from);
    ServedOnce(cfg, txns, log, from);
    StreamIsHistory(cfg, txns, from, items, |items|);
    assert items[..|items|] == items;
    if cfg.gtid {
      UnexecutedExact(txns, log.items, from.gtids, 0);
      UnexecutedHistory(cfg, txns, log, log.items, from);
      HistoryAppend(cfg, txns, [Rot(log.file)], Unexecuted(txns, log.items, from.gtids));
      assert History(cfg, txns, [Rot(log.file)]) == [];
    } else {
      FileHistory(cfg, txns, log, from);
    }
  }

  lemma FileHistory(cfg: Config, txns: seq<Txn>, log: Log, from: Position)
    requires RunOk(cfg, txns, log, from) && !cfg.gtid && ItemsOk(txns, Served(cfg, txns, log, from))
    ensures History(cfg, txns, Served(cfg, txns, log, from))
         == Filter(Uncovered(cfg, txns, log, from), History(cfg, txns, log.items))
  {
    var b, f := BoundaryOf(log, from), Uncovered(cfg, txns, log, from);
    var done, rest := log.items[..b], log.items[b..];
    assert ItemsOk(txns, done) && ItemsOk(txns, rest);
    assert log.items == done + rest;
    HistoryAppend(cfg, txns, done, rest);
    HistoryAppend(cfg, txns, [Rot(from.file)], rest);
    assert History(cfg, txns, [Rot(from.file)]) == [];
    FilterAppend(f, History(cfg, txns, done), History(cfg, txns, rest));
    forall r | r in History(cfg, txns, done) ensures !f(r) {
      HistoryExact(cfg, txns, done, r);
      CoversAtBoundary(cfg, txns, log, from, b, r.tid);
    }
    FilterNone(f, History(cfg, txns, done));
    forall r | r in History(cfg, txns, rest) ensures f(r) {
      HistoryExact(cfg, txns, rest, r);
      IsInAppend([Rot(from.file)], rest, r.tid);
      ServedIsUncovered(cfg, txns, log, from, r.tid);
    }
    FilterAll(f, History(cfg, txns, rest));
  }

  // ---- Every row once, in log order ----

  lemma {:induction false} CapturedDistinct(cfg: Config, txns: seq<Txn>, tid: nat, n: nat)
    requires tid < |txns| && n <= |txns[tid].body|
    ensures Distinct(Captured(cfg, txns, tid, n))
  {
    if n > 0 {
      CapturedDistinct(cfg, txns, tid, n - 1);
      forall r | r in Captured(cfg, txns, tid, n - 1) ensures r.ev < n - 1 {
        CapturedExact(cfg, txns, tid, n - 1, r);
      }
    }
  }

  lemma {:induction false} HistoryDistinct(cfg: Config, txns: seq<Txn>, items: seq<Item>)
    requires ItemsOk(txns, items) && OnceEach(items)
    ensures Distinct(History(cfg, txns, items))
  {
    if items != [] {
      var n := |items| - 1;
      var head, tail := History(cfg, txns, items[..n]), ItemRows(cfg, txns, items[n]);
      HistoryDistinct(cfg, txns, items[..n]);
      if items[n].Tx? { CapturedDistinct(cfg, txns, items[n].tid, |txns[items[n].tid].body|); }
      ItemRowsBelong(cfg, txns, items[n]);
      forall x, y | 0 <= x < |head| && 0 <= y < |tail| ensures head[x] != tail[y] {
        assert head[x] in head && tail[y] in tail;
        HistoryExact(cfg, txns, items[..n], head[x]);
        NotBefore(items, n, n);
      }
    }
  }

  lemma RunRowsDistinct(cfg: Config, txns: seq<Txn>, log: Log, from: Position)
    requires RunOk(cfg, txns, log, from)
    ensures Distinct(Rows(RunStream(cfg, txns, log, from)))
  {
    var items := Served(cfg, txns, log, from);
    ServedOnce(cfg, txns, log, from);
    StreamIsHistory(cfg, txns, from, items, |items|);
    assert items[..|items|] == items;
    HistoryDistinct(cfg, txns, items);
  }

  // ---- Stamps ----

  /** SeqNos are exactly 1..N. */
  lemma StreamIsNumbered(cfg: Config, txns: seq<Txn>, log: Log, from: Position)
    requires RunOk(cfg, txns, log, from)
    ensures Tracking.Numbered(RunStream(cfg, txns, log, from))
  {
    var items := Served(cfg, txns, log, from);
    ServedOnce(cfg, txns, log, from);
    forall x | 0 <= x < |RunStream(cfg, txns, log, from)|
      ensures RunStream(cfg, txns, log, from)[x].pos.seqNo == x + 1
    {
      var m := Origin(cfg, txns, from, items, x);
    }
  }

  /** The item event x comes from, with the stamp it was given there. */
  lemma StampOf(cfg: Config, txns: seq<Txn>, log: Log, from: Position, x: nat) returns (m: nat)
    requires RunOk(cfg, txns, log, from) && x < |RunStream(cfg, txns, log, from)|
    ensures ItemsOk(txns, Served(cfg, txns, log, from))
    ensures ComesFrom(cfg, txns, from, Served(cfg, txns, log, from), x, m)
    ensures RunStream(cfg, txns, log, from)[x].row.tid == Served(cfg, txns, log, from)[m].tid < |txns|
    ensures RunStream(cfg, txns, log, from)[x].pos == MarkAt(cfg, txns, log, from, m).(seqNo := x + 1)
    ensures forall tid: nat :: Covers(cfg, txns, log, RunStream(cfg, txns, log, from)[x].pos, tid)
                          <==> Covers(cfg, txns, log, MarkAt(cfg, txns, log, from, m), tid)
  {
    var items := Served(cfg, txns, log, from);
    ServedOnce(cfg, txns, log, from);
    m := Origin(cfg, txns, from, items, x);
    var p, q := RunStream(cfg, txns, log, from)[x].pos, MarkAt(cfg, txns, log, from, m);
    assert p.gtids == q.gtids && p.file == q.file && p.offset == q.offset;
  }

  /** The items of later events do not come earlier. */
  lemma OriginsAscend(cfg: Config, txns: seq<Txn>, from: Position, items: seq<Item>, x: nat, m: nat, y: nat, n: nat)
    requires ItemsOk(txns, items) && x <= y
    requires SentDuring(cfg, txns, from, items, x, m) && SentDuring(cfg, txns, from, items, y, n)
    ensures m <= n
  {
    hide After;
    if n < m { StreamGrows(cfg, txns, from, items, n + 1, m); }
  }

  lemma IsInPrefix(items: seq<Item>, m: nat, n: nat, tid: nat)
    requires m <= n <= |items|
    ensures IsIn(items[..m], tid) ==> IsIn(items[..n], tid)
  {
    if IsIn(items[..m], tid) {
      var i :| 0 <= i < m && items[..m][i].Tx? && items[..m][i].tid == tid;
      assert items[..n][i] == items[..m][i];
    }
  }

  /** Stamps only move forward: they cover what the start covers, and what
      every earlier stamp covers. */
  lemma StampsMonotone(cfg: Config, txns: seq<Txn>, log: Log, from: Position, x: nat, y: nat, tid: nat)
    requires RunOk(cfg, txns, log, from) && x <= y < |RunStream(cfg, txns, log, from)| && tid < |txns|
    ensures var s := RunStream(cfg, txns, log, from);
            && (Covers(cfg, txns, log, from, tid) ==> Covers(cfg, txns, log, s[x].pos, tid))
            && (Covers(cfg, txns, log, s[x].pos, tid) ==> Covers(cfg, txns, log, s[y].pos, tid))
  {
    var items := Served(cfg, txns, log, from);
    var m := StampOf(cfg, txns, log, from, x);
    var n := StampOf(cfg, txns, log, from, y);
    OriginsAscend(cfg, txns, from, items, x, m, y, n);
    MarkCovers(cfg, txns, log, from, m, tid);
    MarkCovers(cfg, txns, log, from, n, tid);
    IsInPrefix(items, m, n, tid);
  }

  /** A stamp never skips: what it covers and the start did not was sent in
      full before the event that carries it. */
  lemma CoveredWasSent(cfg: Config, txns: seq<Txn>, log: Log, from: Position, x: nat, row: RowRef) returns (y: nat)
    requires RunOk(cfg, txns, log, from) && x < |RunStream(cfg, txns, log, from)|
    requires row.tid < |txns| && row in CapturedRows(cfg, txns, row.tid)
    requires Covers(cfg, txns, log, RunStream(cfg, txns, log, from)[x].pos, row.tid)
    requires !Covers(cfg, txns, log, from, row.tid)
    ensures y < x && RunStream(cfg, txns, log, from)[y].row == row
  {
    var items := Served(cfg, txns, log, from);
    var m := StampOf(cfg, txns, log, from, x);
    MarkCovers(cfg, txns, log, from, m, row.tid);
    y := SentBeforeItem(cfg, txns, from, items, m, row);
  }

  /** The rows of a transaction served before item m are sent before it. */
  lemma SentBeforeItem(cfg: Config, txns: seq<Txn>, from: Position, items: seq<Item>, m: nat, row: RowRef) returns (y: nat)
    requires ItemsOk(txns, items) && m <= |items| && IsIn(items[..m], row.tid)
    requires row.tid < |txns| && row in CapturedRows(cfg, txns, row.tid)
    ensures y < |After(cfg, txns, from, items, m).1|
    ensures y < |Stream(cfg, txns, from, items)| && Stream(cfg, txns, from, items)[y].row == row
  {
    hide After, CapturedRows;
    var n :| 0 <= n < m && items[..m][n].Tx? && items[..m][n].tid == row.tid;
    var rows := ItemRows(cfg, txns, items[n]);
    var i :| 0 <= i < |rows| && rows[i] == row;
    y := |After(cfg, txns, from, items, n).1| + i;
    RowBecomesEvent(cfg, txns, from, items, n, i);
    StreamGrows(cfg, txns, from, items, n + 1, m);
  }

  /** Resuming from an event's stamp replays that event and everything after it. */
  lemma StampReplaysTheRest(cfg: Config, txns: seq<Txn>, log: Log, from: Position, x: nat, y: nat)
    requires RunOk(cfg, txns, log, from) && x <= y < |RunStream(cfg, txns, log, from)|
    ensures var s := RunStream(cfg, txns, log, from); !Covers(cfg, txns, log, s[x].pos, s[y].row.tid)
  {
    var items := Served(cfg, txns, log, from);
    var m := StampOf(cfg, txns, log, from, x);
    var n := StampOf(cfg, txns, log, from, y);
    var tid := items[n].tid;
    OriginsAscend(cfg, txns, from, items, x, m, y, n);
    MarkCovers(cfg, txns, log, from, m, tid);
    ServedIsUncovered(cfg, txns, log, from, tid);
    ServedOnce(cfg, txns, log, from);
    NotBefore(items, m, n);
  }

  lemma NotBefore(items: seq<Item>, m: nat, n: nat)
    requires OnceEach(items) && m <= n < |items| && items[n].Tx?
    ensures !IsIn(items[..m], items[n].tid)
  {
    assert forall i :: 0 <= i < m ==> items[..m][i] == items[i];
  }

  /** When every set update succeeds, a stamp covers every earlier event of
      another transaction: only the open transaction is replayed. */
  lemma StampCoversTheRest(cfg: Config, txns: seq<Txn>, log: Log, from: Position, x: nat, y: nat)
    requires RunOk(cfg, txns, log, from) && y <= x < |RunStream(cfg, txns, log, from)|
    requires cfg.gtid ==> forall t :: 0 <= t < |txns| ==> cfg.accepts(txns[t].gtid)
    ensures var s := RunStream(cfg, txns, log, from);
            s[y].row.tid != s[x].row.tid ==> Covers(cfg, txns, log, s[x].pos, s[y].row.tid)
  {
    hide After, Covers, ComesFrom, Served;
    var items := Served(cfg, txns, log, from);
    var m := StampOf(cfg, txns, log, from, x);
    var n := StampOf(cfg, txns, log, from, y);
    OriginsAscend(cfg, txns, from, items, y, n, x, m);
    if n < m {
      assert items[..m][n] == items[n];
      MarkCovers(cfg, txns, log, from, m, items[n].tid);
    }
  }

  /** A stamp names a place whenever the start does: in GTID mode it contains
      the starting set, in file mode it is a transaction boundary. */
  lemma StampIsAPlace(cfg: Config, txns: seq<Txn>, log: Log, from: Position, x: nat)
    requires RunOk(cfg, txns, log, from) && x < |RunStream(cfg, txns, log, from)|
    ensures var p := RunStream(cfg, txns, log, from)[x].pos;
            if cfg.gtid then from.gtids <= p.gtids else KnownPosition(log, p) && (from.file != "" ==> p.file != "")
  {
    hide Run, AsExpected, RunStream, Covers, After;
    var m := StampOf(cfg, txns, log, from, x);
    if cfg.gtid {
      GtidsCommitted(cfg, txns, from, Served(cfg, txns, log, from), m);
    } else {
      FileCommitted(cfg, txns, log, from, m);
      var b := LastBoundary(log, BoundaryOf(log, from), BoundaryOf(log, from) + m - 1);
      BoundaryHasFile(txns, log, b, MarkAt(cfg, txns, log, from, m));
    }
  }

  lemma BoundaryHasFile(txns: seq<Txn>, log: Log, b: nat, p: Position)
    requires LogOk(txns, log) && AtBoundary(log, b, p.file, p.offset)
    ensures p.file != ""
  {
    assert FileAt(log, if b > 0 then b - 1 else 0) != "";
  }

  // ---- Stamps that name no place ----

  /** Item m is the first transaction of the log. */
  ghost predicate FirstTx(log: Log, m: nat) {
    m < |log.items| && log.items[m].Tx? && forall i :: 0 <= i < m ==> log.items[i].Rot?
  }

  lemma {:induction false} NothingExecuted(txns: seq<Txn>, items: seq<Item>)
    requires ItemsOk(txns, items)
    ensures Unexecuted(txns, items, {}) == items
  {
    if items != [] {
      var n := |items| - 1;
      NothingExecuted(txns, items[..n]);
      assert items == items[..n] + [items[n]];
    }
  }

  /** Once a transaction was committed the committed file has a name. */
  lemma {:induction false} CommitsAreNamed(cfg: Config, txns: seq<Txn>, from: Position, items: seq<Item>, n: nat)
    requires ItemsOk(txns, items) && 1 <= n <= |items| && items[0].Rot?
    requires forall i :: 0 <= i < n && items[i].Rot? ==> items[i].next != ""
    ensures After(cfg, txns, from, items, n).0.currentFile != ""
    ensures (exists i :: 0 <= i < n && items[i].Tx?) ==> After(cfg, txns, from, items, n).0.committedFile != ""
  {
    hide Run, Render, AsExpected;
    ItemEmits(cfg, txns, After(cfg, txns, from, items, n - 1).0, items[n - 1]);
    if n > 1 { CommitsAreNamed(cfg, txns, from, items, n - 1); }
  }

  /** A zero stamp: the start's set is empty and the event belongs to the first
      transaction of the log. */
  lemma ZeroStampIsFirst(cfg: Config, txns: seq<Txn>, log: Log, from: Position, x: nat) returns (m: nat)
    requires RunOk(cfg, txns, log, from) && cfg.gtid && x < |RunStream(cfg, txns, log, from)|
    requires IsZero(RunStream(cfg, txns, log, from)[x].pos)
    ensures from.gtids == {} && FirstTx(log, m) && log.items[m].tid == RunStream(cfg, txns, log, from)[x].row.tid
  {
    hide Run, Render, RunStream, Covers, After, ComesFrom, AsExpected;
    var items := Served(cfg, txns, log, from);
    StampIsAPlace(cfg, txns, log, from, x);
    assert from.gtids == {};
    NothingExecuted(txns, log.items);
    var n := StampOf(cfg, txns, log, from, x);
    assert items == [Rot(log.file)] + log.items;
    ServedItemIsTx(cfg, txns, from, items, x, n);
    forall i | 0 <= i < n && items[i].Rot? ensures items[i].next != "" { RotationIsNamed(txns, log, i); }
    CommitsAreNamed(cfg, txns, from, items, n);
    m := n - 1;
    assert log.items[m] == items[n];
    forall i | 0 <= i < m ensures log.items[i].Rot? { assert items[i + 1] == log.items[i]; }
  }

  lemma ServedItemIsTx(cfg: Config, txns: seq<Txn>, from: Position, items: seq<Item>, x: nat, n: nat)
    requires ItemsOk(txns, items) && ComesFrom(cfg, txns, from, items, x, n) && items != [] && items[0].Rot?
    ensures 1 <= n < |items| && items[n].Tx?
  {}

  lemma RotationIsNamed(txns: seq<Txn>, log: Log, i: nat)
    requires LogOk(txns, log) && i <= |log.items| && ([Rot(log.file)] + log.items)[i].Rot?
    ensures ([Rot(log.file)] + log.items)[i].next != ""
  {
    assert FileAt(log, i) != "";
  }
}
