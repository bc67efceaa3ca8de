/** The binlog as a sequence of transactions, and what the source makes of
    one transaction and of a whole served stream. */
module Binlog {
  import opened Prelude
  import opened Events
  import opened Source

  /** A transaction: optional GTID event, optional BEGIN, rows events, then
      one XID or non-BEGIN query. "" is no GTID. */
  datatype Txn = Txn(gtid: string, begin: bool, body: seq<Change>, xid: bool)

  /** One item of a log: a file rotation, or transaction `tid` with the
      coordinates its rows events and its end have in this log. */
  datatype Item = Rot(next: string) | Tx(tid: nat, at: seq<nat>, end: nat)

  predicate ItemOk(txns: seq<Txn>, it: Item) {
    it.Tx? ==> it.tid < |txns| && |it.at| == |txns[it.tid].body|
  }

  predicate ItemsOk(txns: seq<Txn>, items: seq<Item>) {
    forall i :: 0 <= i < |items| ==> ItemOk(txns, items[i])
  }

  function Header(txns: seq<Txn>, it: Item): seq<BinEvent>
    requires ItemOk(txns, it) && it.Tx?
  {
    var t := txns[it.tid];
    (if t.gtid != "" then [GtidEvent(t.gtid)] else []) + (if t.begin then [QueryEvent(true, 0)] else [])
  }

  /** The first n rows events of a transaction. */
  function RowEvents(txns: seq<Txn>, it: Item, n: nat): seq<BinEvent>
    requires ItemOk(txns, it) && it.Tx? && n <= |it.at|
  {
    seq(n, j requires 0 <= j < n => RowsEvent(txns[it.tid].body[j], it.at[j], it.tid, j))
  }

  function Ender(txns: seq<Txn>, it: Item): BinEvent
    requires ItemOk(txns, it) && it.Tx?
  {
    if txns[it.tid].xid then XidEvent(it.end) else QueryEvent(false, it.end)
  }

  function Render(txns: seq<Txn>, it: Item): seq<BinEvent>
    requires ItemOk(txns, it)
  {
    match it
    case Rot(next) => [Rotate(next)]
    case Tx(_, at, _) => Header(txns, it) + RowEvents(txns, it, |at|) + [Ender(txns, it)]
  }

  function RenderAll(txns: seq<Txn>, items: seq<Item>): seq<BinEvent>
    requires ItemsOk(txns, items)
  {
    if items == [] then []
    else RenderAll(txns, items[..|items| - 1]) + Render(txns, items[|items| - 1])
  }

  /** Row changes in the first n rows events: the base of tx_order. */
  function RowOrder(body: seq<Change>, n: nat): nat
    requires n <= |body|
  {
    if n == 0 then 0 else RowOrder(body, n - 1) + ChangeCount(body[n - 1])
  }

  predicate IsCaptured(cfg: Config, c: Change) { OpFor(c.kind).Some? && cfg.captures(NameOf(c.table)) }

  function ChangeRows(tid: nat, ev: nat, count: nat): (rows: seq<RowRef>)
    ensures |rows| == count && forall k :: 0 <= k < count ==> rows[k] == RowRef(tid, ev, k)
  {
    seq(count, k requires 0 <= k => RowRef(tid, ev, k))
  }

  /** The captured row changes of the first n rows events, in order. */
  function Captured(cfg: Config, txns: seq<Txn>, tid: nat, n: nat): seq<RowRef>
    requires tid < |txns| && n <= |txns[tid].body|
  {
    if n == 0 then []
    else
      var c := txns[tid].body[n - 1];
      Captured(cfg, txns, tid, n - 1)
      + (if IsCaptured(cfg, c) then ChangeRows(tid, n - 1, ChangeCount(c)) else [])
  }

  function CapturedRows(cfg: Config, txns: seq<Txn>, tid: nat): seq<RowRef>
    requires tid < |txns|
  {
    Captured(cfg, txns, tid, |txns[tid].body|)
  }

  predicate IsRow(txns: seq<Txn>, row: RowRef) {
    && row.tid < |txns| && row.ev < |txns[row.tid].body|
    && row.change < ChangeCount(txns[row.tid].body[row.ev])
  }

  lemma {:induction false} CapturedExact(cfg: Config, txns: seq<Txn>, tid: nat, n: nat, row: RowRef)
    requires tid < |txns| && n <= |txns[tid].body|
    ensures row in Captured(cfg, txns, tid, n) <==>
            row.tid == tid && row.ev < n && IsRow(txns, row) && IsCaptured(cfg, txns[tid].body[row.ev])
  {
    if n > 0 {
      CapturedExact(cfg, txns, tid, n - 1, row);
      var c := txns[tid].body[n - 1];
      if IsCaptured(cfg, c) {
        var more := ChangeRows(tid, n - 1, ChangeCount(c));
        if row.tid == tid && row.ev == n - 1 && IsRow(txns, row) { assert more[row.change] == row; }
      }
    }
  }

  // ---- One transaction ----

  /** Once the header of a transaction is read. */
  function Opened(ts: TxnState, gtid: string): TxnState {
    if gtid != "" then ts.(pendingGtid := gtid, txOrder := 0) else ts
  }

  function Stamp(ts: TxnState, seqNo: nat): Position {
    Position(ts.committedGtids, ts.committedFile, ts.committedPos, seqNo)
  }

  /** The event a captured row must become when its transaction was opened in
      state `base` and it is the seqNo-th event of the run. */
  function Expected(cfg: Config, txns: seq<Txn>, base: TxnState, it: Item, row: RowRef, seqNo: nat): Event
    requires ItemOk(txns, it) && it.Tx? && row.tid == it.tid && IsRow(txns, row)
  {
    var body := txns[it.tid].body;
    MakeEvent(cfg, base.(txOrder := base.txOrder + RowOrder(body, row.ev)),
              RowsEvent(body[row.ev], it.at[row.ev], it.tid, row.ev), row.change).(pos := Stamp(base, seqNo))
  }

  ghost predicate AsExpected(cfg: Config, txns: seq<Txn>, base: TxnState, it: Item, rows: seq<RowRef>, es: seq<Event>)
    requires ItemOk(txns, it) && it.Tx?
  {
    && |es| == |rows|
    && forall x :: 0 <= x < |es| ==>
         && rows[x].tid == it.tid && IsRow(txns, rows[x])
         && es[x] == Expected(cfg, txns, base, it, rows[x], base.seqNo + x + 1)
  }

  /** One captured rows event extends the expected events by its rows. */
  lemma RowsEventEmits(cfg: Config, txns: seq<Txn>, base: TxnState, it: Item, j: nat, ts: TxnState)
    requires ItemOk(txns, it) && it.Tx? && j < |it.at|
    requires ts.txOrder == base.txOrder + RowOrder(txns[it.tid].body, j)
    requires ts == base.(seqNo := ts.seqNo, txOrder := ts.txOrder)
    ensures var c := txns[it.tid].body[j];
            var e := RowsEvent(c, it.at[j], it.tid, j);
            var rows := if IsCaptured(cfg, c) then ChangeRows(it.tid, j, ChangeCount(c)) else [];
            && Handle(cfg, ts, e).0 == ts.(seqNo := ts.seqNo + |rows|, txOrder := ts.txOrder + ChangeCount(c))
            && |Handle(cfg, ts, e).1| == |rows|
            && forall k :: 0 <= k < |rows| ==>
                 rows[k].tid == it.tid && IsRow(txns, rows[k])
                 && Handle(cfg, ts, e).1[k] == Expected(cfg, txns, base, it, rows[k], ts.seqNo + k + 1)
  {
    var c := txns[it.tid].body[j];
    var e := RowsEvent(c, it.at[j], it.tid, j);
    if IsCaptured(cfg, c) {
      var rows, es := ChangeRows(it.tid, j, ChangeCount(c)), Handle(cfg, ts, e).1;
      forall k | 0 <= k < |rows|
        ensures IsRow(txns, rows[k]) && es[k] == Expected(cfg, txns, base, it, rows[k], ts.seqNo + k + 1)
      {
        assert es[k] == MakeEvent(cfg, ts, e, k);
        assert base.(txOrder := base.txOrder + RowOrder(txns[it.tid].body, j)) == ts.(seqNo := base.seqNo);
      }
    }
  }

  lemma ExpectedAppend(cfg: Config, txns: seq<Txn>, base: TxnState, it: Item, rows: seq<RowRef>, es: seq<Event>,
                       rows': seq<RowRef>, es': seq<Event>)
    requires ItemOk(txns, it) && it.Tx? && AsExpected(cfg, txns, base, it, rows, es) && |es'| == |rows'|
    requires forall k :: 0 <= k < |rows'| ==>
               rows'[k].tid == it.tid && IsRow(txns, rows'[k])
               && es'[k] == Expected(cfg, txns, base, it, rows'[k], base.seqNo + |es| + k + 1)
    ensures AsExpected(cfg, txns, base, it, rows + rows', es + es')
  {
    forall x | 0 <= x < |es + es'|
      ensures (rows + rows')[x].tid == it.tid && IsRow(txns, (rows + rows')[x])
      ensures (es + es')[x] == Expected(cfg, txns, base, it, (rows + rows')[x], base.seqNo + x + 1)
    {
      if x >= |es| { assert (es + es')[x] == es'[x - |es|] && (rows + rows')[x] == rows'[x - |es|]; }
    }
  }

  lemma {:induction false} BodyEmits(cfg: Config, txns: seq<Txn>, base: TxnState, it: Item, n: nat)
    requires ItemOk(txns, it) && it.Tx? && n <= |it.at|
    ensures var (ts, es) := Run(cfg, base, RowEvents(txns, it, n));
            var rows := Captured(cfg, txns, it.tid, n);
            && AsExpected(cfg, txns, base, it, rows, es)
            && ts == base.(seqNo := base.seqNo + |rows|, txOrder := base.txOrder + RowOrder(txns[it.tid].body, n))
  {
    if n > 0 {
      BodyEmits(cfg, txns, base, it, n - 1);
      var e := RowsEvent(txns[it.tid].body[n - 1], it.at[n - 1], it.tid, n - 1);
      assert RowEvents(txns, it, n) == RowEvents(txns, it, n - 1) + [e];
      var (ts, es) := Run(cfg, base, RowEvents(txns, it, n - 1));
      var (ts', more) := Handle(cfg, ts, e);
      RunSnoc(cfg, base, RowEvents(txns, it, n - 1), e);
      assert Run(cfg, base, RowEvents(txns, it, n)) == (ts', es + more);
      RowsEventEmits(cfg, txns, base, it, n - 1, ts);
      var c := txns[it.tid].body[n - 1];
      var rows := if IsCaptured(cfg, c) then ChangeRows(it.tid, n - 1, ChangeCount(c)) else [];
      ExpectedAppend(cfg, txns, base, it, Captured(cfg, txns, it.tid, n - 1), es, rows, more);
    }
  }

  lemma HeaderOpens(cfg: Config, txns: seq<Txn>, ts: TxnState, it: Item)
    requires ItemOk(txns, it) && it.Tx?
    ensures Run(cfg, ts, Header(txns, it)) == (Opened(ts, txns[it.tid].gtid), [])
  {
    var t := txns[it.tid];
    var a := if t.gtid != "" then [GtidEvent(t.gtid)] else [];
    var b := if t.begin then [QueryEvent(true, 0)] else [];
    RunAppend(cfg, ts, a, b);
    var inTxn := Opened(ts, t.gtid);
    assert Run(cfg, inTxn, []) == (inTxn, []);
    assert Run(cfg, ts, a) == (inTxn, []);
    assert Run(cfg, inTxn, b) == (inTxn, []);
  }

  /** A whole transaction: its captured rows come out, stamped with the
      coordinates committed before it; then it is committed. */
  lemma TxnEmits(cfg: Config, txns: seq<Txn>, ts: TxnState, it: Item)
    requires ItemOk(txns, it) && it.Tx?
    ensures var base := Opened(ts, txns[it.tid].gtid);
            var rows := CapturedRows(cfg, txns, it.tid);
            var (ts', es) := Run(cfg, ts, Render(txns, it));
            && AsExpected(cfg, txns, base, it, rows, es)
            && ts' == Commit(cfg, base.(seqNo := base.seqNo + |rows|,
                                        txOrder := base.txOrder + RowOrder(txns[it.tid].body, |it.at|)), it.end)
  {
    var base, header, body := Opened(ts, txns[it.tid].gtid), Header(txns, it), RowEvents(txns, it, |it.at|);
    HeaderOpens(cfg, txns, ts, it);
    BodyEmits(cfg, txns, base, it, |it.at|);
    RunAppend(cfg, ts, header, body);
    var es := Run(cfg, base, body).1;
    assert [] + es == es;
    RunSnoc(cfg, ts, header + body, Ender(txns, it));
    assert es + [] == es;
  }

  // ---- A served stream ----

  /** State and events after the first n items of what the server sends. */
  ghost function After(cfg: Config, txns: seq<Txn>, from: Position, items: seq<Item>, n: nat): (TxnState, seq<Event>)
    requires ItemsOk(txns, items) && n <= |items|
  {
    if n == 0 then (Begin(cfg, from), [])
    else
      var (t1, x) := After(cfg, txns, from, items, n - 1);
      var (t2, y) := Run(cfg, t1, Render(txns, items[n - 1]));
      (t2, x + y)
  }

  ghost function Stream(cfg: Config, txns: seq<Txn>, from: Position, items: seq<Item>): seq<Event>
    requires ItemsOk(txns, items)
  {
    After(cfg, txns, from, items, |items|).1
  }

  /** Item by item is what the event loop computes on the rendered stream. */
  lemma {:induction false} AfterIsRun(cfg: Config, txns: seq<Txn>, from: Position, items: seq<Item>, n: nat)
    requires ItemsOk(txns, items) && n <= |items|
    ensures After(cfg, txns, from, items, n) == Run(cfg, Begin(cfg, from), RenderAll(txns, items[..n]))
  {
    if n > 0 {
      AfterIsRun(cfg, txns, from, items, n - 1);
      assert items[..n][..n - 1] == items[..n - 1] && items[..n][n - 1] == items[n - 1];
      RunAppend(cfg, Begin(cfg, from), RenderAll(txns, items[..n - 1]), Render(txns, items[n - 1]));
    }
  }

  /** The captured rows an item brings. */
  function ItemRows(cfg: Config, txns: seq<Txn>, it: Item): seq<RowRef>
    requires ItemOk(txns, it)
  {
    if it.Rot? then [] else CapturedRows(cfg, txns, it.tid)
  }

  /** What the source makes of one item, read in state ts. */
  ghost predicate ItemRead(cfg: Config, txns: seq<Txn>, ts: TxnState, it: Item, ts': TxnState, es: seq<Event>)
    requires ItemOk(txns, it)
  {
    match it
    case Rot(next) => ts' == ts.(currentFile := next) && es == []
    case Tx(tid, at, end) =>
      var base := Opened(ts, txns[tid].gtid);
      && AsExpected(cfg, txns, base, it, CapturedRows(cfg, txns, tid), es)
      && ts' == Commit(cfg, base.(seqNo := base.seqNo + |es|,
                                  txOrder := base.txOrder + RowOrder(txns[tid].body, |at|)), end)
  }

  lemma ItemEmits(cfg: Config, txns: seq<Txn>, ts: TxnState, it: Item)
    requires ItemOk(txns, it)
    ensures ItemRead(cfg, txns, ts, it, Run(cfg, ts, Render(txns, it)).0, Run(cfg, ts, Render(txns, it)).1)
    ensures |Run(cfg, ts, Render(txns, it)).1| == |ItemRows(cfg, txns, it)|
    ensures Run(cfg, ts, Render(txns, it)).0.seqNo == ts.seqNo + |ItemRows(cfg, txns, it)|
  {
    match it
    case Rot(next) =>
      RunSnoc(cfg, ts, [], Rotate(next));
      assert [] + [Rotate(next)] == [Rotate(next)];
    case Tx(_, _, _) => TxnEmits(cfg, txns, ts, it);
  }

  /** SeqNos count the events sent. */
  lemma {:induction false} SeqNoCounts(cfg: Config, txns: seq<Txn>, from: Position, items: seq<Item>, n: nat)
    requires ItemsOk(txns, items) && n <= |items|
    ensures After(cfg, txns, from, items, n).0.seqNo == |After(cfg, txns, from, items, n).1|
  {
    hide Run, Render, ItemRead, ItemRows;
    if n > 0 {
      SeqNoCounts(cfg, txns, from, items, n - 1);
      ItemEmits(cfg, txns, After(cfg, txns, from, items, n - 1).0, items[n - 1]);
    }
  }

  lemma {:induction false} StreamGrows(cfg: Config, txns: seq<Txn>, from: Position, items: seq<Item>, m: nat, n: nat)
    requires ItemsOk(txns, items) && m <= n <= |items|
    ensures After(cfg, txns, from, items, m).1 <= After(cfg, txns, from, items, n).1
    decreases n - m
  {
    hide Run, Render;
    if m < n {
      StreamGrows(cfg, txns, from, items, m + 1, n);
    }
  }

  /** Event x is sent while item m is read. */
  ghost predicate SentDuring(cfg: Config, txns: seq<Txn>, from: Position, items: seq<Item>, x: nat, m: nat)
    requires ItemsOk(txns, items)
  {
    m < |items| && |After(cfg, txns, from, items, m).1| <= x < |After(cfg, txns, from, items, m + 1).1|
  }

  /** Event x of the stream comes from item m. */
  ghost predicate ComesFrom(cfg: Config, txns: seq<Txn>, from: Position, items: seq<Item>, x: nat, m: nat)
    requires ItemsOk(txns, items)
  {
    var stream := Stream(cfg, txns, from, items);
    && SentDuring(cfg, txns, from, items, x, m) && items[m].Tx? && x < |stream|
    && (var ts, it := After(cfg, txns, from, items, m).0, items[m];
        var rows := CapturedRows(cfg, txns, it.tid);
        var y := x - |After(cfg, txns, from, items, m).1|;
        && y < |rows| && rows[y].tid == it.tid && IsRow(txns, rows[y])
        && stream[x] == Expected(cfg, txns, Opened(ts, txns[it.tid].gtid), it, rows[y], x + 1))
  }

  lemma ItemEvent(cfg: Config, txns: seq<Txn>, ts: TxnState, it: Item, y: nat)
    requires ItemOk(txns, it) && y < |ItemRows(cfg, txns, it)|
    ensures it.Tx?
    ensures var rows, es := ItemRows(cfg, txns, it), Run(cfg, ts, Render(txns, it)).1;
            && |es| == |rows| && rows[y].tid == it.tid && IsRow(txns, rows[y])
            && es[y] == Expected(cfg, txns, Opened(ts, txns[it.tid].gtid), it, rows[y], ts.seqNo + y + 1)
            && es[y].row == rows[y]
  {
    ItemEmits(cfg, txns, ts, it);
  }

  lemma StreamAt(cfg: Config, txns: seq<Txn>, from: Position, items: seq<Item>, m: nat, y: nat)
    requires ItemsOk(txns, items) && m < |items|
    requires y < |Run(cfg, After(cfg, txns, from, items, m).0, Render(txns, items[m])).1|
    ensures var x := |After(cfg, txns, from, items, m).1| + y;
            && SentDuring(cfg, txns, from, items, x, m) && x < |Stream(cfg, txns, from, items)|
            && Stream(cfg, txns, from, items)[x] == Run(cfg, After(cfg, txns, from, items, m).0, Render(txns, items[m])).1[y]
  {
    hide Run, Render;
    var before, after := After(cfg, txns, from, items, m).1, After(cfg, txns, from, items, m + 1).1;
    var es := Run(cfg, After(cfg, txns, from, items, m).0, Render(txns, items[m])).1;
    assert after == before + es;
    assert after[|before| + y] == es[y];
    StreamGrows(cfg, txns, from, items, m + 1, |items|);
  }

  /** Row y of transaction item m is event |After(m)| + y of the stream. */
  lemma RowBecomesEvent(cfg: Config, txns: seq<Txn>, from: Position, items: seq<Item>, m: nat, y: nat)
    requires ItemsOk(txns, items) && m < |items| && y < |ItemRows(cfg, txns, items[m])|
    ensures |After(cfg, txns, from, items, m).1| + y < |Stream(cfg, txns, from, items)|
    ensures Stream(cfg, txns, from, items)[|After(cfg, txns, from, items, m).1| + y].row == ItemRows(cfg, txns, items[m])[y]
    ensures ComesFrom(cfg, txns, from, items, |After(cfg, txns, from, items, m).1| + y, m)
  {
    hide Run, Render, Expected, After, CapturedRows, IsRow, Opened;
    ItemEvent(cfg, txns, After(cfg, txns, from, items, m).0, items[m], y);
    StreamAt(cfg, txns, from, items, m, y);
    SeqNoCounts(cfg, txns, from, items, m);
  }

  lemma AfterLength(cfg: Config, txns: seq<Txn>, from: Position, items: seq<Item>, n: nat)
    requires ItemsOk(txns, items) && n < |items|
    ensures |After(cfg, txns, from, items, n + 1).1| == |After(cfg, txns, from, items, n).1| + |ItemRows(cfg, txns, items[n])|
  {
    ItemEmits(cfg, txns, After(cfg, txns, from, items, n).0, items[n]);
  }

  /** Every event of the stream is sent during one item. */
  lemma {:induction false} WhenSent(cfg: Config, txns: seq<Txn>, from: Position, items: seq<Item>, n: nat, x: nat) returns (m: nat)
    requires ItemsOk(txns, items) && n <= |items| && x < |After(cfg, txns, from, items, n).1|
    ensures m < n && SentDuring(cfg, txns, from, items, x, m)
  {
    m := n - 1;
    if x < |After(cfg, txns, from, items, m).1| {
      m := WhenSent(cfg, txns, from, items, m, x);
    }
  }

  /** Every event of the stream comes from one transaction of it. */
  lemma Origin(cfg: Config, txns: seq<Txn>, from: Position, items: seq<Item>, x: nat) returns (m: nat)
    requires ItemsOk(txns, items) && x < |Stream(cfg, txns, from, items)|
    ensures ComesFrom(cfg, txns, from, items, x, m)
  {
    hide Run, Expected, After;
    m := WhenSent(cfg, txns, from, items, |items|, x);
    AfterLength(cfg, txns, from, items, m);
    RowBecomesEvent(cfg, txns, from, items, m, x - |After(cfg, txns, from, items, m).1|);
  }
}
