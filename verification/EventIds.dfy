/** Event IDs are stable across replays and table filters, and unique. */
module EventIds {
  import opened Prelude
  import opened Events
  import opened Text
  import opened Source
  import opened Binlog
  import opened Resume
  import opened Stamping
  import Keys

  /** Where the log has transaction tid. */
  ghost predicate LiesAt(log: Log, tid: nat, m: nat) {
    m < |log.items| && log.items[m].Tx? && log.items[m].tid == tid
  }

  /** The ID the row must have, from the log alone: no start, no filter. */
  ghost predicate HasId(txns: seq<Txn>, log: Log, row: RowRef, id: string) {
    && IsRow(txns, row)
    && if txns[row.tid].gtid != "" then
         id == txns[row.tid].gtid + "#" + Dec(RowOrder(txns[row.tid].body, row.ev) + row.change + 1)
       else exists m: nat :: LiesAt(log, row.tid, m) && row.ev < |log.items[m].at|
              && id == FileAt(log, m) + ":" + Dec(log.items[m].at[row.ev]) + ":" + Dec(row.change)
  }

  lemma NothingOpened(cfg: Config, txns: seq<Txn>, ts: TxnState, it: Item)
    requires ItemOk(txns, it) && NoGtids(txns) && ts.pendingGtid == ""
    ensures Run(cfg, ts, Render(txns, it)).0.pendingGtid == ""
  {
    hide Run, Render, AsExpected;
    ItemEmits(cfg, txns, ts, it);
  }

  lemma {:induction false} NothingPending(cfg: Config, txns: seq<Txn>, from: Position, items: seq<Item>, n: nat)
    requires ItemsOk(txns, items) && n <= |items| && NoGtids(txns)
    ensures After(cfg, txns, from, items, n).0.pendingGtid == ""
  {
    hide Run, Render;
    if n > 0 {
      NothingPending(cfg, txns, from, items, n - 1);
      NothingOpened(cfg, txns, After(cfg, txns, from, items, n - 1).0, items[n - 1]);
    }
  }

  lemma ExpectedId(cfg: Config, txns: seq<Txn>, base: TxnState, it: Item, row: RowRef, seqNo: nat)
    requires ItemOk(txns, it) && it.Tx? && row.tid == it.tid && IsRow(txns, row)
    ensures Expected(cfg, txns, base, it, row, seqNo).row == row
    ensures Expected(cfg, txns, base, it, row, seqNo).id
         == if base.pendingGtid != ""
            then base.pendingGtid + "#" + Dec(base.txOrder + RowOrder(txns[it.tid].body, row.ev) + row.change + 1)
            else base.currentFile + ":" + Dec(it.at[row.ev]) + ":" + Dec(row.change)
  {
    hide Keys.KeyFromColumns, Dec, RowOrder;
  }

  /** Stability: whatever boundary a run resumes from, whatever its table
      filter captures, a row gets the ID the log determines. */
  lemma IdsAreStable(cfg: Config, txns: seq<Txn>, log: Log, from: Position, x: nat)
    requires RunOk(cfg, txns, log, from) && x < |RunStream(cfg, txns, log, from)|
    ensures var e := RunStream(cfg, txns, log, from)[x]; HasId(txns, log, e.row, e.id)
  {
    hide Run, Render, After, Expected, Dec, RowOrder;
    var items := Served(cfg, txns, log, from);
    ServedOnce(cfg, txns, log, from);
    var m := Origin(cfg, txns, from, items, x);
    var ts, it := After(cfg, txns, from, items, m).0, items[m];
    var base := Opened(ts, txns[it.tid].gtid);
    var e := RunStream(cfg, txns, log, from)[x];
    var rows := CapturedRows(cfg, txns, it.tid);
    var row := rows[x - |After(cfg, txns, from, items, m).1|];
    ExpectedId(cfg, txns, base, it, row, x + 1);
    if txns[it.tid].gtid == "" {
      NothingPending(cfg, txns, from, items, m);
      var b := BoundaryOf(log, from);
      FileCommitted(cfg, txns, log, from, m);
      assert it == log.items[b + m - 1];
      assert LiesAt(log, it.tid, b + m - 1);
    }
  }

  /** Rows events of a log without GTIDs do not share coordinates. */
  ghost predicate RowCoordinatesDistinct(log: Log) {
    forall m: nat, n: nat, i: nat, j: nat :: SameCoordinates(log, m, i, n, j) ==> m == n && i == j
  }

  ghost predicate SameCoordinates(log: Log, m: nat, i: nat, n: nat, j: nat) {
    && m < |log.items| && log.items[m].Tx? && i < |log.items[m].at|
    && n < |log.items| && log.items[n].Tx? && j < |log.items[n].at|
    && FileAt(log, m) == FileAt(log, n) && log.items[m].at[i] == log.items[n].at[j]
  }

  lemma DecHasNo(n: nat, mark: char)
    requires mark == '#' || mark == ':'
    ensures forall i :: 0 <= i < |Dec(n)| ==> Dec(n)[i] != mark
  {
    assert Dec(n) == Digits(n);
    assert forall i :: 0 <= i < |Digits(n)| ==> IsDigit(Digits(n)[i]);
  }

  lemma {:induction false} OrdersAscend(body: seq<Change>, i: nat, j: nat)
    requires i < j <= |body|
    ensures RowOrder(body, i) + ChangeCount(body[i]) <= RowOrder(body, j)
    decreases j
  {
    if i < j - 1 { OrdersAscend(body, i, j - 1); }
  }

  /** Uniqueness: distinct row changes have distinct IDs. */
  lemma IdsAreUnique(txns: seq<Txn>, log: Log, row1: RowRef, row2: RowRef, id: string)
    requires LogOk(txns, log) && (HasGtids(txns) || (NoGtids(txns) && RowCoordinatesDistinct(log)))
    requires HasId(txns, log, row1, id) && HasId(txns, log, row2, id)
    ensures row1 == row2
  {
    if HasGtids(txns) {
      GtidIdsAreUnique(txns, log, row1, row2, id);
    } else {
      FileIdsAreUnique(txns, log, row1, row2, id);
    }
  }

  lemma GtidIdsAreUnique(txns: seq<Txn>, log: Log, row1: RowRef, row2: RowRef, id: string)
    requires HasGtids(txns) && HasId(txns, log, row1, id) && HasId(txns, log, row2, id)
    ensures row1 == row2
  {
    hide Dec, RowOrder;
    var body := txns[row1.tid].body;
    var o1: nat := RowOrder(body, row1.ev) + row1.change + 1;
    var o2: nat := RowOrder(txns[row2.tid].body, row2.ev) + row2.change + 1;
    DecHasNo(o1, '#');
    DecHasNo(o2, '#');
    CutAtMark(txns[row1.tid].gtid, Dec(o1), txns[row2.tid].gtid, Dec(o2), '#');
    DecRoundTrip(o1);
    DecRoundTrip(o2);
    assert row1.tid == row2.tid && o1 == o2;
    if row1.ev < row2.ev { OrdersAscend(body, row1.ev, row2.ev); }
    if row2.ev < row1.ev { OrdersAscend(body, row2.ev, row1.ev); }
  }

  lemma FileIdsAreUnique(txns: seq<Txn>, log: Log, row1: RowRef, row2: RowRef, id: string)
    requires LogOk(txns, log) && NoGtids(txns) && RowCoordinatesDistinct(log)
    requires HasId(txns, log, row1, id) && HasId(txns, log, row2, id)
    ensures row1 == row2
  {
    hide Dec, FileAt;
    var m: nat :| LiesAt(log, row1.tid, m) && row1.ev < |log.items[m].at|
                  && id == FileAt(log, m) + ":" + Dec(log.items[m].at[row1.ev]) + ":" + Dec(row1.change);
    var n: nat :| LiesAt(log, row2.tid, n) && row2.ev < |log.items[n].at|
                  && id == FileAt(log, n) + ":" + Dec(log.items[n].at[row2.ev]) + ":" + Dec(row2.change);
    var p, q := log.items[m].at[row1.ev], log.items[n].at[row2.ev];
    DecHasNo(row1.change, ':');
    DecHasNo(row2.change, ':');
    CutAtMark(FileAt(log, m) + ":" + Dec(p), Dec(row1.change), FileAt(log, n) + ":" + Dec(q), Dec(row2.change), ':');
    DecHasNo(p, ':');
    DecHasNo(q, ':');
    CutAtMark(FileAt(log, m), Dec(p), FileAt(log, n), Dec(q), ':');
    DecRoundTrip(row1.change);
    DecRoundTrip(row2.change);
    DecRoundTrip(p);
    DecRoundTrip(q);
    assert SameCoordinates(log, m, row1.ev, n, row2.ev);
  }

  /** The log determines the ID. */
  lemma IdIsDetermined(txns: seq<Txn>, log: Log, row: RowRef, id1: string, id2: string)
    requires LogOk(txns, log) && HasId(txns, log, row, id1) && HasId(txns, log, row, id2)
    ensures id1 == id2
  {
    hide Dec, FileAt, RowOrder;
    if txns[row.tid].gtid == "" {
      var m: nat :| LiesAt(log, row.tid, m) && row.ev < |log.items[m].at|
                    && id1 == FileAt(log, m) + ":" + Dec(log.items[m].at[row.ev]) + ":" + Dec(row.change);
      var n: nat :| LiesAt(log, row.tid, n) && row.ev < |log.items[n].at|
                    && id2 == FileAt(log, n) + ":" + Dec(log.items[n].at[row.ev]) + ":" + Dec(row.change);
      LiesOnce(txns, log, row.tid, m, n);
    }
  }

  lemma LiesOnce(txns: seq<Txn>, log: Log, tid: nat, m: nat, n: nat)
    requires LogOk(txns, log) && LiesAt(log, tid, m) && LiesAt(log, tid, n)
    ensures m == n
  {}

  /** With GTIDs the log plays no part. */
  lemma GtidIdNeedsNoLog(txns: seq<Txn>, log1: Log, log2: Log, row: RowRef, id: string)
    requires HasGtids(txns) && HasId(txns, log1, row, id)
    ensures HasId(txns, log2, row, id)
  {}

  /** IDS ACROSS RUNS. Whatever the two runs' table filters, starts, modes and
      served logs, their events carry the same ID if and only if they carry
      the same row change. With GTIDs the logs may differ, as after a failover;
      without, the runs read one log whose rows events have coordinates of
      their own. */
  lemma RunsAgreeOnIds(txns: seq<Txn>, cfg1: Config, log1: Log, from1: Position, x: nat,
                       cfg2: Config, log2: Log, from2: Position, y: nat)
    requires RunOk(cfg1, txns, log1, from1) && x < |RunStream(cfg1, txns, log1, from1)|
    requires RunOk(cfg2, txns, log2, from2) && y < |RunStream(cfg2, txns, log2, from2)|
    requires HasGtids(txns) || (log1 == log2 && RowCoordinatesDistinct(log1))
    ensures var d, e := RunStream(cfg1, txns, log1, from1)[x], RunStream(cfg2, txns, log2, from2)[y];
            d.id == e.id <==> d.row == e.row
  {
    hide RunStream, HasId, RowCoordinatesDistinct, LogOk;
    var d, e := RunStream(cfg1, txns, log1, from1)[x], RunStream(cfg2, txns, log2, from2)[y];
    IdsAreStable(cfg1, txns, log1, from1, x);
    IdsAreStable(cfg2, txns, log2, from2, y);
    if HasGtids(txns) { GtidIdNeedsNoLog(txns, log2, log1, e.row, e.id); }
    if d.id == e.id { IdsAreUnique(txns, log1, d.row, e.row, d.id); }
    if d.row == e.row { IdIsDetermined(txns, log1, d.row, d.id, e.id); }
  }

  /** Why every transaction must have a GTID of its own: of two transactions
      that carry the same one, rows at the same place of their transaction are
      emitted under one ID. */
  lemma {:induction false} SharedGtidSharesIds(cfg: Config, txns: seq<Txn>, from: Position, items: seq<Item>, m: nat, n: nat, y: nat, z: nat)
    requires ItemsOk(txns, items) && m < |items| && n < |items| && items[m].Tx? && items[n].Tx?
    requires txns[items[m].tid].gtid == txns[items[n].tid].gtid != ""
    requires y < |ItemRows(cfg, txns, items[m])| && z < |ItemRows(cfg, txns, items[n])|
    requires var a, b := ItemRows(cfg, txns, items[m])[y], ItemRows(cfg, txns, items[n])[z];
             && IsRow(txns, a) && IsRow(txns, b)
             && RowOrder(txns[a.tid].body, a.ev) + a.change == RowOrder(txns[b.tid].body, b.ev) + b.change
    ensures var i, j := |After(cfg, txns, from, items, m).1| + y, |After(cfg, txns, from, items, n).1| + z;
            var s := Stream(cfg, txns, from, items);
            i < |s| && j < |s| && s[i].id == s[j].id
            && s[i].row == ItemRows(cfg, txns, items[m])[y] && s[j].row == ItemRows(cfg, txns, items[n])[z]
  {
    hide Run, Render, After, RowOrder, CapturedRows, Dec, Stream;
    EmittedGtidId(cfg, txns, from, items, m, y);
    EmittedGtidId(cfg, txns, from, items, n, z);
  }

  lemma EventIsExpected(cfg: Config, txns: seq<Txn>, from: Position, items: seq<Item>, m: nat, y: nat)
    requires ItemsOk(txns, items) && m < |items| && items[m].Tx? && y < |ItemRows(cfg, txns, items[m])|
    ensures var row, i := ItemRows(cfg, txns, items[m])[y], |After(cfg, txns, from, items, m).1| + y;
            var s, it := Stream(cfg, txns, from, items), items[m];
            && i < |s| && row.tid == it.tid && IsRow(txns, row)
            && s[i] == Expected(cfg, txns, Opened(After(cfg, txns, from, items, m).0, txns[it.tid].gtid), it, row, i + 1)
  {
    hide Run, Render, After, Expected, RowOrder, CapturedRows, Opened;
    RowBecomesEvent(cfg, txns, from, items, m, y);
  }

  /** The ID a row of a transaction with a GTID is emitted under. */
  lemma EmittedGtidId(cfg: Config, txns: seq<Txn>, from: Position, items: seq<Item>, m: nat, y: nat)
    requires ItemsOk(txns, items) && m < |items| && items[m].Tx? && txns[items[m].tid].gtid != ""
    requires y < |ItemRows(cfg, txns, items[m])|
    ensures var row, i := ItemRows(cfg, txns, items[m])[y], |After(cfg, txns, from, items, m).1| + y;
            var s := Stream(cfg, txns, from, items);
            && i < |s| && s[i].row == row && IsRow(txns, row)
            && s[i].id == txns[items[m].tid].gtid + "#" + Dec(RowOrder(txns[row.tid].body, row.ev) + row.change + 1)
  {
    hide Run, Render, After, Expected, RowOrder, CapturedRows, Dec, ItemRows, IsRow, Stream;
    EventIsExpected(cfg, txns, from, items, m, y);
    var base := Opened(After(cfg, txns, from, items, m).0, txns[items[m].tid].gtid);
    ExpectedId(cfg, txns, base, items[m], ItemRows(cfg, txns, items[m])[y], |After(cfg, txns, from, items, m).1| + y + 1);
  }

  // ---- tx_order ----

  /** All row changes, captured or not, of the first n items. */
  function ChangesIn(txns: seq<Txn>, items: seq<Item>, n: nat): nat
    requires ItemsOk(txns, items) && n <= |items|
  {
    if n == 0 then 0
    else ChangesIn(txns, items, n - 1)
         + (if items[n - 1].Tx? then RowOrder(txns[items[n - 1].tid].body, |txns[items[n - 1].tid].body|) else 0)
  }

  /** Without GTID events nothing resets txOrder. */
  lemma {:induction false} OrderAccumulates(cfg: Config, txns: seq<Txn>, from: Position, items: seq<Item>, n: nat)
    requires ItemsOk(txns, items) && n <= |items| && NoGtids(txns)
    ensures After(cfg, txns, from, items, n).0.txOrder == ChangesIn(txns, items, n)
  {
    hide Run, Render, AsExpected, RowOrder;
    if n > 0 {
      OrderAccumulates(cfg, txns, from, items, n - 1);
      ItemEmits(cfg, txns, After(cfg, txns, from, items, n - 1).0, items[n - 1]);
    }
  }

  /** tx_order is the row's position within its whole transaction, filtered
      rows included, if and only if the transaction has a GTID or this run was
      served no row change before it: without GTID events the count runs on
      from the start of the run. */
  lemma TxOrderIsPosition(cfg: Config, txns: seq<Txn>, log: Log, from: Position, x: nat) returns (m: nat)
    requires RunOk(cfg, txns, log, from) && x < |RunStream(cfg, txns, log, from)|
    ensures ItemsOk(txns, Served(cfg, txns, log, from))
    ensures SentDuring(cfg, txns, from, Served(cfg, txns, log, from), x, m)
    ensures var e := RunStream(cfg, txns, log, from)[x];
            && IsRow(txns, e.row)
            && (e.meta.txOrder == RowOrder(txns[e.row.tid].body, e.row.ev) + e.row.change + 1
                <==> txns[e.row.tid].gtid != "" || ChangesIn(txns, Served(cfg, txns, log, from), m) == 0)
  {
    hide Run, Render, After, Expected, Dec, RowOrder, RunStream;
    var items := Served(cfg, txns, log, from);
    ServedOnce(cfg, txns, log, from);
    m := RunOrigin(cfg, txns, log, from, x);
    var ts, it := After(cfg, txns, from, items, m).0, items[m];
    var base := Opened(ts, txns[it.tid].gtid);
    var row := CapturedRows(cfg, txns, it.tid)[x - |After(cfg, txns, from, items, m).1|];
    ExpectedOrder(cfg, txns, base, it, row, x + 1);
    if txns[it.tid].gtid == "" { OrderAccumulates(cfg, txns, from, items, m); }
  }

  lemma RunOrigin(cfg: Config, txns: seq<Txn>, log: Log, from: Position, x: nat) returns (m: nat)
    requires RunOk(cfg, txns, log, from) && x < |RunStream(cfg, txns, log, from)|
    ensures ItemsOk(txns, Served(cfg, txns, log, from))
    ensures RunStream(cfg, txns, log, from) == Stream(cfg, txns, from, Served(cfg, txns, log, from))
    ensures ComesFrom(cfg, txns, from, Served(cfg, txns, log, from), x, m)
  {
    ServedOnce(cfg, txns, log, from);
    m := Origin(cfg, txns, from, Served(cfg, txns, log, from), x);
  }

  lemma ExpectedOrder(cfg: Config, txns: seq<Txn>, base: TxnState, it: Item, row: RowRef, seqNo: nat)
    requires ItemOk(txns, it) && it.Tx? && row.tid == it.tid && IsRow(txns, row)
    ensures Expected(cfg, txns, base, it, row, seqNo).row == row
    ensures Expected(cfg, txns, base, it, row, seqNo).meta.txOrder
         == base.txOrder + RowOrder(txns[it.tid].body, row.ev) + row.change + 1
  {
    hide Keys.KeyFromColumns, Dec, RowOrder;
  }
}
