/** What a position means: which transactions a server that resumes from it
    sends again, and which it considers done. The stamping theorems. */
module Resume {
  import opened Prelude
  import opened Events
  import opened Source
  import opened Binlog

  /** A server's binlog: it begins at (file, offset). */
  datatype Log = Log(file: string, offset: nat, items: seq<Item>)

  /** The file item n is written in. */
  function FileAt(log: Log, n: nat): string
    requires n <= |log.items|
  {
    if n == 0 then log.file
    else if log.items[n - 1].Rot? then log.items[n - 1].next
    else FileAt(log, n - 1)
  }

  /** (file, offset) is the start of the log or the end of transaction item b-1. */
  predicate AtBoundary(log: Log, b: nat, file: string, offset: nat) {
    && b <= |log.items|
    && (if b == 0 then file == log.file && offset == log.offset
        else log.items[b - 1].Tx? && file == FileAt(log, b - 1) && offset == log.items[b - 1].end)
  }

  /** The log-shape hypotheses: file names are not empty, no transaction is in
      a log twice, and coordinates are not reused. */
  ghost predicate LogOk(txns: seq<Txn>, log: Log) {
    && ItemsOk(txns, log.items)
    && (forall n :: 0 <= n <= |log.items| ==> FileAt(log, n) != "")
    && (forall m, n :: 0 <= m < n < |log.items| && log.items[m].Tx? && log.items[n].Tx? ==> log.items[m].tid != log.items[n].tid)
    && (forall a: nat, b: nat, file, offset :: AtBoundary(log, a, file, offset) && AtBoundary(log, b, file, offset) ==> a == b)
  }

  /** Every transaction has its own GTID, or none has one. */
  predicate HasGtids(txns: seq<Txn>) {
    && (forall t :: 0 <= t < |txns| ==> txns[t].gtid != "")
    && (forall t, u :: 0 <= t < u < |txns| ==> txns[t].gtid != txns[u].gtid)
  }

  predicate NoGtids(txns: seq<Txn>) { forall t :: 0 <= t < |txns| ==> txns[t].gtid == "" }

  /** GTID mode needs a server with gtid_mode=ON. */
  predicate TxnsOk(cfg: Config, txns: seq<Txn>) {
    if cfg.gtid then HasGtids(txns) else HasGtids(txns) || NoGtids(txns)
  }

  // ---- The server's side ----

  function Unexecuted(txns: seq<Txn>, items: seq<Item>, gtids: set<string>): seq<Item>
    requires ItemsOk(txns, items)
  {
    if items == [] then []
    else
      var it := items[|items| - 1];
      Unexecuted(txns, items[..|items| - 1], gtids)
      + (if it.Rot? || txns[it.tid].gtid !in gtids then [it] else [])
  }

  ghost predicate KnownPosition(log: Log, p: Position) { exists b: nat :: AtBoundary(log, b, p.file, p.offset) }

  ghost function BoundaryOf(log: Log, p: Position): (b: nat)
    requires KnownPosition(log, p)
    ensures AtBoundary(log, b, p.file, p.offset)
  {
    var b: nat :| AtBoundary(log, b, p.file, p.offset); b
  }

  /** What the server streams to a reader that resumes from p; the stream
      opens with an artificial rotation to the file it starts in. */
  ghost function Served(cfg: Config, txns: seq<Txn>, log: Log, p: Position): seq<Item>
    requires ItemsOk(txns, log.items)
  {
    if cfg.gtid then [Rot(log.file)] + Unexecuted(txns, log.items, p.gtids)
    else if KnownPosition(log, p) then [Rot(p.file)] + log.items[BoundaryOf(log, p)..]
    else []
  }

  /** Transaction tid lies before p: resuming from p does not send it. */
  ghost predicate Covers(cfg: Config, txns: seq<Txn>, log: Log, p: Position, tid: nat) {
    if cfg.gtid then tid < |txns| && txns[tid].gtid in p.gtids
    else exists b: nat :: AtBoundary(log, b, p.file, p.offset) && IsIn(log.items[..b], tid)
  }

  predicate IsIn(items: seq<Item>, tid: nat) {
    exists m :: 0 <= m < |items| && items[m].Tx? && items[m].tid == tid
  }

  /** The position the server reports as current when n items are written. */
  ghost function EndOf(txns: seq<Txn>, log: Log, n: nat): Position
    requires LogOk(txns, log) && n <= |log.items|
  {
    Position(set t | 0 <= t < |txns| && IsIn(log.items[..n], t) :: txns[t].gtid,
             FileAt(log, n), if n == 0 then log.offset else if log.items[n - 1].Tx? then log.items[n - 1].end else 4, 0)
  }

  /** resolveStart: a position without coordinates means the current end. */
  function ResolveStart(cfg: Config, saved: Position, current: Position): Position {
    if cfg.gtid then (if saved.gtids == {} && IsZero(saved) then current else saved)
    else if saved.file != "" then saved else current
  }

  // ---- Lists of served items ----

  lemma {:induction false} UnexecutedExact(txns: seq<Txn>, items: seq<Item>, gtids: set<string>, tid: nat)
    requires ItemsOk(txns, items)
    ensures ItemsOk(txns, Unexecuted(txns, items, gtids))
    ensures IsIn(Unexecuted(txns, items, gtids), tid) <==> IsIn(items, tid) && txns[tid].gtid !in gtids
  {
    if items == [] {
    } else {
      var n := |items| - 1;
      UnexecutedExact(txns, items[..n], gtids, tid);
      IsInSnoc(items[..n], items[n], tid);
      assert items == items[..n] + [items[n]];
      var head := Unexecuted(txns, items[..n], gtids);
      IsInSnoc(head, items[n], tid);
      assert head + [] == head;
    }
  }

  lemma IsInSnoc(items: seq<Item>, it: Item, tid: nat)
    ensures IsIn(items + [it], tid) <==> IsIn(items, tid) || (it.Tx? && it.tid == tid)
  {
    if IsIn(items, tid) {
      var m :| 0 <= m < |items| && items[m].Tx? && items[m].tid == tid;
      assert (items + [it])[m] == items[m];
    }
    if it.Tx? && it.tid == tid { assert (items + [it])[|items|] == it; }
    if IsIn(items + [it], tid) {
      var m :| 0 <= m < |items| + 1 && (items + [it])[m].Tx? && (items + [it])[m].tid == tid;
      if m < |items| { assert items[m] == (items + [it])[m]; }
    }
  }

  ghost predicate OnceEach(items: seq<Item>) {
    forall m, n :: 0 <= m < n < |items| && items[m].Tx? && items[n].Tx? ==> items[m].tid != items[n].tid
  }

  lemma {:induction false} UnexecutedOnce(txns: seq<Txn>, items: seq<Item>, gtids: set<string>)
    requires ItemsOk(txns, items) && OnceEach(items)
    ensures OnceEach(Unexecuted(txns, items, gtids))
  {
    if items != [] {
      var n := |items| - 1;
      var head := Unexecuted(txns, items[..n], gtids);
      UnexecutedOnce(txns, items[..n], gtids);
      forall m | 0 <= m < |head| && head[m].Tx? && items[n].Tx? ensures head[m].tid != items[n].tid {
        UnexecutedExact(txns, items[..n], gtids, head[m].tid);
        assert IsIn(items[..n], head[m].tid);
      }
    }
  }

  lemma ServedOnce(cfg: Config, txns: seq<Txn>, log: Log, p: Position)
    requires LogOk(txns, log)
    ensures ItemsOk(txns, Served(cfg, txns, log, p)) && OnceEach(Served(cfg, txns, log, p))
  {
    if cfg.gtid {
      UnexecutedExact(txns, log.items, p.gtids, 0);
      UnexecutedOnce(txns, log.items, p.gtids);
    }
  }

  // ---- What has been committed when an item is read ----

  ghost function Folded(cfg: Config, txns: seq<Txn>, items: seq<Item>, n: nat): set<string>
    requires ItemsOk(txns, items) && n <= |items|
  {
    if n == 0 then {}
    else
      var it := items[n - 1];
      Folded(cfg, txns, items, n - 1)
      + (if it.Tx? && cfg.accepts(txns[it.tid].gtid) then {txns[it.tid].gtid} else {})
  }

  lemma {:induction false} FoldedExact(cfg: Config, txns: seq<Txn>, items: seq<Item>, n: nat, tid: nat)
    requires ItemsOk(txns, items) && n <= |items| && HasGtids(txns) && tid < |txns|
    ensures txns[tid].gtid in Folded(cfg, txns, items, n) <==> IsIn(items[..n], tid) && cfg.accepts(txns[tid].gtid)
  {
    if n > 0 {
      FoldedExact(cfg, txns, items, n - 1, tid);
      assert items[..n] == items[..n - 1] + [items[n - 1]];
      IsInSnoc(items[..n - 1], items[n - 1], tid);
    }
  }

  /** GTID mode: the committed set is the starting set plus every accepted
      GTID committed since; a failed update loses only its own GTID. */
  lemma {:induction false} GtidsCommitted(cfg: Config, txns: seq<Txn>, from: Position, items: seq<Item>, n: nat)
    requires ItemsOk(txns, items) && n <= |items| && cfg.gtid && HasGtids(txns)
    ensures var ts := After(cfg, txns, from, items, n).0;
            && ts.committedGtids == from.gtids + Folded(cfg, txns, items, n)
            && ts.tracked == Some(ts.committedGtids) && ts.pendingGtid == ""
  {
    hide Run, Render, AsExpected;
    if n > 0 {
      GtidsCommitted(cfg, txns, from, items, n - 1);
      ItemEmits(cfg, txns, After(cfg, txns, from, items, n - 1).0, items[n - 1]);
    }
  }

  /** The last boundary at or before item k of the log, from boundary b on. */
  function LastBoundary(log: Log, b: nat, k: nat): nat
    requires b <= k <= |log.items|
  {
    if k == b || log.items[k - 1].Tx? then k else LastBoundary(log, b, k - 1)
  }

  /** File mode: when item k of the log is next, the current file is its file
      and the committed coordinates are the last boundary before it. */
  lemma {:induction false} FileCommitted(cfg: Config, txns: seq<Txn>, log: Log, from: Position, n: nat)
    requires LogOk(txns, log) && !cfg.gtid && KnownPosition(log, from)
    requires 1 <= n <= |Served(cfg, txns, log, from)|
    requires ItemsOk(txns, Served(cfg, txns, log, from))
    ensures var ts := After(cfg, txns, from, Served(cfg, txns, log, from), n).0;
            var b := BoundaryOf(log, from);
            var k := b + n - 1;
            && ts.currentFile == FileAt(log, k)
            && b <= LastBoundary(log, b, k) <= k
            && AtBoundary(log, LastBoundary(log, b, k), ts.committedFile, ts.committedPos)
            && ts.tracked.None? && ts.committedGtids == {}
  {
    hide Run, Render, AsExpected;
    var items := Served(cfg, txns, log, from);
    var b := BoundaryOf(log, from);
    ItemEmits(cfg, txns, After(cfg, txns, from, items, n - 1).0, items[n - 1]);
    if n == 1 {
      assert items[0] == Rot(from.file);
    } else {
      FileCommitted(cfg, txns, log, from, n - 1);
      assert items[n - 1] == log.items[b + n - 2];
    }
  }

  lemma {:induction false} OnlyRotationsAfter(log: Log, b: nat, k: nat, tid: nat)
    requires b <= k <= |log.items|
    ensures b <= LastBoundary(log, b, k) <= k
    ensures IsIn(log.items[..LastBoundary(log, b, k)], tid) <==> IsIn(log.items[..k], tid)
  {
    if k == b || log.items[k - 1].Tx? {
    } else {
      OnlyRotationsAfter(log, b, k - 1, tid);
      assert log.items[..k] == log.items[..k - 1] + [log.items[k - 1]];
      IsInSnoc(log.items[..k - 1], log.items[k - 1], tid);
    }
  }

  lemma IsInAppend(a: seq<Item>, b: seq<Item>, tid: nat)
    ensures IsIn(a + b, tid) <==> IsIn(a, tid) || IsIn(b, tid)
  {
    if IsIn(a, tid) {
      var m :| 0 <= m < |a| && a[m].Tx? && a[m].tid == tid;
      assert (a + b)[m] == a[m];
    }
    if IsIn(b, tid) {
      var m :| 0 <= m < |b| && b[m].Tx? && b[m].tid == tid;
      assert (a + b)[|a| + m] == b[m];
    }
    if IsIn(a + b, tid) {
      var m :| 0 <= m < |a + b| && (a + b)[m].Tx? && (a + b)[m].tid == tid;
      if m < |a| { assert a[m] == (a + b)[m]; } else { assert b[m - |a|] == (a + b)[m]; }
    }
  }

  /** The stamp an event of item m gets. */
  ghost function MarkAt(cfg: Config, txns: seq<Txn>, log: Log, from: Position, m: nat): Position
    requires LogOk(txns, log) && ItemsOk(txns, Served(cfg, txns, log, from)) && m <= |Served(cfg, txns, log, from)|
  {
    Stamp(After(cfg, txns, from, Served(cfg, txns, log, from), m).0, 0)
  }

  /** A known start, as the run will use it: in file mode a position of the log. */
  ghost predicate StartOk(cfg: Config, log: Log, from: Position) {
    cfg.gtid || KnownPosition(log, from)
  }

  lemma FileMarkCovers(cfg: Config, txns: seq<Txn>, log: Log, from: Position, m: nat, tid: nat)
    requires LogOk(txns, log) && !cfg.gtid && KnownPosition(log, from)
    requires ItemsOk(txns, Served(cfg, txns, log, from)) && 1 <= m <= |Served(cfg, txns, log, from)|
    ensures Covers(cfg, txns, log, MarkAt(cfg, txns, log, from, m), tid) <==>
            Covers(cfg, txns, log, from, tid) || IsIn(Served(cfg, txns, log, from)[..m], tid)
  {
    hide After, Covers, IsIn;
    var items, b := Served(cfg, txns, log, from), BoundaryOf(log, from);
    var k := b + m - 1;
    FileCommitted(cfg, txns, log, from, m);
    OnlyRotationsAfter(log, b, k, tid);
    CoversAtBoundary(cfg, txns, log, MarkAt(cfg, txns, log, from, m), LastBoundary(log, b, k), tid);
    CoversAtBoundary(cfg, txns, log, from, b, tid);
    assert log.items[..k] == log.items[..b] + log.items[b..k];
    IsInAppend(log.items[..b], log.items[b..k], tid);
    assert items[..m] == [Rot(from.file)] + log.items[b..k];
    IsInAppend([Rot(from.file)], log.items[b..k], tid);
    RotationHoldsNothing(from.file, tid);
  }

  lemma RotationHoldsNothing(file: string, tid: nat)
    ensures !IsIn([Rot(file)], tid)
  {}

  lemma CoversAtBoundary(cfg: Config, txns: seq<Txn>, log: Log, p: Position, b: nat, tid: nat)
    requires LogOk(txns, log) && !cfg.gtid && AtBoundary(log, b, p.file, p.offset)
    ensures Covers(cfg, txns, log, p, tid) <==> IsIn(log.items[..b], tid)
  {}

  /** The heart of the stamping: when item m is read, the committed
      coordinates cover exactly what the start covered and the transactions
      served before m (in GTID mode, those whose set update succeeded). */
  lemma MarkCovers(cfg: Config, txns: seq<Txn>, log: Log, from: Position, m: nat, tid: nat)
    requires LogOk(txns, log) && TxnsOk(cfg, txns) && StartOk(cfg, log, from) && tid < |txns|
    requires ItemsOk(txns, Served(cfg, txns, log, from)) && m <= |Served(cfg, txns, log, from)|
    ensures Covers(cfg, txns, log, MarkAt(cfg, txns, log, from, m), tid) <==>
            || Covers(cfg, txns, log, from, tid)
            || (IsIn(Served(cfg, txns, log, from)[..m], tid) && (cfg.gtid ==> cfg.accepts(txns[tid].gtid)))
  {
    if cfg.gtid {
      GtidsCommitted(cfg, txns, from, Served(cfg, txns, log, from), m);
      FoldedExact(cfg, txns, Served(cfg, txns, log, from), m, tid);
    } else if m > 0 {
      FileMarkCovers(cfg, txns, log, from, m, tid);
    }
  }

  /** A transaction the start covers is not sent again. */
  lemma ServedIsUncovered(cfg: Config, txns: seq<Txn>, log: Log, from: Position, tid: nat)
    requires LogOk(txns, log) && StartOk(cfg, log, from) && ItemsOk(txns, Served(cfg, txns, log, from))
    requires IsIn(Served(cfg, txns, log, from), tid)
    ensures tid < |txns| && !Covers(cfg, txns, log, from, tid) && IsIn(log.items, tid)
  {
    var items := Served(cfg, txns, log, from);
    if cfg.gtid {
      IsInAppend([Rot(log.file)], Unexecuted(txns, log.items, from.gtids), tid);
      UnexecutedExact(txns, log.items, from.gtids, tid);
    } else {
      var b := BoundaryOf(log, from);
      IsInAppend([Rot(from.file)], log.items[b..], tid);
      assert log.items == log.items[..b] + log.items[b..];
      IsInAppend(log.items[..b], log.items[b..], tid);
      CoversAtBoundary(cfg, txns, log, from, b, tid);
    }
  }

  /** A transaction the start does not cover is sent. */
  lemma UncoveredIsServed(cfg: Config, txns: seq<Txn>, log: Log, from: Position, tid: nat)
    requires LogOk(txns, log) && StartOk(cfg, log, from) && ItemsOk(txns, Served(cfg, txns, log, from))
    requires IsIn(log.items, tid) && tid < |txns| && !Covers(cfg, txns, log, from, tid)
    ensures IsIn(Served(cfg, txns, log, from), tid)
  {
    if cfg.gtid {
      IsInAppend([Rot(log.file)], Unexecuted(txns, log.items, from.gtids), tid);
      UnexecutedExact(txns, log.items, from.gtids, tid);
    } else {
      var b := BoundaryOf(log, from);
      IsInAppend([Rot(from.file)], log.items[b..], tid);
      assert log.items == log.items[..b] + log.items[b..];
      IsInAppend(log.items[..b], log.items[b..], tid);
      CoversAtBoundary(cfg, txns, log, from, b, tid);
    }
  }
}
