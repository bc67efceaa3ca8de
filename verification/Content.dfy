/** What an event says: exactly what its row change is in the log, and what a
    consumer that applies the events makes of its tables. */
module Content {
  import opened Prelude
  import opened Events
  import opened Source
  import opened Binlog
  import opened Resume
  import opened Stamping
  import opened EventIds
  import Keys

  /** Row change `ch` of a rows event, read off its kind and images: update
      rows come in (before, after) pairs. */
  predicate Exists(c: Change, ch: nat) {
    match c.kind
    case WriteRows => ch < |c.images|
    case DeleteRows => ch < |c.images|
    case UpdateRows => 2 * ch + 1 < |c.images|
    case UnknownRows => false
  }

  function BeforeOf(c: Change, ch: nat): Option<Row>
    requires Exists(c, ch)
  {
    match c.kind
    case WriteRows => None
    case DeleteRows => Some(c.images[ch])
    case UpdateRows => Some(c.images[2 * ch])
  }

  function AfterOf(c: Change, ch: nat): Option<Row>
    requires Exists(c, ch)
  {
    match c.kind
    case WriteRows => Some(c.images[ch])
    case DeleteRows => None
    case UpdateRows => Some(c.images[2 * ch + 1])
  }

  function KindOp(kind: Kind): Option<Op> {
    match kind
    case WriteRows => Some(Insert)
    case DeleteRows => Some(Delete)
    case UpdateRows => Some(Update)
    case UnknownRows => None
  }

  /** The image the key is taken from: the new one if there is one. */
  function ImageOf(c: Change, ch: nat): Row
    requires Exists(c, ch)
  {
    if AfterOf(c, ch).Some? then AfterOf(c, ch).value else BeforeOf(c, ch).value
  }

  /** The event says what the row change is. */
  ghost predicate Says(e: Event, c: Change, ch: nat) {
    && Exists(c, ch)
    && KindOp(c.kind) == Some(e.op) && e.before == BeforeOf(c, ch) && e.after == AfterOf(c, ch)
    && e.meta.connector == "mysql" && e.meta.serverId == c.serverId && e.occurredMs == c.ms
    && e.meta.db == c.table.db && e.meta.table == c.table.name
  }

  // ---- Which row changes there are ----

  /** Nothing is left out: a row change is captured if and only if its rows
      event is of a known kind and of a captured table, and its images exist. */
  lemma CapturedExactly(cfg: Config, txns: seq<Txn>, row: RowRef)
    requires row.tid < |txns|
    ensures row in CapturedRows(cfg, txns, row.tid) <==>
            && row.ev < |txns[row.tid].body|
            && var c := txns[row.tid].body[row.ev];
               cfg.captures(c.table.db + "." + c.table.name) && Exists(c, row.change)
  {
    hide Captured;
    CapturedExact(cfg, txns, row.tid, |txns[row.tid].body|, row);
    if row.ev < |txns[row.tid].body| { RowsExist(txns[row.tid].body[row.ev], row.change); }
  }

  lemma RowsExist(c: Change, ch: nat)
    ensures Exists(c, ch) <==> OpFor(c.kind).Some? && ch < ChangeCount(c)
  {}

  // ---- One event ----

  lemma ExpectedSays(cfg: Config, txns: seq<Txn>, base: TxnState, it: Item, row: RowRef, seqNo: nat)
    requires ItemOk(txns, it) && it.Tx? && row.tid == it.tid && IsRow(txns, row)
    ensures var e, c := Expected(cfg, txns, base, it, row, seqNo), txns[row.tid].body[row.ev];
            && e.row == row && Says(e, c, row.change)
            && e.key == Keys.KeyFromColumns(NameOf(c.table), ImageOf(c, row.change), cfg.pk(NameOf(c.table)))
            && e.meta.gtid == base.pendingGtid && e.meta.file == base.currentFile && e.meta.pos == it.at[row.ev]
  {
    hide Keys.KeyFromColumns, EventId, RowOrder;
    RowsExist(txns[row.tid].body[row.ev], row.change);
  }

  // ---- The file a row is in ----

  /** The file the first n items of a served stream end in. */
  function LastFile(items: seq<Item>, n: nat): string
    requires n <= |items|
  {
    if n == 0 then "" else if items[n - 1].Rot? then items[n - 1].next else LastFile(items, n - 1)
  }

  lemma {:induction false} CurrentFileIs(cfg: Config, txns: seq<Txn>, from: Position, items: seq<Item>, n: nat)
    requires ItemsOk(txns, items) && 1 <= n <= |items| && items[0].Rot?
    ensures After(cfg, txns, from, items, n).0.currentFile == LastFile(items, n)
  {
    hide Run, Render, AsExpected, CapturedRows;
    ItemEmits(cfg, txns, After(cfg, txns, from, items, n - 1).0, items[n - 1]);
    if n > 1 { CurrentFileIs(cfg, txns, from, items, n - 1); }
  }

  lemma {:induction false} LastFileOfPrefix(a: seq<Item>, b: seq<Item>, n: nat)
    requires n <= |a|
    ensures LastFile(a + b, n) == LastFile(a, n)
  {
    if n > 0 { LastFileOfPrefix(a, b, n - 1); }
  }

  /** The rotations are served with every executed set: item i of what a GTID
      server sends of its first k items is item m of its log, in m's file. */
  lemma {:induction false} UnexecutedAt(txns: seq<Txn>, log: Log, gtids: set<string>, k: nat)
    requires ItemsOk(txns, log.items) && k <= |log.items|
    ensures var sent := [Rot(log.file)] + Unexecuted(txns, log.items[..k], gtids);
            && LastFile(sent, |sent|) == FileAt(log, k)
            && forall i :: 1 <= i < |sent| ==> Found(log, k, sent, i)
  {
    if k == 0 {
      assert log.items[..0] == [];
    } else {
      var it := log.items[k - 1];
      UnexecutedAt(txns, log, gtids, k - 1);
      assert log.items[..k][..k - 1] == log.items[..k - 1] && log.items[..k][k - 1] == it;
      var front := [Rot(log.file)] + Unexecuted(txns, log.items[..k - 1], gtids);
      var more := if it.Rot? || txns[it.tid].gtid !in gtids then [it] else [];
      var sent := [Rot(log.file)] + Unexecuted(txns, log.items[..k], gtids);
      assert sent == front + more;
      LastFileOfPrefix(front, more, |front|);
      forall i | 1 <= i < |sent| ensures Found(log, k, sent, i) {
        if i < |front| {
          assert Found(log, k - 1, front, i);
          var m: nat :| m < k - 1 && InFile(log, m, front, i);
          LastFileOfPrefix(front, more, i);
          assert InFile(log, m, sent, i);
        } else {
          assert InFile(log, k - 1, sent, i);
        }
      }
    }
  }

  ghost predicate Found(log: Log, k: nat, sent: seq<Item>, i: nat) { exists m: nat :: m < k && InFile(log, m, sent, i) }

  ghost predicate InFile(log: Log, m: nat, sent: seq<Item>, i: nat) {
    m < |log.items| && i < |sent| && sent[i] == log.items[m] && LastFile(sent, i) == FileAt(log, m)
  }

  /** The log item a served transaction is. */
  lemma ServedIsLogItem(cfg: Config, txns: seq<Txn>, log: Log, from: Position, n: nat) returns (m: nat)
    requires LogOk(txns, log) && TxnsOk(cfg, txns) && StartOk(cfg, log, from)
    requires 1 <= n < |Served(cfg, txns, log, from)| && ItemsOk(txns, Served(cfg, txns, log, from))
    ensures m < |log.items| && Served(cfg, txns, log, from)[n] == log.items[m]
    ensures After(cfg, txns, from, Served(cfg, txns, log, from), n).0.currentFile == FileAt(log, m)
  {
    hide Run, After;
    var items := Served(cfg, txns, log, from);
    if cfg.gtid {
      UnexecutedAt(txns, log, from.gtids, |log.items|);
      assert log.items[..|log.items|] == log.items;
      assert Found(log, |log.items|, items, n);
      m :| m < |log.items| && InFile(log, m, items, n);
      CurrentFileIs(cfg, txns, from, items, n);
    } else {
      FileCommitted(cfg, txns, log, from, n);
      m := BoundaryOf(log, from) + n - 1;
    }
  }

  // ---- Every event of every run ----

  /** CONTENT. Every event of every run says what its row change is in the
      log: operation, images, table, server, time, the transaction's GTID and
      the coordinates of the rows event. */
  lemma EventSaysItsRow(cfg: Config, txns: seq<Txn>, log: Log, from: Position, x: nat) returns (m: nat)
    requires RunOk(cfg, txns, log, from) && x < |RunStream(cfg, txns, log, from)|
    ensures var e := RunStream(cfg, txns, log, from)[x];
            && e.row.tid < |txns| && e.row.ev < |txns[e.row.tid].body|
            && var c := txns[e.row.tid].body[e.row.ev];
               && Says(e, c, e.row.change)
               && e.key == Keys.KeyFromColumns(NameOf(c.table), ImageOf(c, e.row.change), cfg.pk(NameOf(c.table)))
               && LiesAt(log, e.row.tid, m) && e.row.ev < |log.items[m].at|
               && e.meta.gtid == txns[e.row.tid].gtid
               && e.meta.file == FileAt(log, m) && e.meta.pos == log.items[m].at[e.row.ev]
  {
    hide Run, Render, After, Expected, RunStream, Says, ImageOf, CapturedRows, Keys.KeyFromColumns;
    var items := Served(cfg, txns, log, from);
    var n := RunOrigin(cfg, txns, log, from, x);
    var ts, it := After(cfg, txns, from, items, n).0, items[n];
    var base := Opened(ts, txns[it.tid].gtid);
    var row := CapturedRows(cfg, txns, it.tid)[x - |After(cfg, txns, from, items, n).1|];
    ExpectedSays(cfg, txns, base, it, row, x + 1);
    FirstIsRotation(cfg, txns, log, from);
    m := ServedIsLogItem(cfg, txns, log, from, n);
    if txns[it.tid].gtid == "" { NothingPending(cfg, txns, from, items, n); }
  }

  lemma FirstIsRotation(cfg: Config, txns: seq<Txn>, log: Log, from: Position)
    requires LogOk(txns, log)
    ensures var items := Served(cfg, txns, log, from); items != [] ==> items[0].Rot?
  {}

  /** KEYS. The source key of every event decodes to its table and to the
      primary key columns (all columns, without a primary key) of the new
      image, or of the old one for a delete. */
  lemma SourceKeyDecodes(cfg: Config, txns: seq<Txn>, log: Log, from: Position, x: nat, types: seq<Keys.ColumnType>)
    requires RunOk(cfg, txns, log, from) && x < |RunStream(cfg, txns, log, from)|
    requires var e := RunStream(cfg, txns, log, from)[x];
             e.row.tid < |txns| && e.row.ev < |txns[e.row.tid].body| && Exists(txns[e.row.tid].body[e.row.ev], e.row.change)
    requires var e := RunStream(cfg, txns, log, from)[x];
             var c := txns[e.row.tid].body[e.row.ev];
             var image, table := ImageOf(c, e.row.change), c.table.db + "." + c.table.name;
             Keys.Plain(table) && Keys.Typed(Keys.Values(image, Keys.KeyColumns(image, cfg.pk(table))), types)
    ensures var e := RunStream(cfg, txns, log, from)[x];
            var c := txns[e.row.tid].body[e.row.ev];
            var image, table := ImageOf(c, e.row.change), c.table.db + "." + c.table.name;
            Keys.DecodeKey(types, e.key) == (table, Keys.Values(image, Keys.KeyColumns(image, cfg.pk(table))))
  {
    hide RunStream, ImageOf, Exists, Says, Keys.KeyFromColumns, Keys.DecodeKey, Keys.Values, Keys.KeyColumns, Keys.Typed, Keys.Plain;
    var m := EventSaysItsRow(cfg, txns, log, from, x);
    var e := RunStream(cfg, txns, log, from)[x];
    var c := txns[e.row.tid].body[e.row.ev];
    Keys.KeyRoundTrip(NameOf(c.table), ImageOf(c, e.row.change), cfg.pk(NameOf(c.table)), types);
  }

  // ---- What a consumer makes of the stream ----

  /** All rows of all tables. */
  type Tables = multiset<(string, Row)>

  function Put(t: Tables, table: string, row: Option<Row>): Tables {
    if row.None? then t else t + multiset{(table, row.value)}
  }

  function Drop(t: Tables, table: string, row: Option<Row>): Tables {
    if row.None? then t else t - multiset{(table, row.value)}
  }

  /** A consumer takes the old image out and puts the new one in. */
  function Consume(t: Tables, es: seq<Event>): Tables {
    if es == [] then t
    else
      var e := es[|es| - 1];
      Put(Drop(Consume(t, es[..|es| - 1]), Fqtn(e.meta), e.before), Fqtn(e.meta), e.after)
  }

  ghost predicate Known(txns: seq<Txn>, row: RowRef) {
    row.tid < |txns| && row.ev < |txns[row.tid].body| && Exists(txns[row.tid].body[row.ev], row.change)
  }

  /** The source inserts, deletes or replaces. */
  ghost function Change(txns: seq<Txn>, t: Tables, row: RowRef): Tables
    requires Known(txns, row)
  {
    var c := txns[row.tid].body[row.ev];
    var table := c.table.db + "." + c.table.name;
    match c.kind
    case WriteRows => t + multiset{(table, c.images[row.change])}
    case DeleteRows => t - multiset{(table, c.images[row.change])}
    case UpdateRows => t - multiset{(table, c.images[2 * row.change])} + multiset{(table, c.images[2 * row.change + 1])}
  }

  ghost function Replay(txns: seq<Txn>, t: Tables, rows: seq<RowRef>): Tables
    requires forall i :: 0 <= i < |rows| ==> Known(txns, rows[i])
  {
    if rows == [] then t else Change(txns, Replay(txns, t, rows[..|rows| - 1]), rows[|rows| - 1])
  }

  /** The event says what its own row is. */
  ghost predicate SaysItsRow(txns: seq<Txn>, e: Event) {
    Known(txns, e.row) && Says(e, txns[e.row.tid].body[e.row.ev], e.row.change)
  }

  lemma ConsumesRow(txns: seq<Txn>, t: Tables, e: Event)
    requires SaysItsRow(txns, e)
    ensures Put(Drop(t, Fqtn(e.meta), e.before), Fqtn(e.meta), e.after) == Change(txns, t, e.row)
  {}

  lemma {:induction false} ConsumesRows(txns: seq<Txn>, t: Tables, es: seq<Event>)
    requires forall x :: 0 <= x < |es| ==> SaysItsRow(txns, es[x])
    ensures forall i :: 0 <= i < |Rows(es)| ==> Known(txns, Rows(es)[i])
    ensures Consume(t, es) == Replay(txns, t, Rows(es))
    decreases |es|
  {
    hide Known, Says, Change, Put, Drop;
    RowsIndex(es);
    forall i | 0 <= i < |Rows(es)| ensures Known(txns, Rows(es)[i]) { assert SaysItsRow(txns, es[i]); }
    if es != [] {
      var n := |es| - 1;
      ConsumesRows(txns, t, es[..n]);
      RowsIndex(es[..n]);
      assert Rows(es)[..n] == Rows(es[..n]) && Rows(es)[n] == es[n].row;
      ConsumesRow(txns, Consume(t, es[..n]), es[n]);
    }
  }

  lemma RunSaysItsRow(cfg: Config, txns: seq<Txn>, log: Log, from: Position, x: nat)
    requires RunOk(cfg, txns, log, from) && x < |RunStream(cfg, txns, log, from)|
    ensures SaysItsRow(txns, RunStream(cfg, txns, log, from)[x])
  {
    hide RunStream, ImageOf, Keys.KeyFromColumns;
    var m := EventSaysItsRow(cfg, txns, log, from, x);
  }

  /** REPLAY. Applying the old and new images of a run's stream to any tables
      makes exactly the changes the source made: the captured row changes the
      start does not cover, in log order. */
  lemma StreamReplaysSource(cfg: Config, txns: seq<Txn>, log: Log, from: Position, t: Tables)
    requires RunOk(cfg, txns, log, from)
    ensures var rows := Filter(Uncovered(cfg, txns, log, from), History(cfg, txns, log.items));
            && (forall i :: 0 <= i < |rows| ==> Known(txns, rows[i]))
            && Consume(t, RunStream(cfg, txns, log, from)) == Replay(txns, t, rows)
  {
    hide RunStream, Covers, History, Filter, Consume, Replay, Says, Exists;
    var s := RunStream(cfg, txns, log, from);
    forall x | 0 <= x < |s| ensures SaysItsRow(txns, s[x]) { RunSaysItsRow(cfg, txns, log, from, x); }
    ConsumesRows(txns, t, s);
    StreamIsUncoveredHistory(cfg, txns, log, from);
  }
}
