/** pkg/source/mysql/source.go: txnState and the event handler that stamps
    every emitted row with committed resume coordinates. */
module Source {
  import opened Prelude
  import opened Events
  import opened Text
  import Keys

  datatype Kind = WriteRows | UpdateRows | DeleteRows | UnknownRows

  /** opForEventType. */
  function OpFor(k: Kind): Option<Op> {
    match k
    case WriteRows => Some(Insert)
    case UpdateRows => Some(Update)
    case DeleteRows => Some(Delete)
    case UnknownRows => None
  }

  /** Update rows come in (before, after) pairs. */
  function Stride(op: Op): nat { if op.Update? then 2 else 1 }

  datatype Table = Table(db: string, name: string)

  function NameOf(t: Table): string { t.db + "." + t.name }

  /** `captures` is the table filter, `pk` the primary key columns of a table,
      `accepts` says whether GTIDSet.Update can fold a GTID in. */
  datatype Config = Config(gtid: bool, captures: string -> bool, pk: string -> seq<string>, accepts: string -> bool)

  /** What a rows event says about its rows; images are already mapped to
      named columns. */
  datatype Change = Change(table: Table, kind: Kind, images: seq<Row>, serverId: nat, ms: int)

  /** Binlog events; a rows event carries the model's name (tid, ev) for it. */
  datatype BinEvent =
    | Rotate(next: string)
    | GtidEvent(gtid: string)
    | XidEvent(pos: nat)
    | QueryEvent(begin: bool, pos: nat)
    | RowsEvent(change: Change, pos: nat, tid: nat, ev: nat)

  /** `tracked` is the running executed set, None in file mode. */
  datatype TxnState = TxnState(committedGtids: set<string>, committedFile: string, committedPos: nat,
                               currentFile: string, tracked: Option<set<string>>, pendingGtid: string,
                               seqNo: nat, txOrder: nat)

  /** The initial state of `run` for a resolved start. */
  function Begin(cfg: Config, from: Position): TxnState {
    if cfg.gtid then TxnState(from.gtids, "", 0, "", Some(from.gtids), "", 0, 0)
    else TxnState({}, from.file, from.offset, from.file, None, "", 0, 0)
  }

  function Commit(cfg: Config, ts: TxnState, pos: nat): TxnState {
    var folded :=
      if ts.tracked.Some? && ts.pendingGtid != "" then
        var grown := ts.tracked.value + {ts.pendingGtid};
        if cfg.accepts(ts.pendingGtid)
        then ts.(tracked := Some(grown), committedGtids := grown, pendingGtid := "")
        else ts.(pendingGtid := "")
      else ts;
    folded.(committedFile := ts.currentFile, committedPos := pos)
  }

  /** Row changes a rows event amounts to: the iterations of the emit loop. */
  function ChangeCount(c: Change): nat {
    if OpFor(c.kind).None? then 0 else |c.images| / Stride(OpFor(c.kind).value)
  }

  /** GTIDs name an event across failover; file coordinates otherwise. */
  function EventId(ts: TxnState, pos: nat, order: nat, k: nat): string {
    if ts.pendingGtid != "" then ts.pendingGtid + "#" + Dec(order)
    else ts.currentFile + ":" + Dec(pos) + ":" + Dec(k)
  }

  /** Row change k of a rows event, emitted from state ts. */
  function MakeEvent(cfg: Config, ts: TxnState, e: BinEvent, k: nat): Event
    requires e.RowsEvent? && k < ChangeCount(e.change)
  {
    var c := e.change;
    var op := OpFor(c.kind).value;
    var before := if op.Insert? then None else Some(c.images[Stride(op) * k]);
    var after := if op.Delete? then None else Some(c.images[Stride(op) * k + Stride(op) - 1]);
    var image := if op.Delete? then before else after;
    var order := ts.txOrder + k + 1;
    Event(EventId(ts, e.pos, order, k), op, before, after, c.ms,
          SourceMeta("mysql", c.serverId, c.table.db, c.table.name, ts.pendingGtid, ts.currentFile, e.pos, order),
          Keys.KeyFromColumns(NameOf(c.table), image.value, cfg.pk(NameOf(c.table))),
          Position(ts.committedGtids, ts.committedFile, ts.committedPos, ts.seqNo + k + 1),
          RowRef(e.tid, e.ev, k))
  }

  function MakeEvents(cfg: Config, ts: TxnState, e: BinEvent, n: nat): seq<Event>
    requires e.RowsEvent? && n <= ChangeCount(e.change)
  {
    seq(n, k requires 0 <= k < n => MakeEvent(cfg, ts, e, k))
  }

  /** handleEvent: the next state and the micro-batch it emits. */
  function Handle(cfg: Config, ts: TxnState, e: BinEvent): (TxnState, seq<Event>) {
    match e
    case Rotate(next) => (ts.(currentFile := next), [])
    case GtidEvent(gtid) => (ts.(pendingGtid := gtid, txOrder := 0), [])
    case XidEvent(pos) => (Commit(cfg, ts, pos), [])
    case QueryEvent(begin, pos) => (if begin then ts else Commit(cfg, ts, pos), [])
    case RowsEvent(c, _, _, _) =>
      var n := ChangeCount(c);
      if OpFor(c.kind).None? then (ts, [])
      else if !cfg.captures(NameOf(c.table)) then (ts.(txOrder := ts.txOrder + n), [])
      else (ts.(seqNo := ts.seqNo + n, txOrder := ts.txOrder + n), MakeEvents(cfg, ts, e, n))
  }

  /** The source's event loop over the events it received. */
  function Run(cfg: Config, ts: TxnState, es: seq<BinEvent>): (TxnState, seq<Event>)
    decreases |es|
  {
    if es == [] then (ts, [])
    else
      var (ts1, head) := Handle(cfg, ts, es[0]);
      var (ts2, rest) := Run(cfg, ts1, es[1..]);
      (ts2, head + rest)
  }

  lemma {:induction false} RunAppend(cfg: Config, ts: TxnState, a: seq<BinEvent>, b: seq<BinEvent>)
    ensures var (t1, x) := Run(cfg, ts, a);
            var (t2, y) := Run(cfg, t1, b);
            Run(cfg, ts, a + b) == (t2, x + y)
    decreases |a|
  {
    hide Handle;
    if a == [] {
      assert a + b == b;
      var (t2, y) := Run(cfg, ts, b);
      assert [] + y == y;
    } else {
      assert (a + b)[1..] == a[1..] + b;
      var (t, head) := Handle(cfg, ts, a[0]);
      RunAppend(cfg, t, a[1..], b);
      var (t1, x) := Run(cfg, t, a[1..]);
      var (t2, y) := Run(cfg, t1, b);
      assert head + (x + y) == head + x + y;
    }
  }

  lemma RunSnoc(cfg: Config, ts: TxnState, a: seq<BinEvent>, e: BinEvent)
    ensures var (t1, x) := Run(cfg, ts, a);
            var (t2, y) := Handle(cfg, t1, e);
            Run(cfg, ts, a + [e]) == (t2, x + y)
  {
    hide Handle;
    RunAppend(cfg, ts, a, [e]);
    var t1 := Run(cfg, ts, a).0;
    assert Run(cfg, t1, [e]) == (Handle(cfg, t1, e).0, Handle(cfg, t1, e).1 + []);
    assert Handle(cfg, t1, e).1 + [] == Handle(cfg, t1, e).1;
  }

  /** The index arithmetic of the emit loop: `i + step-1 < len` steps through
      exactly len / step iterations. */
  lemma StrideArithmetic(op: Op, n: nat, k: nat)
    ensures Stride(op) * k + Stride(op) - 1 < n <==> k < n / Stride(op)
    ensures Stride(op) * k / Stride(op) == k
  {}

  /** txnState with its methods, as the code updates it. */
  class Reader {
    const cfg: Config
    var committedGtids: set<string>
    var committedFile: string
    var committedPos: nat
    var currentFile: string
    var tracked: Option<set<string>>
    var pendingGtid: string
    var seqNo: nat
    var txOrder: nat

    ghost function View(): TxnState
      reads this
    {
      TxnState(committedGtids, committedFile, committedPos, currentFile, tracked, pendingGtid, seqNo, txOrder)
    }

    constructor (cfg: Config, from: Position)
      ensures this.cfg == cfg && View() == Begin(cfg, from)
    {
      this.cfg := cfg;
      committedGtids := if cfg.gtid then from.gtids else {};
      committedFile := if cfg.gtid then "" else from.file;
      committedPos := if cfg.gtid then 0 else from.offset;
      currentFile := if cfg.gtid then "" else from.file;
      tracked := if cfg.gtid then Some(from.gtids) else None;
      pendingGtid, seqNo, txOrder := "", 0, 0;
    }

    method CommitTxn(pos: nat)
      modifies this
      ensures View() == Commit(cfg, old(View()), pos)
    {
      if tracked.Some? && pendingGtid != "" {
        if cfg.accepts(pendingGtid) {
          tracked := Some(tracked.value + {pendingGtid});
          committedGtids := tracked.value;
        }
        pendingGtid := "";
      }
      committedFile := currentFile;
      committedPos := pos;
    }

    method HandleEvent(e: BinEvent) returns (batch: seq<Event>)
      modifies this
      ensures (View(), batch) == Handle(cfg, old(View()), e)
    {
      batch := [];
      match e {
        case Rotate(next) => currentFile := next;
        case GtidEvent(gtid) => pendingGtid, txOrder := gtid, 0;
        case XidEvent(pos) => CommitTxn(pos);
        case QueryEvent(begin, pos) =>
          if !begin {
            CommitTxn(pos);
          }
        case RowsEvent(change, _, _, _) =>
          if OpFor(change.kind).Some? {
            batch := EmitRows(e, OpFor(change.kind).value);
          }
      }
    }

    method EmitRows(e: BinEvent, op: Op) returns (batch: seq<Event>)
      requires e.RowsEvent? && OpFor(e.change.kind) == Some(op)
      modifies this
      ensures (View(), batch) == Handle(cfg, old(View()), e)
    {
      hide Keys.KeyFromColumns, Dec, MakeEvent, Commit;
      var step, rows := Stride(op), e.change.images;
      batch := [];
      if !cfg.captures(NameOf(e.change.table)) {
        txOrder := txOrder + |rows| / step;
        return;
      }
      var i := 0;
      ghost var k := 0;
      ghost var start := View();
      StrideArithmetic(op, |rows|, 0);
      while i + step - 1 < |rows|
        invariant i == step * k && k <= ChangeCount(e.change)
        invariant i + step - 1 < |rows| <==> k < ChangeCount(e.change)
        invariant View() == start.(seqNo := start.seqNo + k, txOrder := start.txOrder + k)
        invariant batch == MakeEvents(cfg, start, e, k)
      {
        var ne := EmitOne(e, op, i, start, k);
        ghost var before := batch;
        batch := batch + [ne];
        i := i + step;
        k := k + 1;
        StrideArithmetic(op, |rows|, k);
        assert MakeEvents(cfg, start, e, k) == before + [ne];
      }
      assert k == ChangeCount(e.change);
    }

    /** One iteration of the emit loop. */
    method EmitOne(e: BinEvent, op: Op, i: nat, ghost start: TxnState, ghost k: nat) returns (ne: Event)
      requires e.RowsEvent? && OpFor(e.change.kind) == Some(op)
      requires k < ChangeCount(e.change) && i == Stride(op) * k
      requires View() == start.(seqNo := start.seqNo + k, txOrder := start.txOrder + k)
      modifies this
      ensures View() == start.(seqNo := start.seqNo + k + 1, txOrder := start.txOrder + k + 1)
      ensures ne == MakeEvent(cfg, start, e, k)
    {
      hide Keys.KeyFromColumns, Dec, Commit;
      var rows, name, step := e.change.images, NameOf(e.change.table), Stride(op);
      StrideArithmetic(op, |rows|, k);
      var before: Option<Row>, after: Option<Row> := None, None;
      if op.Insert? {
        after := Some(rows[i]);
      } else if op.Delete? {
        before := Some(rows[i]);
      } else {
        before := Some(rows[i]);
        after := Some(rows[i + 1]);
      }
      seqNo := seqNo + 1;
      txOrder := txOrder + 1;
      var id := if pendingGtid != "" then pendingGtid + "#" + Dec(txOrder)
                else currentFile + ":" + Dec(e.pos) + ":" + Dec(i / step);
      var image := if op.Delete? then before else after;
      ne := Event(id, op, before, after, e.change.ms,
                  SourceMeta("mysql", e.change.serverId, e.change.table.db, e.change.table.name,
                             pendingGtid, currentFile, e.pos, txOrder),
                  Keys.KeyFromColumns(name, image.value, cfg.pk(name)),
                  Position(committedGtids, committedFile, committedPos, seqNo),
                  RowRef(e.tid, e.ev, i / step));
    }

    /** Reads a whole stretch of the stream. */
    method ReadAll(es: seq<BinEvent>) returns (sent: seq<Event>)
      modifies this
      ensures (View(), sent) == Run(cfg, old(View()), es)
    {
      sent := [];
      for i := 0 to |es|
        invariant (View(), sent) == Run(cfg, old(View()), es[..i])
      {
        RunSnoc(cfg, old(View()), es[..i], es[i]);
        assert es[..i + 1] == es[..i] + [es[i]];
        var batch := HandleEvent(es[i]);
        sent := sent + batch;
      }
      assert es[..|es|] == es;
    }
  }
}
