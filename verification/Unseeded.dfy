/** Exactly when the no-gap promise holds. A position without coordinates
    means the current end of the log, and in GTID mode the events of the first
    transaction carry the start's set and no file: with an empty set that is
    such a position, even if the seed named a file. */
module Unseeded {
  import opened Prelude
  import opened Events
  import opened Source
  import opened Binlog
  import opened Resume
  import opened Stamping
  import P = Pipeline
  import S = SinkContract
  import T = Tracking
  import opened W = World

  /** The promise of NoGaps, for one row and one place to restart. */
  ghost predicate NoGapAt(k: Const, w: World, log: Log, written: nat, row: RowRef) {
    Serves(k, log) && written <= |log.items|
    && Covers(k.cfg, k.txns, log, StartOf(k, w.store, log, written), row.tid) ==>
      row in w.acked || Covers(k.cfg, k.txns, log, k.seed, row.tid)
  }

  ghost predicate Reaches(k: Const, w: World)
    requires ConstOk(k)
  {
    exists ws :: IsHistory(k, ws) && ws[|ws| - 1] == w
  }

  ghost predicate Gapless(k: Const)
    requires ConstOk(k)
  {
    forall w, log, written: nat, row :: Reaches(k, w) && IsCapturedRow(k, row) ==> NoGapAt(k, w, log, written, row)
  }

  // ---- The first stamp ----

  /** Rotations emit nothing and commit nothing. */
  lemma {:induction false} RotationsCommitNothing(cfg: Config, txns: seq<Txn>, from: Position, items: seq<Item>, n: nat)
    requires ItemsOk(txns, items) && n <= |items| && forall i :: 0 <= i < n ==> items[i].Rot?
    ensures var (ts, es) := After(cfg, txns, from, items, n);
            es == [] && ts == Begin(cfg, from).(currentFile := ts.currentFile)
  {
    hide Run, Render, AsExpected;
    if n > 0 {
      RotationsCommitNothing(cfg, txns, from, items, n - 1);
      ItemEmits(cfg, txns, After(cfg, txns, from, items, n - 1).0, items[n - 1]);
    }
  }

  /** From an empty set the first event of a log that opens with a captured
      transaction carries the zero position. */
  lemma FirstEvents(k: Const, log: Log, m: nat, from: Position)
    requires ConstOk(k) && Serves(k, log) && k.cfg.gtid && from.gtids == {}
    requires FirstTx(log, m) && CapturedRows(k.cfg, k.txns, log.items[m].tid) != []
    ensures var s := RunStream(k.cfg, k.txns, log, from);
            s != [] && s[0].pos == Position({}, "", 0, 1) && s[0].row.tid == log.items[m].tid
  {
    hide Run, Render, CapturedRows;
    var items := Served(k.cfg, k.txns, log, from);
    ServedOnce(k.cfg, k.txns, log, from);
    NothingExecuted(k.txns, log.items);
    assert items == [Rot(log.file)] + log.items && items[m + 1] == log.items[m];
    RotationsCommitNothing(k.cfg, k.txns, from, items, m + 1);
    RowBecomesEvent(k.cfg, k.txns, from, items, m + 1, 0);
    FirstStamp(k.cfg, k.txns, from, items, m + 1);
  }

  lemma FirstStamp(cfg: Config, txns: seq<Txn>, from: Position, items: seq<Item>, n: nat)
    requires cfg.gtid && from.gtids == {} && ItemsOk(txns, items) && n < |items|
    requires ComesFrom(cfg, txns, from, items, 0, n)
    requires var ts := After(cfg, txns, from, items, n).0; ts == Begin(cfg, from).(currentFile := ts.currentFile)
    ensures Stream(cfg, txns, from, items)[0].pos == Position({}, "", 0, 1)
    ensures Stream(cfg, txns, from, items)[0].row.tid == items[n].tid
  {
    hide Run, Render, CapturedRows, After;
  }

  // ---- A run that saves after its first event ----

  lemma ReachesNext(k: Const, w: World, step: Step)
    requires ConstOk(k) && Reaches(k, w) && W.Enabled(k, w, step)
    ensures Reaches(k, W.Apply(k, w, step))
  {
    hide W.Enabled, W.Apply;
    var ws :| IsHistory(k, ws) && ws[|ws| - 1] == w;
    var v := W.Apply(k, w, step);
    var us := ws + [v];
    forall i | 0 <= i < |us| - 1 ensures Next(k, us[i], us[i + 1]) {
      if i < |ws| - 1 { assert Next(k, ws[i], ws[i + 1]); }
    }
    assert us[|us| - 1] == v && IsHistory(k, us);
  }

  /** The history so far is one run, at state r, with at most its first row
      acknowledged. */
  ghost predicate At(k: Const, log: Log, from: Position, r: P.Run, store: Position)
    requires ConstOk(k)
  {
    && r.stream != []
    && exists w :: Reaches(k, w) && w.runs == [Live(r, log, from, k.seed, false)] && w.store == store && w.acked <= {r.stream[0].row}
  }

  lemma RunMoves(k: Const, log: Log, from: Position, r: P.Run, store: Position, step: P.Step, t: P.Run, after: Position)
    requires ConstOk(k) && At(k, log, from, r, store) && P.Enabled(k.shape, r, step)
    requires P.Apply(k.shape, r, store, step) == (t, after) && t.stream == r.stream && t.acked <= {1}
    ensures At(k, log, from, t, after)
  {
    hide P.Enabled, P.Apply, Reaches;
    var w :| Reaches(k, w) && w.runs == [Live(r, log, from, k.seed, false)] && w.store == store && w.acked <= {r.stream[0].row};
    ReachesNext(k, w, RunStep(0, step));
    var v := W.Apply(k, w, RunStep(0, step));
    assert v.runs == [Live(t, log, from, k.seed, false)];
  }

  /** The run after its source sent one event. */
  function Begun(c: P.Config, s: seq<Event>, store: Position): P.Run { P.Start(c, s, store).(sent := 1) }

  function Holding(c: P.Config, s: seq<Event>, store: Position, q: nat, queue: seq<seq<Event>>, staged: seq<Event>): P.Run
    requires q < c.queues
  {
    var r := Begun(c, s, store);
    r.(disp := r.disp.(queues := r.disp.queues[q := queue], staging := r.disp.staging[q := staged]))
  }

  function Publishing(c: P.Config, s: seq<Event>, store: Position, q: nat, p: P.Publisher): P.Run
    requires q < c.queues
  {
    var r := Begun(c, s, store);
    r.(pubs := r.pubs[q := p])
  }

  lemma Received(k: Const, log: Log, from: Position, s: seq<Event>, store: Position)
    requires ConstOk(k) && s != [] && At(k, log, from, P.Start(k.shape, s, store), store)
    ensures var r := Begun(k.shape, s, store); At(k, log, from, r.(disp := r.disp.(cur := [s[0]])), store)
  {
    hide At, P.Route, ConstOk;
    var c, e := k.shape, s[0];
    ShapeOk(k);
    var r0 := P.Start(c, s, store);
    var r1 := Begun(c, s, store).(out := [[e]]);
    var r2 := Begun(c, s, store).(disp := r0.disp.(cur := [e]));
    assert s[0..0 + 1] == [e];
    assert [] + [s[0..0 + 1]] == [[e]] && [[e]][1..] == [];
    RunMoves(k, log, from, r0, store, P.Src(P.Send(1)), r1, store);
    RunMoves(k, log, from, r1, store, P.Disp(P.Receive), r2, store);
  }

  lemma ShapeOk(k: Const)
    requires ConstOk(k)
    ensures P.ConfigOk(k.shape)
  {}

  lemma Dispatched(k: Const, log: Log, from: Position, s: seq<Event>, store: Position, q: nat)
    requires ConstOk(k) && s != [] && At(k, log, from, P.Start(k.shape, s, store), store) && q == P.Route(k.shape, s[0])
    ensures At(k, log, from, Holding(k.shape, s, store, q, [[s[0]]], []), store)
  {
    hide At, P.Route, ConstOk;
    var c, e := k.shape, s[0];
    ShapeOk(k);
    var r0 := P.Start(c, s, store);
    var d := r0.disp;
    var r2 := Begun(c, s, store).(disp := d.(cur := [e]));
    var r3 := Holding(c, s, store, q, [], [e]);
    var r4 := Holding(c, s, store, q, [[e]], []);
    Received(k, log, from, s, store);
    assert d.queues[q := []] == d.queues && d.staging[q] == [] && [] + [e] == [e] && [e][1..] == [];
    RunMoves(k, log, from, r2, store, P.Disp(P.Stage), r3, store);
    assert [] + [[e]] == [[e]] && d.staging[q := [e]][q := []] == d.staging[q := []];
    assert d.queues[q := []][q := [[e]]] == d.queues[q := [[e]]];
    RunMoves(k, log, from, r3, store, P.Disp(P.Flush(q)), r4, store);
  }

  lemma Drained(k: Const, log: Log, from: Position, s: seq<Event>, store: Position, q: nat)
    requires ConstOk(k) && s != [] && q < k.shape.queues && At(k, log, from, Holding(k.shape, s, store, q, [[s[0]]], []), store)
    ensures At(k, log, from, Publishing(k.shape, s, store, q, P.Publisher([s[0]], P.Acquiring(true))), store)
  {
    hide At, P.Route;
    var c, e := k.shape, s[0];
    var r4 := Holding(c, s, store, q, [[e]], []);
    var r5 := Publishing(c, s, store, q, P.Publisher([e], P.Draining));
    var r6 := Publishing(c, s, store, q, P.Publisher([e], P.Checking(true)));
    var r7 := Publishing(c, s, store, q, P.Publisher([e], P.Acquiring(true)));
    var d := P.Start(c, s, store).disp;
    assert d.queues[q := [[e]]][q := []] == d.queues && d.staging[q := []] == d.staging;
    assert [] + [e] == [e] && [[e]][1..] == [];
    var pubs := P.Start(c, s, store).pubs;
    RunMoves(k, log, from, r4, store, P.Pub(q, P.Take), r5, store);
    assert pubs[q := r5.pubs[q]][q := r6.pubs[q]] == pubs[q := r6.pubs[q]];
    RunMoves(k, log, from, r5, store, P.Pub(q, P.Drained), r6, store);
    assert pubs[q := r6.pubs[q]][q := r7.pubs[q]] == pubs[q := r7.pubs[q]];
    RunMoves(k, log, from, r6, store, P.Pub(q, P.Check), r7, store);
  }

  /** The run with its first event in one batch of the sink. */
  function Submitted(c: P.Config, s: seq<Event>, store: Position, q: nat, b: S.Batch<Event>): P.Run
    requires q < c.queues
  {
    Publishing(c, s, store, q, P.Publisher([], P.Producing(0, true))).(sink := S.Sink([b], None, 0))
  }

  lemma Submits(k: Const, log: Log, from: Position, s: seq<Event>, store: Position, q: nat)
    requires ConstOk(k) && s != [] && q < k.shape.queues
    requires At(k, log, from, Publishing(k.shape, s, store, q, P.Publisher([s[0]], P.Acquiring(true))), store)
    ensures At(k, log, from, Submitted(k.shape, s, store, q, S.Batch([s[0]], 1, {}, {}, true, false, false, 0)).(submitted := [s[0]]), store)
  {
    hide At, P.Route;
    var c, e := k.shape, s[0];
    var r7 := Publishing(c, s, store, q, P.Publisher([e], P.Acquiring(true)));
    var r8 := Submitted(c, s, store, q, S.Batch([e], 0, {}, {}, true, false, false, 0));
    var r9 := Submitted(c, s, store, q, S.Batch([e], 1, {}, {}, true, false, false, 0)).(submitted := [e]);
    var pubs := P.Start(c, s, store).pubs;
    assert pubs[q := r7.pubs[q]][q := r8.pubs[q]] == pubs[q := r8.pubs[q]];
    assert [] + [r8.sink.batches[0]] == r8.sink.batches;
    RunMoves(k, log, from, r7, store, P.Pub(q, P.Acquire), r8, store);
    assert r8.sink.batches[0 := r9.sink.batches[0]] == r9.sink.batches && [] + [e] == [e];
    RunMoves(k, log, from, r8, store, P.Pub(q, P.Produce), r9, store);
  }

  /** The run with its first event acknowledged; `done` has run or not. */
  function Acknowledged(c: P.Config, s: seq<Event>, store: Position, q: nat, slot: bool): P.Run
    requires q < c.queues && s != []
  {
    Submitted(c, s, store, q, S.Batch([s[0]], 1, {0}, {}, slot, false, false, 0))
      .(submitted := [s[0]], written := [s[0]], acked := {s[0].pos.seqNo})
  }

  lemma Writes(k: Const, log: Log, from: Position, r: P.Run, store: Position)
    requires ConstOk(k) && At(k, log, from, r, store) && P.Shaped(k.shape, r) && |r.submitted| == 1 && r.written == [] && r.acked <= {1}
    ensures At(k, log, from, r.(written := r.submitted), store)
  {
    hide At, P.Route, ConstOk;
    ShapeOk(k);
    assert [] + [r.submitted[0]] == r.submitted;
    RunMoves(k, log, from, r, store, P.Snk(P.Write(0)), r.(written := r.submitted), store);
  }

  lemma Acknowledges(k: Const, log: Log, from: Position, s: seq<Event>, store: Position, q: nat)
    requires ConstOk(k) && s != [] && q < k.shape.queues && s[0].pos.seqNo == 1
    requires At(k, log, from, Submitted(k.shape, s, store, q, S.Batch([s[0]], 1, {}, {}, true, false, false, 0)).(submitted := [s[0]]), store)
    ensures At(k, log, from, Acknowledged(k.shape, s, store, q, false), store)
  {
    hide At, P.Route, ConstOk;
    var c, e := k.shape, s[0];
    ShapeOk(k);
    var r9 := Submitted(c, s, store, q, S.Batch([e], 1, {}, {}, true, false, false, 0)).(submitted := [e]);
    var r10 := r9.(written := [e]);
    var r11 := Acknowledged(c, s, store, q, true);
    var r12 := Acknowledged(c, s, store, q, false);
    Writes(k, log, from, r9, store);
    assert {} + {0} == {0} && {} + {e.pos.seqNo} == {e.pos.seqNo};
    assert r10.sink.batches[0 := r11.sink.batches[0]] == r11.sink.batches;
    RunMoves(k, log, from, r10, store, P.Snk(P.Resolve(0, 0, true)), r11, store);
    assert r11.sink.batches[0 := r12.sink.batches[0]] == r12.sink.batches;
    RunMoves(k, log, from, r11, store, P.Snk(P.Release(0)), r12, store);
  }

  lemma SavesFirst(k: Const, log: Log, from: Position, s: seq<Event>, store: Position, q: nat) returns (r: P.Run)
    requires ConstOk(k) && s != [] && q < k.shape.queues && s[0].pos.seqNo == 1
    requires At(k, log, from, Acknowledged(k.shape, s, store, q, false), store)
    ensures At(k, log, from, r, s[0].pos) && r.stream == s
  {
    hide At, P.Route;
    var c, e := k.shape, s[0];
    var r12 := Acknowledged(c, s, store, q, false);
    assert P.Positions([e]) == [e.pos];
    FirstReport(e.pos);
    var r13 := P.Apply(c, r12, store, P.Snk(P.RunDone(0))).0;
    RunMoves(k, log, from, r12, store, P.Snk(P.RunDone(0)), r13, store);
    var r14 := P.Apply(c, r13, store, P.Com(P.SaveBegins)).0;
    RunMoves(k, log, from, r13, store, P.Com(P.SaveBegins), r14, store);
    r := P.Apply(c, r14, store, P.Com(P.SaveTakesEffect)).0;
    RunMoves(k, log, from, r14, store, P.Com(P.SaveTakesEffect), r, e.pos);
  }

  lemma FirstReport(p: Position)
    requires p.seqNo == 1
    ensures var t := T.ReportBatch(T.INITIAL, [p]); t.dirty && t.has && t.ckpt == p
  {
    var m: map<nat, Position> := map[1 := p];
    assert [p][1..] == [];
    assert T.Record(map[], [p]) == T.Record(m, []) == m;
    assert m - {1} == map[];
    assert T.Advance(T.INITIAL.(pending := m)) == T.Advance(T.State(2, map[], p, true, true));
  }

  // ---- The exact condition ----

  /** The current end of a log covers what is written in it. */
  lemma EndCovers(k: Const, store: Position, log: Log, i: nat)
    requires ConstOk(k) && Serves(k, log) && i < |log.items| && log.items[i].Tx?
    requires if k.cfg.gtid then IsZero(store) else store.file == ""
    ensures Covers(k.cfg, k.txns, log, StartOf(k, store, log, i + 1), log.items[i].tid)
  {
    var p := EndOf(k.txns, log, i + 1);
    assert log.items[..i + 1][i] == log.items[i];
    assert IsIn(log.items[..i + 1], log.items[i].tid);
    if !k.cfg.gtid { assert AtBoundary(log, i + 1, p.file, p.offset); }
  }

  lemma StartReaches(k: Const)
    requires ConstOk(k)
    ensures Reaches(k, Init(k))
  {
    assert IsHistory(k, [Init(k)]) && [Init(k)][|[Init(k)]| - 1] == Init(k);
  }

  /** A reachable store without coordinates, and a row that was not acknowledged. */
  lemma GapFrom(k: Const, w: World, log: Log, row: RowRef)
    requires ConstOk(k) && Reaches(k, w) && Serves(k, log) && IsCapturedRow(k, row) && IsIn(log.items, row.tid)
    requires row !in w.acked && !Covers(k.cfg, k.txns, log, k.seed, row.tid)
    requires if k.cfg.gtid then IsZero(w.store) else w.store.file == ""
    ensures !Gapless(k)
  {
    hide Reaches, CapturedRows, Covers, StartOf, LogOk;
    var i :| 0 <= i < |log.items| && log.items[i].Tx? && log.items[i].tid == row.tid;
    EndCovers(k, w.store, log, i);
    assert !NoGapAt(k, w, log, i + 1, row);
  }

  /** A seed without coordinates loses every row there is, with no run at all. */
  lemma NamelessSeedHasGap(k: Const, row: RowRef)
    requires ConstOk(k) && Servable(k, row) && if k.cfg.gtid then IsZero(k.seed) else k.seed.file == ""
    ensures !Gapless(k)
  {
    hide CapturedRows, LogOk;
    var log :| Serves(k, log) && IsIn(log.items, row.tid);
    StartReaches(k);
    if !k.cfg.gtid { FileEndPasses(k, k.seed, log, k.seed, row.tid); }
    GapFrom(k, Init(k), log, row);
  }

  lemma RunStarts(k: Const, log: Log)
    requires ConstOk(k) && Serves(k, log) && k.cfg.gtid && !IsZero(k.seed)
    requires RunStream(k.cfg, k.txns, log, k.seed) != []
    ensures At(k, log, k.seed, P.Start(k.shape, RunStream(k.cfg, k.txns, log, k.seed), k.seed), k.seed)
  {
    hide RunStream;
    var w := Init(k);
    StartReaches(k);
    ReachesNext(k, w, StartRun(log, 0));
    var v := W.Apply(k, w, StartRun(log, 0));
    assert v.runs == [Live(P.Start(k.shape, RunStream(k.cfg, k.txns, log, k.seed), k.seed), log, k.seed, k.seed, false)];
  }

  /** With an empty set, one event sent, acknowledged and saved is enough: a
      restart at that moment skips every other row. */
  lemma EmptySetHasGap(k: Const, log: Log, m: nat, a: RowRef, b: RowRef)
    requires ConstOk(k) && k.cfg.gtid && k.seed.gtids == {} && !IsZero(k.seed) && OpensTwo(k, log, m, a, b)
    ensures !Gapless(k)
  {
    hide RunStream, CapturedRows, P.Start, At, LogOk;
    var from := k.seed;
    var s := RunStream(k.cfg, k.txns, log, from);
    NotEmpty(k, a);
    FirstEvents(k, log, m, from);
    var q := P.Route(k.shape, s[0]);
    RunStarts(k, log);
    Dispatched(k, log, from, s, k.seed, q);
    Drained(k, log, from, s, k.seed, q);
    Submits(k, log, from, s, k.seed, q);
    Acknowledges(k, log, from, s, k.seed, q);
    var r := SavesFirst(k, log, from, s, k.seed, q);
    var lost := if s[0].row == b then a else b;
    assert IsIn(log.items, lost.tid);
    GapAfter(k, log, from, r, lost);
  }

  lemma NotEmpty(k: Const, a: RowRef)
    requires IsCapturedRow(k, a)
    ensures CapturedRows(k.cfg, k.txns, a.tid) != []
  {}

  lemma GapAfter(k: Const, log: Log, from: Position, r: P.Run, lost: RowRef)
    requires ConstOk(k) && k.cfg.gtid && k.seed.gtids == {} && Serves(k, log)
    requires IsCapturedRow(k, lost) && IsIn(log.items, lost.tid)
    requires At(k, log, from, r, Position({}, "", 0, 1)) && r.stream[0].row != lost
    ensures !Gapless(k)
  {
    hide Reaches, CapturedRows, LogOk;
    var zero := Position({}, "", 0, 1);
    var w :| Reaches(k, w) && w.runs == [Live(r, log, from, k.seed, false)] && w.store == zero && w.acked <= {r.stream[0].row};
    GapFrom(k, w, log, lost);
  }

  /** THE EXACT CONDITION, in both modes: no history has a gap if and only if
      the seed names a place, or there is nothing to lose. In GTID mode an
      empty set that is not the zero position is enough exactly when no served
      log opens with a captured transaction and has a second captured row. */
  lemma PromiseIsExact(k: Const)
    requires ConstOk(k)
    ensures Gapless(k) <==> Promised(k)
  {
    hide CapturedRows, Covers, Serves, StartOf, Reaches, IsCapturedRow, Servable, OpensTwo, Gapless;
    if Promised(k) {
      PromisedIsGapless(k);
    } else if k.cfg.gtid && !IsZero(k.seed) {
      var log, m, a, b :| OpensTwo(k, log, m, a, b);
      EmptySetHasGap(k, log, m, a, b);
    } else {
      var row :| Servable(k, row);
      NamelessSeedHasGap(k, row);
    }
  }

  lemma PromisedIsGapless(k: Const)
    requires ConstOk(k) && Promised(k)
    ensures Gapless(k)
  {
    hide CapturedRows, Covers, Serves, StartOf, Promised;
    forall w, log, written: nat, row | Reaches(k, w) && IsCapturedRow(k, row) ensures NoGapAt(k, w, log, written, row) {
      var ws :| IsHistory(k, ws) && ws[|ws| - 1] == w;
      PromisedHasNone(k, ws, log, written, row);
    }
  }

  lemma PromisedHasNone(k: Const, ws: seq<World>, log: Log, written: nat, row: RowRef)
    requires ConstOk(k) && Promised(k) && IsHistory(k, ws) && IsCapturedRow(k, row)
    ensures NoGapAt(k, ws[|ws| - 1], log, written, row)
  {
    hide Covers, CapturedRows, Promised;
    if Serves(k, log) && written <= |log.items| { NoGaps(k, ws, log, written, row); }
  }

  // ---- One concrete hyperloop ----

  /** One transaction that inserts two rows, and a seed at the start of the log
      with an empty set. */
  const INSERTS: seq<Txn> := [Txn("u:1", true, [Change(Table("shop", "item"), WriteRows, [map[], map[]], 1, 0)], true)]

  const BINLOG: Log := Log("binlog.1", 4, [Tx(0, [100], 200)])

  function Example(): Const {
    Const(Config(true, _ => true, _ => [], _ => true), P.WithDefaults(0, 0, 0, 0, map[], (_, _) => 0), INSERTS,
          Some(BINLOG), Position({}, "binlog.1", 4, 0))
  }

  /** It has a history that loses a row. */
  lemma ExampleHasGap()
    ensures ConstOk(Example()) && !IsZero(Example().seed) && !Gapless(Example())
  {
    hide Gapless;
    var k := Example();
    ExampleIsOk();
    assert Captured(k.cfg, k.txns, 0, 0) == [];
    assert CapturedRows(k.cfg, k.txns, 0) == [] + ChangeRows(0, 0, 2);
    var a, b := RowRef(0, 0, 0), RowRef(0, 0, 1);
    assert ChangeRows(0, 0, 2)[0] == a && ChangeRows(0, 0, 2)[1] == b;
    assert IsCapturedRow(k, a) && IsCapturedRow(k, b);
    assert BINLOG.items[0].Tx? && IsIn(BINLOG.items, 0);
    assert OpensTwo(k, BINLOG, 0, a, b);
    EmptySetHasGap(k, BINLOG, 0, a, b);
  }

  lemma ExampleIsOk()
    ensures ConstOk(Example()) && Serves(Example(), BINLOG)
  {
    assert FileAt(BINLOG, 0) == "binlog.1" && FileAt(BINLOG, 1) == "binlog.1";
    forall n: nat, file, offset | AtBoundary(BINLOG, n, file, offset)
      ensures offset == (if n == 0 then 4 else 200) && n <= 1 {}
  }
}
