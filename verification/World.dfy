/** Whole histories of a hyperloop: any number of runs, failed saves, hard
    cancels, abandoned shutdowns, crashes and restarts on one state store. */
module World {
  import opened Prelude
  import opened Events
  import opened Source
  import opened Binlog
  import opened Resume
  import opened Stamping
  import P = Pipeline
  import S = SinkContract
  import opened Flow
  import opened Safety

  /** What does not change: configuration, the transactions that exist, the
      position the store was seeded with. `fixed` is the one log all runs read;
      in GTID mode it may be None: then every run may be served by a server
      with its own transaction order and coordinates. */
  datatype Const = Const(cfg: Config, shape: P.Config, txns: seq<Txn>, fixed: Option<Log>, seed: Position)

  /** A run with the log it reads, the position it resumed from and what the
      store held then. Of a crashed run only produce requests in transit are
      left. */
  datatype Live = Live(run: P.Run, log: Log, from: Position, base: Position, crashed: bool)

  /** `acked` are the rows some run's sink acknowledged, `topic` the Kafka log
      in write order. Runs other than the last are crashed, abandoned or
      finished: the goroutines of the latter two may still be alive. */
  datatype World = World(store: Position, acked: set<RowRef>, topic: seq<Event>, runs: seq<Live>)

  datatype Step = StartRun(log: Log, written: nat) | RunStep(j: nat, step: P.Step) | Crash

  ghost predicate ConstOk(k: Const) {
    && P.ConfigOk(k.shape) && TxnsOk(k.cfg, k.txns)
    && (k.fixed.Some? ==> LogOk(k.txns, k.fixed.value))
    && (!k.cfg.gtid ==> k.fixed.Some?)
  }

  ghost predicate Serves(k: Const, log: Log) {
    LogOk(k.txns, log) && (k.fixed.Some? ==> log == k.fixed.value)
  }

  /** The position a run that starts now resumes from, `written` items of the
      log being written. */
  ghost function StartOf(k: Const, store: Position, log: Log, written: nat): Position
    requires LogOk(k.txns, log) && written <= |log.items|
  {
    ResolveStart(k.cfg, store, EndOf(k.txns, log, written))
  }

  ghost function Init(k: Const): World { World(k.seed, {}, [], []) }

  predicate IsWrite(s: P.Step) { s.Snk? && s.snk.Write? }

  ghost predicate Enabled(k: Const, w: World, step: Step)
    requires ConstOk(k)
  {
    match step
    case StartRun(log, written) =>
      && Serves(k, log) && written <= |log.items|
      && (w.runs == [] || w.runs[|w.runs| - 1].crashed || w.runs[|w.runs| - 1].run.ctl.main.Returned?)
      && StartOk(k.cfg, log, StartOf(k, w.store, log, written))
    case RunStep(j, s) =>
      j < |w.runs| && P.Enabled(k.shape, w.runs[j].run, s) && (w.runs[j].crashed ==> IsWrite(s))
    case Crash => true
  }

  ghost function AckedRows(r: P.Run): set<RowRef> {
    set n | n in r.acked && 1 <= n <= |r.stream| :: r.stream[n - 1].row
  }

  /** What another run of the same process notices of a step: the sink is one
      object, so an asynchronous failure is sticky for all of them. */
  ghost function Echo(l: Live, s: P.Step): Live {
    if s.Snk? && s.snk.Fault? && !l.crashed
    then l.(run := l.run.(sink := S.Apply(l.run.sink, S.SetErr(s.snk.e)))) else l
  }

  ghost function EchoAll(runs: seq<Live>, s: P.Step): seq<Live> {
    seq(|runs|, i requires 0 <= i < |runs| => Echo(runs[i], s))
  }

  ghost function Crashed(runs: seq<Live>): seq<Live> {
    seq(|runs|, i requires 0 <= i < |runs| => runs[i].(crashed := true))
  }

  ghost function Apply(k: Const, w: World, step: Step): World
    requires ConstOk(k) && Enabled(k, w, step)
  {
    match step
    case StartRun(log, written) =>
      var from := StartOf(k, w.store, log, written);
      w.(runs := w.runs + [Live(P.Start(k.shape, RunStream(k.cfg, k.txns, log, from), w.store), log, from, w.store, false)])
    case RunStep(j, s) =>
      var r := w.runs[j].run;
      var (t, store) := P.Apply(k.shape, r, w.store, s);
      World(store, w.acked + AckedRows(t),
            w.topic + NewlyWritten(r, s),
            EchoAll(w.runs, s)[j := w.runs[j].(run := t)])
    case Crash => w.(runs := Crashed(w.runs))
  }

  // ---- Places ----

  /** A position that names a place: in GTID mode a non-empty executed set, in
      file mode a position of the log. */
  ghost predicate Seeded(k: Const, p: Position) {
    if k.cfg.gtid then p.gtids != {} else k.fixed.Some? && KnownPosition(k.fixed.value, p) && p.file != ""
  }

  ghost predicate IsCapturedRow(k: Const, row: RowRef) {
    row.tid < |k.txns| && row in CapturedRows(k.cfg, k.txns, row.tid)
  }

  /** A captured row that some server can serve. */
  ghost predicate Servable(k: Const, row: RowRef) {
    IsCapturedRow(k, row) && exists log :: Serves(k, log) && IsIn(log.items, row.tid)
  }

  /** A served log whose first transaction has a captured row, and which has
      another one. */
  ghost predicate OpensTwo(k: Const, log: Log, m: nat, a: RowRef, b: RowRef) {
    && Serves(k, log) && a != b && IsCapturedRow(k, a) && IsCapturedRow(k, b)
    && FirstTx(log, m) && log.items[m].tid == a.tid && IsIn(log.items, b.tid)
  }

  ghost predicate Exposed(k: Const) { exists log, m, a, b :: OpensTwo(k, log, m, a, b) }

  /** A position that a run resumes from and whose stamps lose nothing. */
  ghost predicate Resumable(k: Const, p: Position) {
    Seeded(k, p) || (k.cfg.gtid && !IsZero(p) && !Exposed(k))
  }

  /** When the seed gives the promise of no gaps: exactly then, as
      `Unseeded.PromiseIsExact` shows. */
  ghost predicate Promised(k: Const) {
    if k.cfg.gtid then
      k.seed.gtids != {} || (if IsZero(k.seed) then forall row :: !Servable(k, row) else !Exposed(k))
    else k.seed.file != "" || forall row :: !Servable(k, row)
  }

  /** The seed is one that runs can resume from, or there is nothing to lose. */
  ghost predicate Startable(k: Const) {
    Promised(k) && (!k.cfg.gtid && k.seed.file != "" ==> Seeded(k, k.seed))
  }

  // ---- Invariant ----

  /** Resuming from p does not replay transaction tid. */
  ghost predicate Passed(k: Const, p: Position, tid: nat) {
    if k.cfg.gtid then tid < |k.txns| && k.txns[tid].gtid in p.gtids
    else k.fixed.Some? && Covers(k.cfg, k.txns, k.fixed.value, p, tid)
  }

  lemma PassedIsCovered(k: Const, log: Log, p: Position, tid: nat)
    requires ConstOk(k) && Serves(k, log)
    ensures Passed(k, p, tid) <==> Covers(k.cfg, k.txns, log, p, tid)
  {}

  /** Every captured row p has passed was acknowledged, or lies before the seed. */
  ghost predicate Safe(k: Const, w: World, p: Position) {
    forall row :: IsCapturedRow(k, row) && Passed(k, p, row.tid) ==> row in w.acked || Passed(k, k.seed, row.tid)
  }

  /** There is nothing left to lose. */
  ghost predicate AllAcked(k: Const, w: World) { forall row :: Servable(k, row) ==> row in w.acked }

  ghost predicate Anchored(k: Const, w: World, p: Position) { Resumable(k, p) || AllAcked(k, w) }

  /** p is not behind q. */
  ghost predicate AtLeast(k: Const, p: Position, q: Position) {
    forall tid: nat :: tid < |k.txns| && Passed(k, q, tid) ==> Passed(k, p, tid)
  }

  ghost predicate RunSound(k: Const, l: Live)
    requires ConstOk(k)
  {
    && Serves(k, l.log) && RunOk(k.cfg, k.txns, l.log, l.from)
    && l.run.stream == RunStream(k.cfg, k.txns, l.log, l.from)
    && Flowing(k.shape, l.run) && Acks(k.shape, l.run)
  }

  ghost predicate LiveOk(k: Const, w: World, l: Live)
    requires ConstOk(k)
  {
    && RunSound(k, l) && Anchored(k, w, l.from)
    && Safe(k, w, l.from) && AtLeast(k, l.from, k.seed) && AtLeast(k, l.from, l.base)
    && AckedRows(l.run) <= w.acked
    && (forall e :: e in l.run.written ==> e in w.topic)
  }

  ghost predicate Over(l: Live) { l.crashed || Retired(l.run) }

  ghost predicate Valid(k: Const, w: World)
    requires ConstOk(k)
  {
    && Anchored(k, w, w.store) && Safe(k, w, w.store) && AtLeast(k, w.store, k.seed)
    && (forall j :: 0 <= j < |w.runs| ==> LiveOk(k, w, w.runs[j]))
    && (forall j :: 0 <= j < |w.runs| - 1 ==> Over(w.runs[j]))
    && (w.runs != [] ==>
          var l := w.runs[|w.runs| - 1];
          Saves(l.run, l.base, w.store) && Settled(l.run, w.store))
    && (forall row :: row in w.acked ==> exists e :: e in w.topic && e.row == row)
  }

  // ---- Stamps of a run ----

  /** A stamp of a run passes what the start passes. */
  lemma StampPasses(k: Const, l: Live, x: nat, tid: nat)
    requires ConstOk(k) && RunSound(k, l) && x < |l.run.stream| && tid < |k.txns| && Passed(k, l.from, tid)
    ensures Passed(k, l.run.stream[x].pos, tid)
  {
    hide Flowing, Acks, Covers, RunStream;
    PassedIsCovered(k, l.log, l.from, tid);
    PassedIsCovered(k, l.log, l.run.stream[x].pos, tid);
    StampsMonotone(k.cfg, k.txns, l.log, l.from, x, x, tid);
  }

  /** A row the stamp passes and the start does not was acknowledged, once the
      checkpoint has reached the stamp. */
  lemma PassedWasAcked(k: Const, l: Live, x: nat, row: RowRef)
    requires ConstOk(k) && RunSound(k, l) && x < |l.run.stream| && x + 1 < l.run.tracker.next
    requires IsCapturedRow(k, row) && Passed(k, l.run.stream[x].pos, row.tid) && !Passed(k, l.from, row.tid)
    ensures row in AckedRows(l.run)
  {
    hide Flowing, Covers, RunStream;
    PassedIsCovered(k, l.log, l.from, row.tid);
    PassedIsCovered(k, l.log, l.run.stream[x].pos, row.tid);
    var y := CoveredWasSent(k.cfg, k.txns, l.log, l.from, x, row);
    CheckpointIsAcked(k.shape, l.run, y + 1);
  }

  /** Any two transactions make a log, when the log is not fixed. */
  lemma TwoMakeALog(k: Const, t: nat, u: nat) returns (log: Log)
    requires ConstOk(k) && k.fixed.None? && t < |k.txns| && u < |k.txns| && t != u
    ensures Serves(k, log) && FirstTx(log, 0) && log.items[0].tid == t && IsIn(log.items, u)
  {
    var a, b := Tx(t, seq(|k.txns[t].body|, _ => 0), 10), Tx(u, seq(|k.txns[u].body|, _ => 0), 20);
    log := Log("binlog", 4, [a, b]);
    assert log.items[1].Tx? && log.items[1].tid == u;
    assert FileAt(log, 0) == "binlog" && FileAt(log, 1) == "binlog" && FileAt(log, 2) == "binlog";
    forall n: nat, file, offset | AtBoundary(log, n, file, offset)
      ensures offset == (if n == 0 then 4 else if n == 1 then 10 else 20) && n <= 2 {}
  }

  /** A zero stamp that was reached is of the last row there was to lose. */
  lemma ZeroStampAcksAll(k: Const, w: World, l: Live, x: nat)
    requires ConstOk(k) && k.cfg.gtid && RunSound(k, l) && AckedRows(l.run) <= w.acked && !Exposed(k)
    requires x < |l.run.stream| && x + 1 < l.run.tracker.next && IsZero(l.run.stream[x].pos)
    ensures AllAcked(k, w)
  {
    hide Flowing, RunStream, CapturedRows, LogOk;
    var m := ZeroStampIsFirst(k.cfg, k.txns, l.log, l.from, x);
    var a := l.run.stream[x].row;
    CheckpointIsAcked(k.shape, l.run, x + 1);
    assert a in AckedRows(l.run);
    StreamRowIsCaptured(k, l, x);
    forall b | Servable(k, b) ensures b in w.acked {
      if b !in w.acked { SecondRowExposes(k, l.log, m, a, b); }
    }
  }

  lemma StreamRowIsCaptured(k: Const, l: Live, x: nat)
    requires ConstOk(k) && RunSound(k, l) && x < |l.run.stream|
    ensures IsCapturedRow(k, l.run.stream[x].row)
  {
    hide Flowing, Acks, Run, After, Covers, Expected, CapturedRows;
    var items := Served(k.cfg, k.txns, l.log, l.from);
    ServedOnce(k.cfg, k.txns, l.log, l.from);
    var m := Origin(k.cfg, k.txns, l.from, items, x);
    var y := x - |After(k.cfg, k.txns, l.from, items, m).1|;
    RowBecomesEvent(k.cfg, k.txns, l.from, items, m, y);
  }

  lemma SecondRowExposes(k: Const, log: Log, m: nat, a: RowRef, b: RowRef)
    requires ConstOk(k) && Serves(k, log) && FirstTx(log, m) && log.items[m].tid == a.tid
    requires IsCapturedRow(k, a) && Servable(k, b) && a != b
    ensures Exposed(k)
  {
    hide CapturedRows, LogOk;
    if k.fixed.Some? || b.tid == a.tid {
      assert OpensTwo(k, log, m, a, b);
    } else {
      var two := TwoMakeALog(k, a.tid, b.tid);
      assert OpensTwo(k, two, 0, a, b);
    }
  }

  lemma StampIsAnchored(k: Const, w: World, l: Live, n: nat)
    requires ConstOk(k) && LiveOk(k, w, l) && 1 <= n < l.run.tracker.next && n <= |l.run.stream|
    ensures Anchored(k, w, l.run.stream[n - 1].pos)
  {
    hide Flowing, Acks, Passed, RunStream, Exposed, AllAcked, Safe;
    StampIsAPlace(k.cfg, k.txns, l.log, l.from, n - 1);
    if k.cfg.gtid && IsZero(l.run.stream[n - 1].pos) && !AllAcked(k, w) {
      ZeroStampAcksAll(k, w, l, n - 1);
    }
  }

  /** A checkpoint that was reached can be resumed from, passes only
      acknowledged rows, and is not behind the start. */
  lemma StampIsSafe(k: Const, w: World, l: Live, n: nat)
    requires ConstOk(k) && LiveOk(k, w, l) && 1 <= n < l.run.tracker.next && n <= |l.run.stream|
    ensures Anchored(k, w, l.run.stream[n - 1].pos) && Safe(k, w, l.run.stream[n - 1].pos)
    ensures AtLeast(k, l.run.stream[n - 1].pos, l.from) && AtLeast(k, l.run.stream[n - 1].pos, k.seed)
  {
    hide Flowing, Acks, Passed, RunStream, IsCapturedRow, Covers, Anchored;
    var p := l.run.stream[n - 1].pos;
    forall tid: nat | tid < |k.txns| && Passed(k, l.from, tid) ensures Passed(k, p, tid) {
      StampPasses(k, l, n - 1, tid);
    }
    forall row | IsCapturedRow(k, row) && Passed(k, p, row.tid) ensures row in w.acked || Passed(k, k.seed, row.tid) {
      if !Passed(k, l.from, row.tid) { PassedWasAcked(k, l, n - 1, row); }
    }
    StampIsAnchored(k, w, l, n);
  }

  // ---- Steps ----

  /** More acknowledgements and writes keep what a run relies on. */
  lemma LiveGrows(k: Const, w: World, v: World, l: Live)
    requires ConstOk(k) && LiveOk(k, w, l) && w.acked <= v.acked && w.topic <= v.topic
    ensures LiveOk(k, v, l)
  {
    hide RunSound, Passed, IsCapturedRow, Resumable, Servable;
    assert forall e :: e in w.topic ==> e in v.topic;
  }

  lemma SafeGrows(k: Const, w: World, v: World, p: Position)
    requires Safe(k, w, p) && Anchored(k, w, p) && w.acked <= v.acked
    ensures Safe(k, v, p) && Anchored(k, v, p)
  {
    hide Resumable, Servable, Passed, IsCapturedRow;
  }

  lemma SeededResolves(k: Const, store: Position, log: Log, written: nat)
    requires ConstOk(k) && Resumable(k, store) && LogOk(k.txns, log) && written <= |log.items|
    ensures StartOf(k, store, log, written) == store
  {
    hide Exposed, KnownPosition;
  }

  /** A store without coordinates passes nothing; a start at the end of the
      log passes only what is in it. */
  lemma EndPasses(k: Const, store: Position, log: Log, written: nat, tid: nat)
    requires ConstOk(k) && Serves(k, log) && written <= |log.items| && tid < |k.txns|
    requires StartOf(k, store, log, written) != store
    ensures !Passed(k, store, tid)
    ensures Passed(k, StartOf(k, store, log, written), tid) ==> IsIn(log.items, tid)
  {
    var from := StartOf(k, store, log, written);
    if k.cfg.gtid {
      if Passed(k, from, tid) {
        var t :| 0 <= t < |k.txns| && IsIn(log.items[..written], t) && k.txns[t].gtid == k.txns[tid].gtid;
        assert t == tid;
        IsInPrefix(log.items, written, |log.items|, tid);
        assert log.items[..|log.items|] == log.items;
      }
    } else {
      FileEndPasses(k, store, log, from, tid);
    }
  }

  lemma FileEndPasses(k: Const, store: Position, log: Log, from: Position, tid: nat)
    requires ConstOk(k) && Serves(k, log) && !k.cfg.gtid && store.file == ""
    ensures !Passed(k, store, tid) && (Passed(k, from, tid) ==> IsIn(log.items, tid))
  {
    if Passed(k, from, tid) {
      var b: nat :| AtBoundary(log, b, from.file, from.offset) && IsIn(log.items[..b], tid);
      IsInPrefix(log.items, b, |log.items|, tid);
      assert log.items[..|log.items|] == log.items;
    }
    forall b: nat ensures !AtBoundary(log, b, store.file, store.offset) { NamelessIsNoBoundary(k.txns, log, b, store); }
  }

  lemma NamelessIsNoBoundary(txns: seq<Txn>, log: Log, b: nat, p: Position)
    requires LogOk(txns, log) && p.file == ""
    ensures !AtBoundary(log, b, p.file, p.offset)
  {
    if b <= |log.items| { assert FileAt(log, if b > 0 then b - 1 else 0) != ""; }
  }

  /** Where a new run starts is as good as what the store holds. */
  lemma StartIsSafeToUse(k: Const, w: World, log: Log, written: nat)
    requires ConstOk(k) && Valid(k, w) && Serves(k, log) && written <= |log.items|
    ensures var from := StartOf(k, w.store, log, written);
            Anchored(k, w, from) && Safe(k, w, from) && AtLeast(k, from, w.store) && AtLeast(k, from, k.seed)
  {
    hide Resumable, Passed, CapturedRows, LogOk, StartOf, LiveOk, Saves, Settled;
    var from := StartOf(k, w.store, log, written);
    if from != w.store {
      if Resumable(k, w.store) { SeededResolves(k, w.store, log, written); }
      forall tid: nat | tid < |k.txns| ensures !Passed(k, w.store, tid) { EndPasses(k, w.store, log, written, tid); }
      forall row | IsCapturedRow(k, row) && Passed(k, from, row.tid) ensures row in w.acked {
        EndPasses(k, w.store, log, written, row.tid);
        assert Servable(k, row);
      }
    }
  }

  lemma StartIsSound(k: Const, log: Log, from: Position, store: Position)
    requires ConstOk(k) && Serves(k, log) && RunOk(k.cfg, k.txns, log, from)
    ensures var l := Live(P.Start(k.shape, RunStream(k.cfg, k.txns, log, from), store), log, from, store, false);
            && RunSound(k, l) && AckedRows(l.run) == {} && l.run.written == []
            && Saves(l.run, store, store) && Settled(l.run, store)
  {
    hide RunStream, Flowing, Acks;
    StreamIsNumbered(k.cfg, k.txns, log, from);
    StartFlows(k.shape, RunStream(k.cfg, k.txns, log, from), store);
    StartIsSafe(k.shape, RunStream(k.cfg, k.txns, log, from), store);
  }

  lemma StartKeepsValid(k: Const, w: World, log: Log, written: nat)
    requires ConstOk(k) && Valid(k, w) && Enabled(k, w, StartRun(log, written))
    ensures Valid(k, Apply(k, w, StartRun(log, written)))
  {
    hide RunSound, Passed, IsCapturedRow, Covers, RunStream, P.Start, Resumable, Servable, AtLeast, Safe, LogOk, StartOf;
    var v := Apply(k, w, StartRun(log, written));
    var from := StartOf(k, w.store, log, written);
    StartIsSafeToUse(k, w, log, written);
    StartIsSound(k, log, from, w.store);
    SafeGrows(k, w, v, w.store);
    SafeGrows(k, w, v, from);
    LastIsOver(k, w);
    forall j | 0 <= j < |v.runs| ensures LiveOk(k, v, v.runs[j]) {
      if j < |w.runs| { LiveGrows(k, w, v, w.runs[j]); }
    }
  }

  lemma LastIsOver(k: Const, w: World)
    requires ConstOk(k) && Valid(k, w)
    ensures w.runs != [] && w.runs[|w.runs| - 1].run.ctl.main.Returned? ==> Over(w.runs[|w.runs| - 1])
  {
    hide LiveOk, Anchored, Safe, AtLeast;
  }

  /** What any step of a run gives the world, before looking at the store. */
  lemma RunStepIsSound(k: Const, w: World, j: nat, s: P.Step)
    requires ConstOk(k) && Valid(k, w) && Enabled(k, w, RunStep(j, s))
    ensures var v := Apply(k, w, RunStep(j, s));
            LiveOk(k, v, v.runs[j]) && w.acked <= v.acked && w.topic <= v.topic
  {
    hide RunStream, Passed, IsCapturedRow, Covers, P.Enabled, P.Apply, Flowing, Acks, Over, Saves, Settled, Echo, Resumable, Servable;
    var v, l := Apply(k, w, RunStep(j, s)), w.runs[j];
    assert LiveOk(k, w, l);
    StepGrows(k.shape, l.run, w.store, s);
    StepKeepsFlow(k.shape, l.run, w.store, s);
    StepKeepsAcks(k.shape, l.run, w.store, s);
    assert RunSound(k, v.runs[j]);
    assert forall e :: e in v.runs[j].run.written ==> e in l.run.written || e in NewlyWritten(l.run, s);
  }

  /** An echo is a fault step of the run that hears it. */
  lemma EchoIsFault(k: Const, l: Live, store: Position, s: P.Step)
    requires ConstOk(k) && RunSound(k, l) && s.Snk? && s.snk.Fault? && !l.crashed
    ensures P.Enabled(k.shape, l.run, s) && P.Apply(k.shape, l.run, store, s) == (Echo(l, s).run, store)
  {
    hide Acks, RunStream, FlowAt, SubmitAt, ProducerAt;
  }

  lemma EchoIsSound(k: Const, w: World, l: Live, s: P.Step)
    requires ConstOk(k) && LiveOk(k, w, l)
    ensures LiveOk(k, w, Echo(l, s)) && Echo(l, s) == l.(run := Echo(l, s).run)
    ensures Over(l) ==> Over(Echo(l, s))
  {
    hide RunStream, Passed, IsCapturedRow, Covers, P.Enabled, P.Apply, Flowing, Acks, Resumable, Servable;
    if s.Snk? && s.snk.Fault? && !l.crashed {
      EchoIsFault(k, l, w.store, s);
      StepKeepsFlow(k.shape, l.run, w.store, s);
      StepKeepsAcks(k.shape, l.run, w.store, s);
    }
  }

  /** An echo leaves everything but the sticky error alone. */
  ghost predicate OnlyFaulted(l: Live, s: P.Step, m: Live) {
    var r, t := l.run, m.run;
    && m == l.(run := t) && t == r.(sink := r.sink.(err := t.sink.err))
    && t.sink.err == (if s.Snk? && s.snk.Fault? && r.sink.err.None? && !l.crashed then Some(s.snk.e) else r.sink.err)
  }

  lemma EchoOnlyFaults(l: Live, s: P.Step)
    ensures OnlyFaulted(l, s, Echo(l, s))
  {}

  /** New acknowledgements are of written rows. */
  lemma AckedIsWritten(k: Const, w: World, j: nat, s: P.Step)
    requires ConstOk(k) && Valid(k, w) && Enabled(k, w, RunStep(j, s))
    requires LiveOk(k, Apply(k, w, RunStep(j, s)), Apply(k, w, RunStep(j, s)).runs[j])
    requires w.topic <= Apply(k, w, RunStep(j, s)).topic
    ensures var v := Apply(k, w, RunStep(j, s)); forall row :: row in v.acked ==> exists e :: e in v.topic && e.row == row
  {
    hide RunStream, Passed, IsCapturedRow, Covers, P.Enabled, P.Apply, Flowing, Over, Saves, Settled, Echo, Anchored;
    var v := Apply(k, w, RunStep(j, s));
    var t := v.runs[j].run;
    forall row | row in v.acked ensures exists e :: e in v.topic && e.row == row {
      if row in w.acked {
        var e :| e in w.topic && e.row == row;
        assert e in v.topic;
      } else {
        var n :| n in t.acked && 1 <= n <= |t.stream| && t.stream[n - 1].row == row;
        assert t.stream[n - 1] in t.written;
      }
    }
  }

  lemma LiveGives(k: Const, w: World, l: Live)
    requires ConstOk(k) && LiveOk(k, w, l)
    ensures RunSound(k, l) && Flowing(k.shape, l.run) && Acks(k.shape, l.run)
  {}

  /** What the last run's saves are after a step of it. */
  lemma SavesAfter(k: Const, w: World, j: nat, s: P.Step)
    requires ConstOk(k) && Valid(k, w) && j == |w.runs| - 1 && Enabled(k, w, RunStep(j, s))
    ensures var v := Apply(k, w, RunStep(j, s));
            var l := v.runs[j];
            && Saves(l.run, l.base, v.store) && Settled(l.run, v.store) && l == w.runs[j].(run := l.run)
            && w.runs[j].run.floor <= l.run.floor && l.run.stream == w.runs[j].run.stream
  {
    hide RunStream, RunSound, P.Enabled, P.Apply, Flowing, Acks, Settled, Over, LiveOk, Saves, Safe, AtLeast, Anchored, Echo;
    var l := w.runs[j];
    LiveGives(k, w, l);
    StepKeepsSaves(k.shape, l.run, l.base, w.store, s);
  }

  /** What the store holds then. */
  lemma SavedIsSafe(k: Const, w: World, v: World)
    requires ConstOk(k) && Valid(k, w) && w.runs != [] && |v.runs| == |w.runs| && w.acked <= v.acked
    requires var l, was := v.runs[|w.runs| - 1], w.runs[|w.runs| - 1];
             && LiveOk(k, v, l) && Saves(l.run, l.base, v.store) && l == was.(run := l.run)
             && was.run.floor <= l.run.floor && l.run.stream == was.run.stream
    ensures Anchored(k, v, v.store) && Safe(k, v, v.store) && AtLeast(k, v.store, k.seed)
    ensures AtLeast(k, v.store, w.store)
    ensures w.runs[|w.runs| - 1].run.floor > 0 ==> v.store.seqNo >= w.store.seqNo
  {
    hide RunStream, Passed, IsCapturedRow, Anchored, Safe, RunSound, Settled, Over;
    var l := v.runs[|w.runs| - 1];
    var a, b := w.runs[|w.runs| - 1].run.floor, l.run.floor;
    if b == 0 {
      SafeGrows(k, w, v, w.store);
    } else {
      StampIsSafe(k, v, l, b);
      if a > 0 { StampsAscend(k, l, a - 1, b - 1); }
    }
  }

  lemma StampsAscend(k: Const, l: Live, x: nat, y: nat)
    requires ConstOk(k) && RunSound(k, l) && x <= y < |l.run.stream|
    ensures AtLeast(k, l.run.stream[y].pos, l.run.stream[x].pos)
    ensures l.run.stream[x].pos.seqNo == x + 1 && l.run.stream[y].pos.seqNo == y + 1
  {
    hide Flowing, Covers, RunStream;
    forall tid: nat | tid < |k.txns| && Passed(k, l.run.stream[x].pos, tid) ensures Passed(k, l.run.stream[y].pos, tid) {
      PassedIsCovered(k, l.log, l.run.stream[x].pos, tid);
      PassedIsCovered(k, l.log, l.run.stream[y].pos, tid);
      StampsMonotone(k.cfg, k.txns, l.log, l.from, x, y, tid);
    }
  }

  /** A run that is over leaves the store alone and stays over. */
  lemma OverStays(k: Const, l: Live, store: Position, s: P.Step)
    requires ConstOk(k) && Over(l) && P.Enabled(k.shape, l.run, s) && (l.crashed ==> IsWrite(s))
    ensures P.Apply(k.shape, l.run, store, s).1 == store && Over(l.(run := P.Apply(k.shape, l.run, store, s).0))
  {
    hide Retired;
    if !l.crashed { RetiredStays(k.shape, l.run, store, s); }
  }

  lemma OthersKeepValid(k: Const, w: World, j: nat, s: P.Step, i: nat)
    requires ConstOk(k) && Valid(k, w) && Enabled(k, w, RunStep(j, s)) && i < |w.runs| && i != j
    requires var v := Apply(k, w, RunStep(j, s)); w.acked <= v.acked && w.topic <= v.topic
    ensures var v := Apply(k, w, RunStep(j, s));
            && LiveOk(k, v, v.runs[i]) && v.runs[i] == Echo(w.runs[i], s)
            && (Over(w.runs[i]) ==> Over(v.runs[i]))
  {
    hide RunStream, P.Enabled, P.Apply, LiveOk, Saves, Settled, Safe, AtLeast, Anchored, Echo, Over, AckedRows;
    var v := Apply(k, w, RunStep(j, s));
    EchoIsSound(k, w, w.runs[i], s);
    LiveGrows(k, w, v, Echo(w.runs[i], s));
  }

  /** The last run's saves when another run makes the step. */
  lemma OtherSaves(l: Live, store: Position, s: P.Step)
    requires Saves(l.run, l.base, store) && Settled(l.run, store)
    ensures Saves(Echo(l, s).run, Echo(l, s).base, store) && Settled(Echo(l, s).run, store)
  {}

  lemma RunStepKeepsValid(k: Const, w: World, j: nat, s: P.Step)
    requires ConstOk(k) && Valid(k, w) && Enabled(k, w, RunStep(j, s))
    ensures Valid(k, Apply(k, w, RunStep(j, s)))
  {
    hide RunStream, RunSound, P.Enabled, P.Apply, Flowing, Acks, LiveOk, Saves, Settled, Over, AckedRows, Safe, AtLeast, Anchored, Echo;
    var v := Apply(k, w, RunStep(j, s));
    RunStepIsSound(k, w, j, s);
    AckedIsWritten(k, w, j, s);
    forall i | 0 <= i < |v.runs| ensures LiveOk(k, v, v.runs[i]) && (i < |v.runs| - 1 ==> Over(v.runs[i])) {
      if i != j { OthersKeepValid(k, w, j, s, i); } else if j < |w.runs| - 1 { OverStays(k, w.runs[j], w.store, s); }
    }
    if j < |w.runs| - 1 {
      OverStays(k, w.runs[j], w.store, s);
      OtherSaves(w.runs[|w.runs| - 1], w.store, s);
      SafeGrows(k, w, v, w.store);
    } else {
      SavesAfter(k, w, j, s);
      SavedIsSafe(k, w, v);
    }
  }

  lemma CrashKeepsValid(k: Const, w: World)
    requires ConstOk(k) && Valid(k, w)
    ensures Valid(k, Apply(k, w, Crash))
  {
    hide RunSound, Passed, IsCapturedRow, Saves, Settled, Resumable, Servable, Safe, AtLeast;
    var v := Apply(k, w, Crash);
    forall j | 0 <= j < |v.runs| ensures LiveOk(k, v, v.runs[j]) {
      assert LiveOk(k, w, w.runs[j]);
      CrashedIsSound(k, w.runs[j]);
      SafeGrows(k, w, v, w.runs[j].from);
    }
    SafeGrows(k, w, v, w.store);
  }

  lemma CrashedIsSound(k: Const, l: Live)
    requires ConstOk(k) && RunSound(k, l)
    ensures RunSound(k, l.(crashed := true))
  {}

  lemma StepKeepsValid(k: Const, w: World, step: Step)
    requires ConstOk(k) && Valid(k, w) && Enabled(k, w, step)
    ensures Valid(k, Apply(k, w, step))
  {
    hide Valid, P.Enabled, P.Apply, P.Start, Enabled, Apply;
    match step
    case StartRun(log, written) => StartKeepsValid(k, w, log, written);
    case RunStep(j, s) => RunStepKeepsValid(k, w, j, s);
    case Crash => CrashKeepsValid(k, w);
  }

  // ---- Histories ----

  ghost predicate Next(k: Const, w: World, v: World)
    requires ConstOk(k)
  {
    exists step :: Enabled(k, w, step) && v == Apply(k, w, step)
  }

  ghost predicate IsHistory(k: Const, ws: seq<World>)
    requires ConstOk(k)
  {
    && ws != [] && ws[0] == Init(k)
    && forall i :: 0 <= i < |ws| - 1 ==> Next(k, ws[i], ws[i + 1])
  }

  lemma {:induction false} HistoryIsValid(k: Const, ws: seq<World>)
    requires ConstOk(k) && Startable(k) && IsHistory(k, ws)
    ensures Valid(k, ws[|ws| - 1])
    decreases |ws|
  {
    hide Valid, Enabled, Apply, Startable;
    var n := |ws| - 1;
    if n == 0 {
      InitIsValid(k);
    } else {
      HistoryIsValid(k, ws[..n]);
      assert Next(k, ws[n - 1], ws[n]);
      var step :| Enabled(k, ws[n - 1], step) && ws[n] == Apply(k, ws[n - 1], step);
      StepKeepsValid(k, ws[n - 1], step);
    }
  }

  lemma InitIsValid(k: Const)
    requires ConstOk(k) && Startable(k)
    ensures Valid(k, Init(k))
  {
    hide Exposed, Servable, IsCapturedRow, Passed;
  }

  /** A seed that cannot be resumed from, in file mode, starts no run. */
  lemma {:induction false} LostSeedStaysPut(k: Const, ws: seq<World>)
    requires ConstOk(k) && !k.cfg.gtid && k.seed.file != "" && !Seeded(k, k.seed) && IsHistory(k, ws)
    ensures ws[|ws| - 1].store == k.seed && ws[|ws| - 1].runs == [] && ws[|ws| - 1].topic == []
    decreases |ws|
  {
    hide P.Enabled, P.Apply, P.Start, RunStream, LogOk;
    var n := |ws| - 1;
    if n > 0 {
      LostSeedStaysPut(k, ws[..n]);
      assert ws[..n][n - 1] == ws[n - 1];
      assert Next(k, ws[n - 1], ws[n]);
    }
  }

  /** NO GAPS. After any history of runs, failed saves, abandoned shutdowns,
      crashes and restarts: a captured row of any log a server may serve, that
      a run starting now would not replay, has been acknowledged, or lies
      before the seeded start. In GTID mode this is a statement about sets: the
      order of transactions may differ from run to run. Kafka may append
      records in any order and lose any of them. */
  lemma NoGaps(k: Const, ws: seq<World>, log: Log, written: nat, row: RowRef)
    requires ConstOk(k) && Promised(k) && IsHistory(k, ws)
    requires Serves(k, log) && written <= |log.items|
    requires row.tid < |k.txns| && row in CapturedRows(k.cfg, k.txns, row.tid)
    ensures var w := ws[|ws| - 1];
            Covers(k.cfg, k.txns, log, StartOf(k, w.store, log, written), row.tid) ==>
              row in w.acked || Covers(k.cfg, k.txns, log, k.seed, row.tid)
  {
    hide Enabled, Apply, Promised, Seeded, Covers, Valid, StartOf, LogOk, CapturedRows;
    var w := ws[|ws| - 1];
    if Startable(k) {
      HistoryIsValid(k, ws);
      StartIsSafeToUse(k, w, log, written);
      PassedIsCovered(k, log, StartOf(k, w.store, log, written), row.tid);
      PassedIsCovered(k, log, k.seed, row.tid);
    } else {
      LostSeedStaysPut(k, ws);
      FileResolves(k, log, written);
    }
  }

  lemma FileResolves(k: Const, log: Log, written: nat)
    requires LogOk(k.txns, log) && written <= |log.items| && !k.cfg.gtid && k.seed.file != ""
    ensures StartOf(k, k.seed, log, written) == k.seed
  {}

  /** The store's resume boundary never moves back, and within a run the saved
      SeqNo never decreases. */
  lemma StoreMovesForward(k: Const, w: World, step: Step)
    requires ConstOk(k) && Valid(k, w) && Enabled(k, w, step)
    ensures AtLeast(k, Apply(k, w, step).store, w.store)
    ensures step.RunStep? && Apply(k, w, step).store != w.store ==> Apply(k, w, step).store.seqNo >= w.store.seqNo
                                                                     || w.runs[step.j].run.floor == 0
  {
    hide RunSound, Passed, IsCapturedRow, LiveOk, P.Enabled, P.Apply, P.Start, Settled, Saves, Over, Anchored, Safe, Echo, StartOf;
    if step.RunStep? {
      if step.j < |w.runs| - 1 {
        OverStays(k, w.runs[step.j], w.store, step.step);
      } else {
        RunStepIsSound(k, w, step.j, step.step);
        SavesAfter(k, w, step.j, step.step);
        SavedIsSafe(k, w, Apply(k, w, step));
      }
    }
  }

  /** Whatever the goroutines of an abandoned run or the requests of a crashed
      one still do, the store stays as it is, and so does every other run, its
      tracker, checkpoint and saves included, except that an asynchronous
      failure becomes sticky in the sink they share. */
  lemma AbandonedRunsAreHarmless(k: Const, w: World, j: nat, s: P.Step)
    requires ConstOk(k) && Valid(k, w) && j < |w.runs| - 1 && Enabled(k, w, RunStep(j, s))
    ensures var v := Apply(k, w, RunStep(j, s));
            && v.store == w.store && |v.runs| == |w.runs|
            && forall i :: 0 <= i < |w.runs| && i != j ==> OnlyFaulted(w.runs[i], s, v.runs[i])
  {
    hide LiveOk, P.Enabled, P.Apply, P.Start, Settled, Saves, Over, Anchored, Safe, AtLeast, Echo, OnlyFaulted;
    OverStays(k, w.runs[j], w.store, s);
    var v := Apply(k, w, RunStep(j, s));
    forall i | 0 <= i < |w.runs| && i != j ensures OnlyFaulted(w.runs[i], s, v.runs[i]) { EchoOnlyFaults(w.runs[i], s); }
  }

  /** With no save in progress, a clean dirty flag means the checkpoint is
      persisted: it was the last successful save and the store holds it. */
  lemma CleanMeansSaved(k: Const, w: World)
    requires ConstOk(k) && Valid(k, w) && w.runs != []
    requires var r := w.runs[|w.runs| - 1].run;
             && r.com.saving.None? && r.tracker.has && !r.tracker.dirty
             && !r.ctl.main.FinalSaving? && !r.ctl.main.Returned?
    ensures var r := w.runs[|w.runs| - 1].run; r.persisted == r.tracker.ckpt == w.store
  {
    hide LiveOk, Saves, Anchored, Safe, AtLeast;
  }

  // ---- The same, over histories ----

  lemma PrefixIsValid(k: Const, ws: seq<World>, i: nat)
    requires ConstOk(k) && Startable(k) && IsHistory(k, ws) && i < |ws|
    ensures Valid(k, ws[i])
  {
    hide Valid, Enabled, Apply, Startable;
    var front := ws[..i + 1];
    forall x | 0 <= x < |front| - 1 ensures Next(k, front[x], front[x + 1]) { assert Next(k, ws[x], ws[x + 1]); }
    HistoryIsValid(k, front);
  }

  lemma AtLeastTransitive(k: Const, p: Position, q: Position, r: Position)
    requires AtLeast(k, p, q) && AtLeast(k, q, r)
    ensures AtLeast(k, p, r)
  {}

  lemma LostSeedPrefix(k: Const, ws: seq<World>, i: nat)
    requires ConstOk(k) && Promised(k) && !Startable(k) && IsHistory(k, ws) && i < |ws|
    ensures ws[i].store == k.seed && ws[i].runs == []
  {
    hide Enabled, Apply, Promised, Seeded;
    var front := ws[..i + 1];
    forall x | 0 <= x < |front| - 1 ensures Next(k, front[x], front[x + 1]) { assert Next(k, ws[x], ws[x + 1]); }
    LostSeedStaysPut(k, front);
  }

  /** Whatever resuming from the store would skip at one moment of a history,
      it would skip at every later one. */
  lemma {:induction false} StoreNeverMovesBack(k: Const, ws: seq<World>, i: nat, j: nat)
    requires ConstOk(k) && Promised(k) && IsHistory(k, ws) && i <= j < |ws|
    ensures AtLeast(k, ws[j].store, ws[i].store)
    decreases j - i
  {
    hide Valid, Enabled, Apply, Startable, Promised, Passed;
    if !Startable(k) {
      LostSeedPrefix(k, ws, i);
      LostSeedPrefix(k, ws, j);
    } else if i < j {
      StoreNeverMovesBack(k, ws, i, j - 1);
      PrefixIsValid(k, ws, j - 1);
      assert Next(k, ws[j - 1], ws[j]);
      var step :| Enabled(k, ws[j - 1], step) && ws[j] == Apply(k, ws[j - 1], step);
      StoreMovesForward(k, ws[j - 1], step);
      AtLeastTransitive(k, ws[j].store, ws[j - 1].store, ws[i].store);
    }
  }

  /** Whenever, in a history, no save is in progress and the tracker is clean,
      the checkpoint is what the store holds. */
  lemma CleanIsSavedThroughout(k: Const, ws: seq<World>, i: nat)
    requires ConstOk(k) && Promised(k) && IsHistory(k, ws) && i < |ws| && ws[i].runs != []
    ensures var r := ws[i].runs[|ws[i].runs| - 1].run;
            r.com.saving.None? && r.tracker.has && !r.tracker.dirty && !r.ctl.main.FinalSaving? && !r.ctl.main.Returned?
            ==> r.persisted == r.tracker.ckpt == ws[i].store
  {
    hide Valid, Enabled, Apply, Startable, Promised;
    StartedIsStartable(k, ws, i);
    PrefixIsValid(k, ws, i);
    var r := ws[i].runs[|ws[i].runs| - 1].run;
    if r.com.saving.None? && r.tracker.has && !r.tracker.dirty && !r.ctl.main.FinalSaving? && !r.ctl.main.Returned? {
      CleanMeansSaved(k, ws[i]);
    }
  }

  lemma StartedIsStartable(k: Const, ws: seq<World>, i: nat)
    requires ConstOk(k) && Promised(k) && IsHistory(k, ws) && i < |ws| && ws[i].runs != []
    ensures Startable(k)
  {
    hide Enabled, Apply, Promised, Startable;
    if !Startable(k) { LostSeedPrefix(k, ws, i); }
  }
}
