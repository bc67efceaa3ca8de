/** Over whole histories: every run in one is a trace of steps, and from every
    history a further run can stop cleanly with any prefix of its stream
    delivered. */
module Reachability {
  import opened Events
  import opened Resume
  import opened Stamping
  import P = Pipeline
  import S = SinkContract
  import T = Tracking
  import opened W = World
  import opened Runs
  import opened Traces
  import opened Verdict
  import opened Completion
  import opened CleanStop
  import opened Drain
  import opened Unseeded

  // ---- Every run of a history is a trace ----

  /** The trace with one more step. */
  function Further(t: Trace, store: Position, step: P.Step, r: P.Run): Trace {
    Trace(t.states + [r], t.stores + [store], t.steps + [step])
  }

  lemma FurtherIsTrace(c: P.Config, stream: seq<Event>, loaded: Position, t: Trace, store: Position, step: P.Step, r: P.Run)
    requires P.ConfigOk(c) && IsTrace(c, stream, loaded, t)
    requires P.Enabled(c, t.states[|t.steps|], step) && r == P.Apply(c, t.states[|t.steps|], store, step).0
    ensures var u := Further(t, store, step, r); IsTrace(c, stream, loaded, u) && u.states[|u.steps|] == r
  {
    hide P.Enabled, P.Apply, P.Start;
    var u := Further(t, store, step, r);
    forall i | 0 <= i < |u.steps| ensures Moves(c, u, i) {
      if i < |t.steps| { assert Moves(c, t, i); }
    }
  }

  /** What the last step of a history did to run j. */
  lemma RunFollows(k: Const, w: World, step: Step, j: nat, t: Trace) returns (u: Trace)
    requires ConstOk(k) && W.Enabled(k, w, step) && j < |w.runs|
    requires IsTrace(k.shape, w.runs[j].run.stream, w.runs[j].base, t) && t.states[|t.steps|] == w.runs[j].run
    ensures var l := W.Apply(k, w, step).runs[j];
            IsTrace(k.shape, l.run.stream, l.base, u) && u.states[|u.steps|] == l.run
  {
    hide P.Start, IsTrace, RunStream, LogOk;
    var c, stream, loaded, r := k.shape, w.runs[j].run.stream, w.runs[j].base, w.runs[j].run;
    u := t;
    match step
    case StartRun(_, _) =>
    case Crash =>
    case RunStep(i, s) =>
      if i == j {
        var v := P.Apply(c, r, w.store, s).0;
        StreamStays(c, r, w.store, s);
        u := Further(t, w.store, s, v);
        FurtherIsTrace(c, stream, loaded, t, w.store, s, v);
      } else if s.Snk? && s.snk.Fault? && !w.runs[j].crashed {
        TraceIsShaped(c, stream, loaded, t);
        var v := P.Apply(c, r, w.store, s).0;
        u := Further(t, w.store, s, v);
        FurtherIsTrace(c, stream, loaded, t, w.store, s, v);
      }
  }

  lemma StreamStays(c: P.Config, r: P.Run, store: Position, step: P.Step)
    requires P.ConfigOk(c) && P.Enabled(c, r, step)
    ensures P.Apply(c, r, store, step).0.stream == r.stream
  {
    hide P.Route, S.Apply;
  }

  lemma StepIsShaped(c: P.Config, r: P.Run, store: Position, step: P.Step)
    requires P.ConfigOk(c) && P.Enabled(c, r, step)
    ensures P.Shaped(c, P.Apply(c, r, store, step).0)
  {
    hide P.SrcEnabled, P.SrcApply, P.DispEnabled, P.DispApply, P.PubEnabled, P.PubApply, P.SinkEnabled, P.SinkApply,
         P.ComEnabled, P.ComApply, P.MainEnabled, P.MainApply;
    match step
    case Src(s) => SrcIsShaped(c, r, s);
    case Disp(s) => DispIsShaped(c, r, s);
    case Pub(q, s) => PubIsShaped(c, r, q, s);
    case Snk(s) => SinkIsShaped(c, r, s);
    case Com(s) => ComSteers(c, r, store, s);
    case Ctl(s) => MainSteers(c, r, store, s);
  }

  lemma SrcIsShaped(c: P.Config, r: P.Run, step: P.SrcStep)
    requires P.ConfigOk(c) && P.Shaped(c, r) && P.SrcEnabled(c, r, step)
    ensures P.Shaped(c, P.SrcApply(r, step))
  {}

  lemma DispIsShaped(c: P.Config, r: P.Run, step: P.DispStep)
    requires P.ConfigOk(c) && P.Shaped(c, r) && P.DispEnabled(c, r, step)
    ensures P.Shaped(c, P.DispApply(c, r, step))
  {
    hide P.FlushSize, P.Slots, P.Route;
  }

  lemma PubIsShaped(c: P.Config, r: P.Run, q: nat, step: P.PubStep)
    requires P.ConfigOk(c) && P.Shaped(c, r) && P.PubEnabled(c, r, q, step)
    ensures P.Shaped(c, P.PubApply(c, r, q, step))
  {
    hide S.Apply, S.Enabled;
  }

  lemma SinkIsShaped(c: P.Config, r: P.Run, step: P.SinkStep)
    requires P.Shaped(c, r) && P.SinkEnabled(c, r, step)
    ensures P.Shaped(c, P.SinkApply(c, r, step))
  {
    hide S.Apply, S.Enabled, T.ReportBatch, T.SeqNos, P.Positions;
  }

  lemma TraceIsShaped(c: P.Config, stream: seq<Event>, loaded: Position, t: Trace)
    requires P.ConfigOk(c) && IsTrace(c, stream, loaded, t)
    ensures P.Shaped(c, t.states[|t.steps|])
  {
    hide P.Enabled, P.Apply;
    var n := |t.steps|;
    if n > 0 {
      assert Moves(c, t, n - 1);
      StepIsShaped(c, t.states[n - 1], t.stores[n - 1], t.steps[n - 1]);
    }
  }

  /** Every run of every history went from its start, with what the store held
      then, to where it is now by steps of the run machine: the failures of
      the sink that another run meets are steps of its own. */
  lemma {:induction false} HistoryHasTrace(k: Const, ws: seq<World>, j: nat) returns (t: Trace)
    requires ConstOk(k) && IsHistory(k, ws) && j < |ws[|ws| - 1].runs|
    ensures var l := ws[|ws| - 1].runs[j];
            IsTrace(k.shape, l.run.stream, l.base, t) && t.states[|t.steps|] == l.run
    decreases |ws|
  {
    hide IsTrace, P.Start, W.Enabled, W.Apply;
    var n := |ws| - 1;
    assert n > 0;
    assert Next(k, ws[n - 1], ws[n]);
    var step :| W.Enabled(k, ws[n - 1], step) && ws[n] == W.Apply(k, ws[n - 1], step);
    if j < |ws[n - 1].runs| {
      assert ws[..n][n - 1] == ws[n - 1];
      var u := HistoryHasTrace(k, ws[..n], j);
      t := RunFollows(k, ws[n - 1], step, j, u);
    } else {
      NewRun(k, ws[n - 1], step, j);
      var l := ws[n].runs[j];
      t := Trace([l.run], [], []);
      JustStarted(k.shape, l.run.stream, l.base);
    }
  }

  lemma JustStarted(c: P.Config, stream: seq<Event>, loaded: Position)
    requires P.ConfigOk(c)
    ensures IsTrace(c, stream, loaded, Trace([P.Start(c, stream, loaded)], [], []))
  {
    hide P.Start;
  }

  lemma NewRun(k: Const, w: World, step: Step, j: nat)
    requires ConstOk(k) && W.Enabled(k, w, step) && |w.runs| <= j < |W.Apply(k, w, step).runs|
    ensures var l := W.Apply(k, w, step).runs[j]; l.run == P.Start(k.shape, l.run.stream, l.base)
  {
    hide P.Enabled, P.Apply, RunStream, LogOk;
  }

  // ---- Traces lift to histories ----

  /** The history reaches a state whose last run is this one. */
  ghost predicate Stands(k: Const, w: World, count: nat, r: P.Run, log: Log, from: Position, base: Position)
    requires ConstOk(k)
  {
    Reaches(k, w) && |w.runs| == count > 0 && w.runs[count - 1] == Live(r, log, from, base, false)
  }

  lemma StoreIsNotRead(c: P.Config, r: P.Run, one: Position, other: Position, step: P.Step)
    requires P.ConfigOk(c) && P.Enabled(c, r, step)
    ensures P.Apply(c, r, one, step).0 == P.Apply(c, r, other, step).0
  {
    hide P.Route, S.Apply, P.DispApply, P.PubApply, P.SinkApply, P.DispEnabled, P.PubEnabled, P.SinkEnabled;
  }

  lemma StandsNext(k: Const, w: World, count: nat, r: P.Run, log: Log, from: Position, base: Position, t: P.Run)
      returns (v: World)
    requires ConstOk(k) && Stands(k, w, count, r, log, from, base) && Follows(k.shape, r, t)
    ensures Stands(k, v, count, t, log, from, base)
  {
    hide P.Enabled, P.Apply, Reaches;
    var store, step :| P.Enabled(k.shape, r, step) && t == P.Apply(k.shape, r, store, step).0;
    StoreIsNotRead(k.shape, r, store, w.store, step);
    ReachesNext(k, w, RunStep(count - 1, step));
    v := W.Apply(k, w, RunStep(count - 1, step));
  }

  lemma {:induction false} Lifts(k: Const, w: World, count: nat, r: P.Run, log: Log, from: Position, base: Position,
                                 rs: seq<P.Run>, t: P.Run) returns (v: World)
    requires ConstOk(k) && Stands(k, w, count, r, log, from, base) && Chain(k.shape, r, rs, t)
    ensures Stands(k, v, count, t, log, from, base)
    decreases |rs|
  {
    hide Stands, Follows;
    var n := |rs| - 1;
    if n == 0 {
      v := w;
    } else {
      var u := Lifts(k, w, count, r, log, from, base, rs[..n], rs[n - 1]);
      assert Follows(k.shape, rs[n - 1], rs[n]);
      v := StandsNext(k, u, count, rs[n - 1], log, from, base, t);
    }
  }

  // ---- A clean stop can always be reached ----

  /** The process is killed and started again. */
  lemma Restarts(k: Const, w: World, log: Log, written: nat) returns (v: World)
    requires ConstOk(k) && Reaches(k, w) && Serves(k, log) && written <= |log.items|
    requires StartOk(k.cfg, log, StartOf(k, w.store, log, written))
    ensures var from := StartOf(k, w.store, log, written);
            Stands(k, v, |w.runs| + 1, P.Start(k.shape, RunStream(k.cfg, k.txns, log, from), w.store), log, from, w.store)
  {
    hide Reaches, LogOk, RunStream, P.Start, KnownPosition;
    ReachesNext(k, w, Crash);
    var u := W.Apply(k, w, Crash);
    ReachesNext(k, u, StartRun(log, written));
    v := W.Apply(k, u, StartRun(log, written));
  }

  /** REACHABLE. From every history, crashed and restarted at any moment on any
      log that can serve it, the next run can stop cleanly with exactly the
      first n events of its stream sent, whatever n: none is out of reach, and
      what the clean-stop theorems say is said of runs that exist. */
  lemma CleanStopIsReachable(k: Const, w: World, log: Log, written: nat, n: nat) returns (v: World)
    requires ConstOk(k) && Reaches(k, w) && Serves(k, log) && written <= |log.items|
    requires StartOk(k.cfg, log, StartOf(k, w.store, log, written))
    requires n <= |RunStream(k.cfg, k.txns, log, StartOf(k, w.store, log, written))|
    ensures Reaches(k, v) && StoppedCleanly(v) && |v.runs| == |w.runs| + 1
    ensures var l := v.runs[|w.runs|];
            var from := StartOf(k, w.store, log, written);
            && l.log == log && l.from == from && l.run.stream == RunStream(k.cfg, k.txns, log, from)
            && l.run.sent == n
            && l.run.persisted == (if n == 0 then w.store else l.run.stream[n - 1].pos)
  {
    hide Reaches, LogOk, RunStream, P.Start, KnownPosition, Leads, StartOk, Served;
    var from := StartOf(k, w.store, log, written);
    var stream := RunStream(k.cfg, k.txns, log, from);
    StartIsNumbered(k, log, from);
    var u := Restarts(k, w, log, written);
    var t := CanStopCleanly(k.shape, stream, w.store, n);
    var r := P.Start(k.shape, stream, w.store);
    var rs := LeadsByChain(k.shape, r, t);
    v := Lifts(k, u, |w.runs| + 1, r, log, from, w.store, rs, t);
  }

  lemma LeadsByChain(c: P.Config, r: P.Run, t: P.Run) returns (rs: seq<P.Run>)
    requires P.ConfigOk(c) && Leads(c, r, t)
    ensures Chain(c, r, rs, t)
  {
    rs :| Chain(c, r, rs, t);
  }

  lemma StartIsNumbered(k: Const, log: Log, from: Position)
    requires ConstOk(k) && Serves(k, log) && StartOk(k.cfg, log, from)
    ensures RunOk(k.cfg, k.txns, log, from) && T.Numbered(RunStream(k.cfg, k.txns, log, from))
  {
    hide KnownPosition, LogOk, RunStream;
    StreamIsNumbered(k.cfg, k.txns, log, from);
  }
}
