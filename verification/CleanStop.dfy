/** What a clean stop leaves for the next run. */
module CleanStop {
  import opened Events
  import opened Source
  import opened Resume
  import opened Stamping
  import P = Pipeline
  import Flow
  import opened Bound
  import opened Safety
  import opened Drain
  import opened Runs
  import opened W = World

  lemma EchoIsKept(k: Const, l: Live, s: P.Step)
    requires ConstOk(k) && Kept(k.shape, l.run)
    ensures Kept(k.shape, Echo(l, s).run)
  {
    hide Kept, Acks, Sized, Orderly, Ending, Finals;
    if s.Snk? && s.snk.Fault? && !l.crashed {
      KeptIsShaped(k.shape, l.run);
      StepIsKept(k.shape, l.run, l.base, s);
    }
  }

  lemma KeptIsShaped(c: P.Config, r: P.Run)
    requires P.ConfigOk(c) && Kept(c, r)
    ensures P.Shaped(c, r)
  {
    hide Acks, Sized, Orderly, Ending, Finals;
  }

  lemma WorldStepIsKept(k: Const, w: World, step: Step)
    requires ConstOk(k) && W.Enabled(k, w, step)
    requires forall j :: 0 <= j < |w.runs| ==> Kept(k.shape, w.runs[j].run)
    ensures var v := W.Apply(k, w, step); forall j :: 0 <= j < |v.runs| ==> Kept(k.shape, v.runs[j].run)
  {
    hide Kept, P.Enabled, P.Apply, P.Start, RunStream, Echo, LogOk;
    match step
    case StartRun(log, written) =>
      var from := StartOf(k, w.store, log, written);
      StreamIsNumbered(k.cfg, k.txns, log, from);
      StartIsKept(k.shape, RunStream(k.cfg, k.txns, log, from), w.store);
    case RunStep(j, s) =>
      StepIsKept(k.shape, w.runs[j].run, w.store, s);
      forall i | 0 <= i < |w.runs| && i != j ensures Kept(k.shape, Echo(w.runs[i], s).run) { EchoIsKept(k, w.runs[i], s); }
    case Crash =>
  }

  /** The run-level guarantees hold of every run in every history. */
  lemma {:induction false} HistoryIsKept(k: Const, ws: seq<World>, j: nat)
    requires ConstOk(k) && IsHistory(k, ws) && j < |ws[|ws| - 1].runs|
    ensures Kept(k.shape, ws[|ws| - 1].runs[j].run)
  {
    AllKept(k, ws);
  }

  lemma {:induction false} AllKept(k: Const, ws: seq<World>)
    requires ConstOk(k) && IsHistory(k, ws)
    ensures var w := ws[|ws| - 1]; forall j :: 0 <= j < |w.runs| ==> Kept(k.shape, w.runs[j].run)
    decreases |ws|
  {
    hide Kept, W.Enabled, W.Apply;
    var n := |ws| - 1;
    if n > 0 {
      AllKept(k, ws[..n]);
      assert ws[..n][n - 1] == ws[n - 1];
      assert Next(k, ws[n - 1], ws[n]);
      var step :| W.Enabled(k, ws[n - 1], step) && ws[n] == W.Apply(k, ws[n - 1], step);
      WorldStepIsKept(k, ws[n - 1], step);
    }
  }

  /** The last run of the history has returned nil without a drain timeout. */
  ghost predicate StoppedCleanly(w: World) {
    && w.runs != []
    && w.runs[|w.runs| - 1].run.ctl.main.Returned? && Clean(w.runs[|w.runs| - 1].run)
  }

  /** Everything the run's source sent is acknowledged, and the store holds the
      coordinates of the last event sent, under its SeqNo. */
  lemma CleanStopIsComplete(k: Const, ws: seq<World>)
    requires ConstOk(k) && Promised(k) && IsHistory(k, ws) && StoppedCleanly(ws[|ws| - 1])
    ensures var w := ws[|ws| - 1];
            var l := w.runs[|w.runs| - 1];
            && l.run.sent <= |l.run.stream|
            && (forall n :: 0 <= n < l.run.sent ==> l.run.stream[n].row in w.acked)
            && (if l.run.sent == 0 then w.store == l.base
                else w.store == l.run.stream[l.run.sent - 1].pos && w.store.seqNo == l.run.sent)
  {
    hide W.Enabled, W.Apply, W.Valid, Kept, Promised, Startable, Init;
    var w := ws[|ws| - 1];
    var j := |w.runs| - 1;
    HistoryIsKept(k, ws, j);
    StartedIsStartable(k, ws, |ws| - 1);
    HistoryIsValid(k, ws);
    CleanLeaves(k, w);
  }

  lemma CleanLeaves(k: Const, w: World)
    requires ConstOk(k) && W.Valid(k, w) && StoppedCleanly(w) && Kept(k.shape, w.runs[|w.runs| - 1].run)
    ensures var l := w.runs[|w.runs| - 1];
            && l.run.sent <= |l.run.stream|
            && (forall n :: 0 <= n < l.run.sent ==> l.run.stream[n].row in w.acked)
            && (if l.run.sent == 0 then w.store == l.base
                else w.store == l.run.stream[l.run.sent - 1].pos && w.store.seqNo == l.run.sent)
  {
    hide Acks, Sized, Orderly, Ending, Finals, RunSound, Safe, AtLeast, Settled, Anchored;
    var l := w.runs[|w.runs| - 1];
    assert LiveOk(k, w, l);
    CleanRunIsComplete(k.shape, l.run);
    SentInStream(k.shape, l.run);
    forall n | 0 <= n < l.run.sent ensures l.run.stream[n].row in w.acked {
      assert n + 1 in l.run.acked;
      assert l.run.stream[n].row in AckedRows(l.run);
    }
  }

  lemma SentInStream(c: P.Config, r: P.Run)
    requires P.ConfigOk(c) && Kept(c, r)
    ensures r.sent <= |r.stream| && forall n :: 0 <= n < |r.stream| ==> r.stream[n].pos.seqNo == n + 1
  {
    hide Sized, Orderly, Ending, Finals;
  }

  /** The position has coordinates: a run resumes from it, not from the end. */
  predicate HasCoordinates(k: Const, p: Position) { if k.cfg.gtid then !IsZero(p) else p.file != "" }

  /** MINIMAL REPLAY. After a clean stop, if every set update succeeded and the
      saved position has coordinates, a run that starts next re-delivers, of
      the rows this run published, exactly those of the last transaction it
      emitted. */
  lemma CleanStopReplaysLastTransaction(k: Const, ws: seq<World>, log: Log, written: nat, x: nat)
    requires ConstOk(k) && Promised(k) && IsHistory(k, ws) && StoppedCleanly(ws[|ws| - 1])
    requires k.cfg.gtid ==> forall t :: 0 <= t < |k.txns| ==> k.cfg.accepts(k.txns[t].gtid)
    requires Serves(k, log) && written <= |log.items|
    requires HasCoordinates(k, ws[|ws| - 1].store)
    requires var r := ws[|ws| - 1].runs[|ws[|ws| - 1].runs| - 1].run; x < r.sent <= |r.stream|
    ensures var w := ws[|ws| - 1];
            var r := w.runs[|w.runs| - 1].run;
            var tid := r.stream[x].row.tid;
            Covers(k.cfg, k.txns, log, StartOf(k, w.store, log, written), tid) <==> tid != r.stream[r.sent - 1].row.tid
  {
    hide P.Enabled, P.Apply, P.Start, RunStream, W.Enabled, W.Apply, Covers, Passed, Kept, W.Valid, RunSound, Promised, Startable, LogOk;
    var w := ws[|ws| - 1];
    var l := w.runs[|w.runs| - 1];
    CleanStopIsComplete(k, ws);
    StartedIsStartable(k, ws, |ws| - 1);
    HistoryIsValid(k, ws);
    LastRunIsSound(k, w);
    StampSplits(k, l, x, l.run.sent - 1);
    var tid := l.run.stream[x].row.tid;
    PassedIsCovered(k, log, w.store, tid);
    PassedIsCovered(k, l.log, w.store, tid);
  }

  lemma LastRunIsSound(k: Const, w: World)
    requires ConstOk(k) && W.Valid(k, w) && w.runs != []
    ensures RunSound(k, w.runs[|w.runs| - 1])
  {
    hide RunSound, Anchored, Saves, Settled, Safe;
    assert LiveOk(k, w, w.runs[|w.runs| - 1]);
  }

  lemma StampSplits(k: Const, l: Live, x: nat, last: nat)
    requires ConstOk(k) && RunSound(k, l) && x <= last < |l.run.stream|
    requires k.cfg.gtid ==> forall t :: 0 <= t < |k.txns| ==> k.cfg.accepts(k.txns[t].gtid)
    ensures Serves(k, l.log)
    ensures var tid := l.run.stream[x].row.tid;
            Covers(k.cfg, k.txns, l.log, l.run.stream[last].pos, tid) <==> tid != l.run.stream[last].row.tid
  {
    hide Covers, RunStream, Flow.Flowing, Acks;
    StampCoversTheRest(k.cfg, k.txns, l.log, l.from, last, x);
    StampReplaysTheRest(k.cfg, k.txns, l.log, l.from, last, last);
  }
}
