/** What a run returns, told from the steps it took: when an error counts,
    when it cancels the pipeline, and which one `run` answers with. */
module Verdict {
  import opened Prelude
  import opened Events
  import opened Pipeline
  import S = SinkContract
  import T = Tracking

  /** A run with its steps: states[i] and stores[i] before steps[i]. */
  datatype Trace = Trace(states: seq<Run>, stores: seq<Position>, steps: seq<Step>)

  ghost predicate Moves(c: Config, t: Trace, i: nat)
    requires ConfigOk(c) && |t.states| == |t.steps| + 1 && |t.stores| == |t.steps| && i < |t.steps|
  {
    Enabled(c, t.states[i], t.steps[i]) && t.states[i + 1] == Apply(c, t.states[i], t.stores[i], t.steps[i]).0
  }

  ghost predicate IsTrace(c: Config, stream: seq<Event>, loaded: Position, t: Trace)
    requires ConfigOk(c)
  {
    && |t.states| == |t.steps| + 1 && |t.stores| == |t.steps| && t.states[0] == Start(c, stream, loaded)
    && forall i :: 0 <= i < |t.steps| ==> Moves(c, t, i)
  }

  // ---- What counts ----

  /** A goroutine ends, or the committer polls, with an error that does not
      wrap context.Canceled; a publisher's does not count after a hard cancel. */
  predicate Reports(r: Run, step: Step) {
    || step == Src(End(Some(Other)))
    || (step == Com(Poll) && r.sink.err == Some(Other))
    || (step.Pub? && step.pub.Refused? && r.sink.err == Some(Other) && !r.ctl.hardCancelled)
    || (step.Pub? && step.pub.SerializeFails? && !r.ctl.hardCancelled)
  }

  ghost predicate Failed(t: Trace, n: nat)
    requires n <= |t.steps| <= |t.states|
  {
    exists i :: 0 <= i < n && Reports(t.states[i], t.steps[i])
  }

  ghost predicate Took(t: Trace, n: nat, step: MainStep)
    requires n <= |t.steps|
  {
    exists i :: 0 <= i < n && t.steps[i] == Ctl(step)
  }

  /** An error was reported before `run` read the first one. */
  ghost predicate ReadFailure(t: Trace, n: nat)
    requires n <= |t.steps| <= |t.states|
  {
    exists i :: 0 <= i < n && t.steps[i] == Ctl(ReadErr) && Failed(t, i)
  }

  lemma OneMore(t: Trace, n: nat)
    requires n < |t.steps| <= |t.states|
    ensures Failed(t, n + 1) <==> Failed(t, n) || Reports(t.states[n], t.steps[n])
    ensures forall s :: Took(t, n + 1, s) <==> Took(t, n, s) || t.steps[n] == Ctl(s)
    ensures ReadFailure(t, n + 1) <==> ReadFailure(t, n) || (t.steps[n] == Ctl(ReadErr) && Failed(t, n))
  {
    hide Reports;
    if Failed(t, n) {
      var i :| 0 <= i < n && Reports(t.states[i], t.steps[i]);
      assert i < n + 1;
    }
    forall s | Took(t, n, s) ensures Took(t, n + 1, s) {
      var i :| 0 <= i < n && t.steps[i] == Ctl(s);
      assert i < n + 1;
    }
    ReadGrows(t, n);
  }

  lemma ReadGrows(t: Trace, n: nat)
    requires n < |t.steps| <= |t.states|
    ensures ReadFailure(t, n + 1) <==> ReadFailure(t, n) || (t.steps[n] == Ctl(ReadErr) && Failed(t, n))
  {
    hide Failed;
    if ReadFailure(t, n) {
      var i :| 0 <= i < n && t.steps[i] == Ctl(ReadErr) && Failed(t, i);
      assert i < n + 1;
    }
  }

  // ---- The control state follows the steps ----

  /** What the steps so far hold. */
  datatype Book = Book(failed: bool, timedOut: bool, abandoned: bool, readFailure: bool,
                       flushCancelled: bool, flushFailed: bool, finalFailed: bool)

  ghost function BookOf(t: Trace, n: nat): Book
    requires n <= |t.steps| <= |t.states|
  {
    Book(Failed(t, n), Took(t, n, DrainTimesOut), Took(t, n, Abandon), ReadFailure(t, n),
         Took(t, n, FlushFails(Cancelled)), Took(t, n, FlushFails(Other)), Took(t, n, FinalFails))
  }

  function Entered(b: Book, reports: bool, step: Step): Book {
    Book(b.failed || reports, b.timedOut || step == Ctl(DrainTimesOut), b.abandoned || step == Ctl(Abandon),
         b.readFailure || (step == Ctl(ReadErr) && b.failed), b.flushCancelled || step == Ctl(FlushFails(Cancelled)),
         b.flushFailed || step == Ctl(FlushFails(Other)), b.finalFailed || step == Ctl(FinalFails))
  }

  lemma BookGrows(t: Trace, n: nat)
    requires n < |t.steps| <= |t.states|
    ensures BookOf(t, n + 1) == Entered(BookOf(t, n), Reports(t.states[n], t.steps[n]), t.steps[n])
  {
    hide Failed, Took, ReadFailure, Reports;
    OneMore(t, n);
  }

  /** The answer a book amounts to. */
  function Answer(b: Book): Option<Error> {
    if b.readFailure || b.abandoned then Some(Other)
    else if b.flushCancelled then Some(Cancelled)
    else if b.flushFailed || b.finalFailed then Some(Other)
    else None
  }

  /** `run` has not read the first error yet. */
  predicate BeforeRead(m: Main) { m.Running? || m.Stopping? || m.Cancelling? || m.Gathered? }

  predicate Told(b: Book, ctl: Control) {
    && ctl.firstErr == (if b.failed then Some(Other) else None)
    && (ctl.drainTimedOut <==> b.timedOut)
    && (ctl.hardCancelled <==> b.failed || b.timedOut || ctl.main.Returned?)
    && (BeforeRead(ctl.main) || ctl.main.Flushing? ==>
          && !b.readFailure && !b.flushCancelled && !b.flushFailed
          && (b.abandoned <==> ctl.main == Gathered(true)))
    && (!ctl.main.Returned? ==> !b.finalFailed)
    && (b.flushCancelled || b.flushFailed ==> !b.readFailure && !b.abandoned)
    && !(b.flushCancelled && b.flushFailed)
    && ctl.runErr == (if ctl.main == Gathered(true) then None else Answer(b))
  }

  lemma OthersTell(c: Config, r: Run, store: Position, step: Step)
    requires ConfigOk(c) && Enabled(c, r, step) && !step.Ctl?
    ensures var was, now := r.ctl, Apply(c, r, store, step).0.ctl;
            now == if Reports(r, step) && was.firstErr.None? then was.(firstErr := Some(Other), hardCancelled := true) else was
  {
    hide Route, S.Apply, S.Enabled, T.ReportBatch, Filter, FlushSize, Slots;
  }

  lemma OthersKeepTold(c: Config, b: Book, r: Run, store: Position, step: Step)
    requires ConfigOk(c) && Enabled(c, r, step) && !step.Ctl? && Told(b, r.ctl)
    ensures Told(Entered(b, Reports(r, step), step), Apply(c, r, store, step).0.ctl)
  {
    hide Reports, Enabled, Apply;
    OthersTell(c, r, store, step);
  }

  lemma FlushKeepsTold(b: Book, r: Run, store: Position, e: Error)
    requires MainEnabled(r, FlushFails(e)) && Told(b, r.ctl)
    ensures Told(Entered(b, false, Ctl(FlushFails(e))), MainApply(r, store, FlushFails(e)).0.ctl)
  {
    hide AllExited;
    if e.Cancelled? { assert e == Cancelled; } else { assert e == Other; }
  }

  /** Steps that only move `run` on, or start to read or to cancel. */
  predicate MovesOn(step: MainStep) { !step.FlushFails? && !step.FinalBegins? && !step.FinalOk? && !step.FinalFails? }

  lemma MovingKeepsTold(b: Book, r: Run, store: Position, step: MainStep)
    requires MainEnabled(r, step) && Told(b, r.ctl) && MovesOn(step)
    ensures Told(Entered(b, false, Ctl(step)), MainApply(r, store, step).0.ctl)
  {
    hide AllExited, Return;
  }

  lemma ReturnKeepsTold(b: Book, r: Run, store: Position, step: MainStep)
    requires MainEnabled(r, step) && Told(b, r.ctl) && (step.FinalBegins? || step.FinalOk?)
    ensures Told(Entered(b, false, Ctl(step)), MainApply(r, store, step).0.ctl)
  {}

  lemma FailKeepsTold(b: Book, r: Run, store: Position)
    requires MainEnabled(r, FinalFails) && Told(b, r.ctl)
    ensures Told(Entered(b, false, Ctl(FinalFails)), MainApply(r, store, FinalFails).0.ctl)
  {}

  lemma MainKeepsTold(b: Book, r: Run, store: Position, step: MainStep)
    requires MainEnabled(r, step) && Told(b, r.ctl)
    ensures Told(Entered(b, false, Ctl(step)), MainApply(r, store, step).0.ctl)
  {
    hide Told, Entered, MainEnabled, MainApply;
    if step.FlushFails? {
      FlushKeepsTold(b, r, store, step.e);
    } else if MovesOn(step) {
      MovingKeepsTold(b, r, store, step);
    } else if step.FinalFails? {
      FailKeepsTold(b, r, store);
    } else {
      ReturnKeepsTold(b, r, store, step);
    }
  }

  lemma {:induction false} TraceIsTold(c: Config, stream: seq<Event>, loaded: Position, t: Trace, n: nat)
    requires ConfigOk(c) && IsTrace(c, stream, loaded, t) && n <= |t.steps|
    ensures Told(BookOf(t, n), t.states[n].ctl)
  {
    hide Told, BookOf, Start, Reports, Enabled, Apply, Entered;
    if n == 0 {
      StartIsTold(c, stream, loaded, t);
    } else {
      TraceIsTold(c, stream, loaded, t, n - 1);
      assert Moves(c, t, n - 1);
      BookGrows(t, n - 1);
      StepKeepsTold(c, BookOf(t, n - 1), t.states[n - 1], t.stores[n - 1], t.steps[n - 1]);
    }
  }

  lemma StepKeepsTold(c: Config, b: Book, r: Run, store: Position, step: Step)
    requires ConfigOk(c) && Enabled(c, r, step) && Told(b, r.ctl)
    ensures Told(Entered(b, Reports(r, step), step), Apply(c, r, store, step).0.ctl)
  {
    hide Told, Entered, MainEnabled, MainApply;
    if step.Ctl? { MainKeepsTold(b, r, store, step.main); } else { OthersKeepTold(c, b, r, store, step); }
  }

  lemma StartIsTold(c: Config, stream: seq<Event>, loaded: Position, t: Trace)
    requires ConfigOk(c) && IsTrace(c, stream, loaded, t)
    ensures Told(BookOf(t, 0), t.states[0].ctl)
  {
    hide Moves;
  }

  // ---- Main results ----

  /** CANCELLATION. In every state of every run the pipeline is cancelled
      exactly when a component failed, the drain timed out or the run is over;
      the first error is kept, and a cancellation is never an error. */
  lemma CancelledExactly(c: Config, stream: seq<Event>, loaded: Position, t: Trace)
    requires ConfigOk(c) && IsTrace(c, stream, loaded, t)
    ensures var ctl := t.states[|t.steps|].ctl;
            var failed := exists i :: 0 <= i < |t.steps| && Reports(t.states[i], t.steps[i]);
            var timedOut := exists i :: 0 <= i < |t.steps| && t.steps[i] == Ctl(DrainTimesOut);
            && (ctl.hardCancelled <==> failed || timedOut || ctl.main.Returned?)
            && ctl.firstErr == (if failed then Some(Other) else None)
            && (ctl.drainTimedOut <==> timedOut)
  {
    hide Reports, Moves, ReadFailure;
    TraceIsTold(c, stream, loaded, t, |t.steps|);
  }

  /** THE ANSWER. A run that has returned has an error exactly when a
      component failed before `run` read the first error, the run was
      abandoned, Flush failed, or the final save failed. The error wraps
      context.Canceled exactly when Flush answered one that does. */
  lemma AnsweredExactly(c: Config, stream: seq<Event>, loaded: Position, t: Trace)
    requires ConfigOk(c) && IsTrace(c, stream, loaded, t) && t.states[|t.steps|].ctl.main.Returned?
    ensures var answer := t.states[|t.steps|].ctl.runErr;
            && (answer.Some? <==>
                  || (exists i, j :: 0 <= i < j < |t.steps| && Reports(t.states[i], t.steps[i]) && t.steps[j] == Ctl(ReadErr))
                  || (exists i :: 0 <= i < |t.steps| && t.steps[i] == Ctl(Abandon))
                  || (exists i :: 0 <= i < |t.steps| && t.steps[i].Ctl? && t.steps[i].main.FlushFails?)
                  || (exists i :: 0 <= i < |t.steps| && t.steps[i] == Ctl(FinalFails)))
            && (answer == Some(Cancelled) <==>
                  exists i :: 0 <= i < |t.steps| && t.steps[i] == Ctl(FlushFails(Cancelled)))
  {
    hide Reports, Moves, Failed, ReadFailure, Took;
    var n := |t.steps|;
    TraceIsTold(c, stream, loaded, t, n);
    Spelled(t, n);
  }

  lemma Spelled(t: Trace, n: nat)
    requires n <= |t.steps| <= |t.states|
    ensures ReadFailure(t, n) <==> exists i, j :: 0 <= i < j < n && Reports(t.states[i], t.steps[i]) && t.steps[j] == Ctl(ReadErr)
    ensures (Took(t, n, FlushFails(Cancelled)) || Took(t, n, FlushFails(Other)))
       <==> exists i :: 0 <= i < n && t.steps[i].Ctl? && t.steps[i].main.FlushFails?
    ensures forall s :: Took(t, n, s) <==> exists i :: 0 <= i < n && t.steps[i] == Ctl(s)
  {
    hide Reports;
    FlushSpelled(t, n);
  }

  lemma FlushSpelled(t: Trace, n: nat)
    requires n <= |t.steps| <= |t.states|
    ensures (Took(t, n, FlushFails(Cancelled)) || Took(t, n, FlushFails(Other)))
       <==> exists i :: 0 <= i < n && t.steps[i].Ctl? && t.steps[i].main.FlushFails?
  {
    if i :| 0 <= i < n && t.steps[i].Ctl? && t.steps[i].main.FlushFails? {
      assert t.steps[i] == Ctl(FlushFails(t.steps[i].main.e));
      assert t.steps[i].main.e == Cancelled || t.steps[i].main.e == Other;
    }
    if Took(t, n, FlushFails(Cancelled)) {
      var i :| 0 <= i < n && t.steps[i] == Ctl(FlushFails(Cancelled));
      assert t.steps[i].main.FlushFails?;
    } else if Took(t, n, FlushFails(Other)) {
      var i :| 0 <= i < n && t.steps[i] == Ctl(FlushFails(Other));
      assert t.steps[i].main.FlushFails?;
    }
  }

  // ---- What was saved ----

  /** A save of the committer or the final one succeeds. */
  predicate Saved(step: Step) { step == Com(SaveOk) || step == Ctl(FinalOk) }

  lemma StepPersists(c: Config, r: Run, store: Position, step: Step)
    requires ConfigOk(c) && Enabled(c, r, step)
    ensures Saved(step) ==> r.com.saving.Some?
    ensures Apply(c, r, store, step).0.persisted == if Saved(step) then r.com.saving.value else r.persisted
  {
    hide Route, S.Apply, S.Enabled, T.ReportBatch, Filter, FlushSize, Slots, AllExited;
  }

  /** SAVED. The position a run shows as saved is the one its last successful
      save wrote, or the one it loaded while no save has succeeded: a failed
      save, and one that nobody heard of again, do not show. */
  lemma {:induction false} PersistedExactly(c: Config, stream: seq<Event>, loaded: Position, t: Trace, n: nat, i: nat)
    requires ConfigOk(c) && IsTrace(c, stream, loaded, t) && n <= |t.steps|
    requires forall j :: i <= j < n ==> !Saved(t.steps[j])
    requires 0 < i <= n ==> Saved(t.steps[i - 1])
    ensures i == 0 ==> t.states[n].persisted == loaded
    ensures 0 < i <= n ==> t.states[i - 1].com.saving.Some? && t.states[n].persisted == t.states[i - 1].com.saving.value
    decreases n
  {
    hide Enabled, Apply;
    if n > 0 {
      assert Moves(c, t, n - 1);
      StepPersists(c, t.states[n - 1], t.stores[n - 1], t.steps[n - 1]);
      if i < n { PersistedExactly(c, stream, loaded, t, n - 1, i); }
    }
  }
}
