/** The components are the state machine's goroutines: what the dispatcher
    class does, act by act, are dispatcher steps of `Pipeline`, and what a
    round of the publisher does is a trace of publisher steps. */
module Traces {
  import opened Prelude
  import opened Events
  import opened Pipeline
  import D = Dispatch
  import Publish
  import S = SinkContract
  import Keys
  import opened Runs

  // ---- The dispatcher ----

  /** The dispatcher's lines in a run; `taken` are the micro-batches the
      publishers have taken from each queue. */
  ghost function LinesOf(c: Config, r: Run, taken: seq<seq<seq<Event>>>): D.Lines
    requires Shaped(c, r) && |taken| == c.queues
  {
    D.Lines(r.disp.staging, seq(c.queues, q requires 0 <= q < c.queues => taken[q] + r.disp.queues[q]))
  }

  /** Routing the next received event is the Stage step. */
  lemma StagedIsStage(c: Config, r: Run, taken: seq<seq<seq<Event>>>)
    requires ConfigOk(c) && Shaped(c, r) && |taken| == c.queues && !r.disp.returned && r.disp.cur != []
    requires D.CanDo(c.overrides, c.queues, FlushSize(c), LinesOf(c, r, taken), D.Staged(r.disp.cur[0]))
    ensures DispEnabled(c, r, Stage)
    ensures LinesOf(c, DispApply(c, r, Stage), taken)
         == D.Do(c.overrides, c.queues, LinesOf(c, r, taken), D.Staged(r.disp.cur[0]))
  {
    hide Keys.QueueOf, Keys.DefaultKey;
  }

  /** Sending a staging slice is the Flush step, once the queue has room. */
  lemma FlushedIsFlush(c: Config, r: Run, taken: seq<seq<seq<Event>>>, q: nat)
    requires ConfigOk(c) && Shaped(c, r) && |taken| == c.queues && !r.disp.returned
    requires D.CanDo(c.overrides, c.queues, FlushSize(c), LinesOf(c, r, taken), D.Flushed(q))
    requires |r.disp.queues[q]| < Slots(c)
    ensures DispEnabled(c, r, Flush(q))
    ensures LinesOf(c, DispApply(c, r, Flush(q)), taken) == D.Do(c.overrides, c.queues, LinesOf(c, r, taken), D.Flushed(q))
  {
    var s, t := LinesOf(c, r, taken), LinesOf(c, DispApply(c, r, Flush(q)), taken);
    assert taken[q] + (r.disp.queues[q] + [r.disp.staging[q]]) == taken[q] + r.disp.queues[q] + [r.disp.staging[q]];
    assert t.queues == s.queues[q := s.queues[q] + [s.staging[q]]];
  }

  /** And conversely: a dispatcher step on the lines is one of its acts. */
  lemma DispStepIsAct(c: Config, r: Run, taken: seq<seq<seq<Event>>>, step: DispStep)
    requires ConfigOk(c) && Shaped(c, r) && |taken| == c.queues && DispEnabled(c, r, step) && (step.Stage? || step.Flush?)
    ensures var a := if step.Stage? then D.Staged(r.disp.cur[0]) else D.Flushed(step.q);
            && D.CanDo(c.overrides, c.queues, FlushSize(c), LinesOf(c, r, taken), a)
            && LinesOf(c, DispApply(c, r, step), taken) == D.Do(c.overrides, c.queues, LinesOf(c, r, taken), a)
  {
    if step.Stage? { StagedIsStage(c, r, taken); } else { FlushedIsFlush(c, r, taken, step.q); }
  }

  /** A publisher's take moves a micro-batch, and leaves the lines alone. */
  lemma TakeKeepsLines(c: Config, r: Run, taken: seq<seq<seq<Event>>>, q: nat)
    requires ConfigOk(c) && Shaped(c, r) && |taken| == c.queues && PubEnabled(c, r, q, Take)
    ensures LinesOf(c, PubApply(c, r, q, Take), taken[q := taken[q] + [r.disp.queues[q][0]]]) == LinesOf(c, r, taken)
  {
    var t, more := PubApply(c, r, q, Take), taken[q := taken[q] + [r.disp.queues[q][0]]];
    assert more[q] + t.disp.queues[q] == taken[q] + r.disp.queues[q];
    assert LinesOf(c, t, more).queues == LinesOf(c, r, taken).queues;
  }

  /** A dispatcher whose lines are empty may close its queues when the input
      is closed and received. */
  lemma NilReturnIsClose(c: Config, r: Run, taken: seq<seq<seq<Event>>>)
    requires ConfigOk(c) && Shaped(c, r) && |taken| == c.queues && !r.disp.returned
    requires r.srcDone && r.out == [] && r.disp.cur == []
    requires forall q :: 0 <= q < c.queues ==> LinesOf(c, r, taken).staging[q] == []
    ensures DispEnabled(c, r, Close)
  {
    assert LinesOf(c, r, taken).staging == r.disp.staging;
  }

  // ---- Traces of a run ----

  ghost predicate Leads(c: Config, r: Run, t: Run)
    requires ConfigOk(c)
  {
    exists rs: seq<Run> :: Chain(c, r, rs, t)
  }

  ghost predicate Chain(c: Config, r: Run, rs: seq<Run>, t: Run)
    requires ConfigOk(c)
  {
    rs != [] && rs[0] == r && rs[|rs| - 1] == t && forall i :: 0 <= i < |rs| - 1 ==> Follows(c, rs[i], rs[i + 1])
  }

  lemma LeadsNowhere(c: Config, r: Run)
    requires ConfigOk(c)
    ensures Leads(c, r, r)
  {
    assert Chain(c, r, [r], r);
  }

  lemma LeadsOn(c: Config, r: Run, t: Run, step: Step, u: Run)
    requires ConfigOk(c) && Leads(c, r, t) && Enabled(c, t, step) && u == Apply(c, t, ZERO, step).0
    ensures Leads(c, r, u)
  {
    hide Enabled, Apply;
    var rs :| Chain(c, r, rs, t);
    var us := rs + [u];
    forall i | 0 <= i < |us| - 1 ensures Follows(c, us[i], us[i + 1]) {
      if i < |rs| - 1 { assert Follows(c, rs[i], rs[i + 1]); }
    }
    assert Chain(c, r, us, u);
  }

  // ---- One round of a publisher ----

  /** The run with publisher q as given and k micro-batches taken. */
  function Taken(r: Run, q: nat, k: nat, p: Publisher): Run
    requires q < |r.disp.queues| && q < |r.pubs| && k <= |r.disp.queues[q]|
  {
    r.(disp := r.disp.(queues := r.disp.queues[q := r.disp.queues[q][k..]]), pubs := r.pubs[q := p])
  }

  lemma TakesOneMore(c: Config, r: Run, q: nat, k: nat)
    requires ConfigOk(c) && Shaped(c, r) && q < c.queues && k < |r.disp.queues[q]|
    requires |Flatten(r.disp.queues[q][..k])| < c.batchMax
    ensures var queue := r.disp.queues[q];
            var t := Taken(r, q, k, Publisher(Flatten(queue[..k]), Draining));
            && Enabled(c, t, Pub(q, Take))
            && Apply(c, t, ZERO, Pub(q, Take)).0 == Taken(r, q, k + 1, Publisher(Flatten(queue[..k + 1]), Draining))
  {
    hide Flatten, Route;
    var queue := r.disp.queues[q];
    var t := Taken(r, q, k, Publisher(Flatten(queue[..k]), Draining));
    var u := Taken(r, q, k + 1, Publisher(Flatten(queue[..k + 1]), Draining));
    assert queue[..k + 1] == queue[..k] + [queue[k]];
    FlattenSnoc(queue[..k], queue[k]);
    assert queue[k..][0] == queue[k] && queue[k..][1..] == queue[k + 1..];
    assert t.disp.queues[q := queue[k + 1..]] == u.disp.queues;
    assert t.pubs[q := u.pubs[q]] == u.pubs;
  }

  /** DRAIN. What drainBatch takes is a trace of Take steps. */
  lemma {:induction false} DrainIsTrace(c: Config, r: Run, q: nat, w: Publish.Interrupts, k: nat)
    requires ConfigOk(c) && Shaped(c, r) && q < c.queues && r.pubs[q] == Publisher([], Draining)
    requires k <= |r.disp.queues[q]| && Publish.GoesOn(r.disp.queues[q], c.batchMax, w, k)
    ensures Leads(c, r, Taken(r, q, k, Publisher(Flatten(r.disp.queues[q][..k]), Draining)))
  {
    hide Leads, Route, Publish.GoesOn;
    var queue := r.disp.queues[q];
    if k == 0 {
      assert queue[..0] == [] && queue[0..] == queue;
      assert r.disp.queues[q := queue] == r.disp.queues && r.pubs[q := r.pubs[q]] == r.pubs;
      LeadsNowhere(c, r);
    } else {
      Publish.WentOn(queue, c.batchMax, w, k - 1);
      DrainIsTrace(c, r, q, w, k - 1);
      assert k == 1 ==> Flatten(queue[..k - 1]) == [];
      TakesOneMore(c, r, q, k - 1);
      var p := Publisher(Flatten(queue[..k - 1]), Draining);
      LeadsOn(c, r, Taken(r, q, k - 1, p), Pub(q, Take), Taken(r, q, k, Publisher(Flatten(queue[..k]), Draining)));
    }
  }

  /** The publisher's next phase after a drain: open, or closed by an empty
      closed queue or by the context. */
  lemma DrainEnds(c: Config, r: Run, q: nat, open: bool)
    requires ConfigOk(c) && Shaped(c, r) && q < c.queues && r.pubs[q].phase.Draining? && r.pubs[q].buf != []
    requires !open ==> r.ctl.hardCancelled || (r.disp.queues[q] == [] && r.disp.returned)
    ensures Leads(c, r, SetPhase(r, q, Checking(open)))
  {
    hide Leads, Route;
    LeadsNowhere(c, r);
    var t := SetPhase(r, q, Checking(open));
    if open {
      LeadsOn(c, r, r, Pub(q, Drained), t);
    } else if r.ctl.hardCancelled {
      LeadsOn(c, r, r, Pub(q, DrainCancel), t);
    } else {
      LeadsOn(c, r, r, Pub(q, Closed), t);
    }
  }

  /** The run while publisher q hands its batch to the producer: k records done. */
  ghost function Handing(r: Run, q: nat, k: nat, more: bool): Run
    requires q < |r.pubs| && k <= |r.pubs[q].buf|
  {
    var batch := S.Batch(r.pubs[q].buf, k, {}, {}, true, false, false, r.sink.epoch);
    r.(sink := r.sink.(batches := r.sink.batches + [batch]), submitted := r.submitted + r.pubs[q].buf[..k],
       pubs := r.pubs[q := Publisher([], Producing(|r.sink.batches|, more))])
  }

  lemma HandsOneMore(c: Config, r: Run, q: nat, k: nat, more: bool)
    requires ConfigOk(c) && Shaped(c, r) && q < c.queues && k < |r.pubs[q].buf|
    ensures Enabled(c, Handing(r, q, k, more), Pub(q, Produce))
    ensures Apply(c, Handing(r, q, k, more), ZERO, Pub(q, Produce)).0 == Handing(r, q, k + 1, more)
  {
    hide Route;
    var t, u, n := Handing(r, q, k, more), Handing(r, q, k + 1, more), |r.sink.batches|;
    var x := r.pubs[q].buf;
    assert t.sink.batches[n := u.sink.batches[n]] == u.sink.batches;
    assert r.submitted + x[..k] + [x[k]] == r.submitted + x[..k + 1] by { assert x[..k + 1] == x[..k] + [x[k]]; }
  }

  lemma {:induction false} HandingIsTrace(c: Config, r: Run, q: nat, k: nat, more: bool)
    requires ConfigOk(c) && Shaped(c, r) && q < c.queues && r.pubs[q].phase == Checking(more) && k <= |r.pubs[q].buf|
    requires r.pubs[q].buf != [] && r.sink.err.None? && S.InUse(r.sink.batches) < c.maxInflight
    ensures Leads(c, r, Handing(r, q, k, more))
  {
    hide Leads, Route;
    if k == 0 {
      var t, u := SetPhase(r, q, Acquiring(more)), Handing(r, q, 0, more);
      LeadsNowhere(c, r);
      LeadsOn(c, r, r, Pub(q, Check), t);
      assert t.pubs[q := u.pubs[q]] == u.pubs && r.submitted + r.pubs[q].buf[..0] == r.submitted;
      LeadsOn(c, r, t, Pub(q, Acquire), u);
    } else {
      HandingIsTrace(c, r, q, k - 1, more);
      HandsOneMore(c, r, q, k - 1, more);
      LeadsOn(c, r, Handing(r, q, k - 1, more), Pub(q, Produce), Handing(r, q, k, more));
    }
  }

  /** PUBLISH. A drained batch that PublishBatch accepts is submitted, record
      by record, in a trace that ends in the next drain or in the exit. */
  lemma AcceptedIsTrace(c: Config, r: Run, q: nat, more: bool) returns (t: Run)
    requires ConfigOk(c) && Shaped(c, r) && q < c.queues && r.pubs[q].phase == Checking(more) && r.pubs[q].buf != []
    requires r.sink.err.None? && S.InUse(r.sink.batches) < c.maxInflight
    ensures Leads(c, r, t) && t.submitted == r.submitted + r.pubs[q].buf
    ensures |t.pubs| == |r.pubs| && t.pubs[q] == Publisher([], if more then Draining else Exited)
    ensures t.disp == r.disp && forall p :: 0 <= p < c.queues && p != q ==> t.pubs[p] == r.pubs[p]
  {
    hide Leads, Route;
    var n := |r.pubs[q].buf|;
    var u := Handing(r, q, n, more);
    HandingIsTrace(c, r, q, n, more);
    t := SetPhase(u, q, if more then Draining else Exited);
    LeadsOn(c, r, u, Pub(q, Submit), t);
    assert r.pubs[q].buf[..n] == r.pubs[q].buf;
  }

  /** A PublishBatch that fails, or that the context ends, is a trace to the
      exit with nothing submitted; only the former records the error. */
  lemma FailedIsTrace(c: Config, r: Run, q: nat, more: bool, ended: bool)
    requires ConfigOk(c) && Shaped(c, r) && q < c.queues && r.pubs[q].phase == Checking(more) && r.sink.err.None?
    requires ended == r.ctl.hardCancelled
    ensures Leads(c, r, SetPhase(r, q, Exited).(ctl := if ended then r.ctl else Fail(r.ctl, Some(Other))))
  {
    hide Leads, Route;
    LeadsNowhere(c, r);
    LeadsOn(c, r, r, Pub(q, SerializeFails), SetPhase(r, q, Exited).(ctl := if ended then r.ctl else Fail(r.ctl, Some(Other))));
  }

  lemma LeadsThrough(c: Config, r: Run, t: Run, u: Run)
    requires ConfigOk(c) && Leads(c, r, t) && Leads(c, t, u)
    ensures Leads(c, r, u)
  {
    var rs :| Chain(c, r, rs, t);
    var ts :| Chain(c, t, ts, u);
    var us := rs + ts[1..];
    forall i | 0 <= i < |us| - 1 ensures Follows(c, us[i], us[i + 1]) {
      if i < |rs| - 1 {
        assert Follows(c, rs[i], rs[i + 1]);
      } else {
        assert Follows(c, ts[i - |rs| + 1], ts[i - |rs| + 2]);
      }
    }
    assert Chain(c, r, us, u);
  }

  /** ROUND. A round of runPublisher that drains k micro-batches and whose
      PublishBatch accepts is a trace of the run: it submits exactly what was
      drained and ends in the next drain, or in the exit if the drain closed. */
  lemma RoundIsTrace(c: Config, r: Run, q: nat, w: Publish.Interrupts, k: nat, open: bool) returns (t: Run)
    requires ConfigOk(c) && Shaped(c, r) && q < c.queues && r.pubs[q] == Publisher([], Draining)
    requires k <= |r.disp.queues[q]| && Publish.GoesOn(r.disp.queues[q], c.batchMax, w, k)
    requires Flatten(r.disp.queues[q][..k]) != [] && r.sink.err.None? && S.InUse(r.sink.batches) < c.maxInflight
    requires !open ==> r.ctl.hardCancelled || (k == |r.disp.queues[q]| && r.disp.returned)
    ensures Leads(c, r, t) && t.submitted == r.submitted + Flatten(r.disp.queues[q][..k])
    ensures |t.pubs| == |r.pubs| && t.pubs[q] == Publisher([], if open then Draining else Exited)
    ensures |t.disp.queues| == |r.disp.queues| && t.disp.queues[q] == r.disp.queues[q][k..]
  {
    hide Leads, Route, Publish.GoesOn, Flatten;
    var u := Taken(r, q, k, Publisher(Flatten(r.disp.queues[q][..k]), Draining));
    DrainIsTrace(c, r, q, w, k);
    DrainEnds(c, u, q, open);
    var v := SetPhase(u, q, Checking(open));
    LeadsThrough(c, r, u, v);
    t := AcceptedIsTrace(c, v, q, open);
    LeadsThrough(c, r, v, t);
  }
}
