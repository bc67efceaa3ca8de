/** pkg/dispatch/dispatch.go: the dispatcher as the code runs it, with its
    staging slices and queues, over any outcome of its selects. */
module Dispatch {
  import opened Prelude
  import opened Events
  import Keys
  import P = Pipeline

  /** What one iteration of Run's select receives. `idle` says that the input
      channel is empty after the batch was routed. */
  datatype Select = Batch(events: seq<Event>, idle: bool) | Tick | InputClosed | Done

  /** The events received before Run stops listening. */
  function Input(script: seq<Select>): seq<Event> {
    if script == [] || script[0].InputClosed? || script[0].Done? then []
    else (if script[0].Batch? then script[0].events else []) + Input(script[1..])
  }

  /** Run leaves its loop because the context ended, not the input. */
  predicate EndsByContext(script: seq<Select>) {
    script != [] && (script[0].Done? || (!script[0].InputClosed? && EndsByContext(script[1..])))
  }

  predicate Ends(script: seq<Select>) {
    exists i :: 0 <= i < |script| && (script[i].InputClosed? || script[i].Done?)
  }

  /** One iteration: what was received comes before what will be. */
  lemma {:induction false} Unroll(script: seq<Select>, at: nat)
    requires at <= |script| && Ends(script[at..])
    ensures at < |script|
    ensures var next := script[at];
            if next.InputClosed? || next.Done? then Input(script[at..]) == [] && (EndsByContext(script[at..]) <==> next.Done?)
            else Ends(script[at + 1..]) && (EndsByContext(script[at..]) <==> EndsByContext(script[at + 1..]))
                 && Input(script[at..]) == (if next.Batch? then next.events else []) + Input(script[at + 1..])
  {
    var rest := script[at..];
    assert rest[0] == script[at] && rest[1..] == script[at + 1..];
    var i :| 0 <= i < |rest| && (rest[i].InputClosed? || rest[i].Done?);
    if i > 0 { assert rest[i] == rest[1..][i - 1]; }
  }

  /** What queue i of n should carry of `es`: its events in order, each under
      the key it was routed by. */
  function Lane(overrides: map<string, seq<string>>, n: nat, i: nat, es: seq<Event>): seq<Event>
    requires n > 0
  {
    if es == [] then []
    else
      var e := es[|es| - 1];
      Lane(overrides, n, i, es[..|es| - 1])
      + (if Keys.QueueOf(Keys.DefaultKey(overrides, e), n) == i then [Keys.Rekey(overrides, e)] else [])
  }

  function RekeyAll(overrides: map<string, seq<string>>, es: seq<Event>): seq<Event> {
    if es == [] then [] else RekeyAll(overrides, es[..|es| - 1]) + [Keys.Rekey(overrides, es[|es| - 1])]
  }

  /** A lane is the queue's part of the stream, as the state machine of a run
      sees it, under the routed keys. */
  lemma {:induction false} LaneIsFilter(c: P.Config, i: nat, es: seq<Event>)
    requires P.ConfigOk(c)
    ensures Lane(c.overrides, c.queues, i, es) == RekeyAll(c.overrides, Filter(P.On(c, i), es))
  {
    hide Keys.QueueOf, Keys.DefaultKey, Keys.Rekey;
    if es != [] {
      var n := |es| - 1;
      LaneIsFilter(c, i, es[..n]);
      assert es == es[..n] + [es[n]];
      FilterAppend(P.On(c, i), es[..n], [es[n]]);
      var f := Filter(P.On(c, i), es[..n]);
      if P.Route(c, es[n]) == i {
        FilterAll(P.On(c, i), [es[n]]);
        assert Filter(P.On(c, i), es) == f + [es[n]];
        assert (f + [es[n]])[..|f|] == f;
      } else {
        FilterNone(P.On(c, i), [es[n]]);
        assert f + [] == f;
        assert RekeyAll(c.overrides, f) + [] == RekeyAll(c.overrides, f);
      }
    }
  }

  lemma {:induction false} LaneSnoc(overrides: map<string, seq<string>>, n: nat, i: nat, es: seq<Event>, e: Event)
    requires n > 0
    ensures Lane(overrides, n, i, es + [e])
         == Lane(overrides, n, i, es)
            + (if Keys.QueueOf(Keys.DefaultKey(overrides, e), n) == i then [Keys.Rekey(overrides, e)] else [])
  {
    assert (es + [e])[..|es|] == es;
  }

  // ---- What the dispatcher does, act by act ----

  /** The two ways it changes its lines: routing an event into a staging
      slice, sending a staging slice to its queue. */
  datatype Act = Staged(e: Event) | Flushed(q: nat)

  /** Staging slices, and all micro-batches sent to each queue. */
  datatype Lines = Lines(staging: seq<seq<Event>>, queues: seq<seq<seq<Event>>>)

  predicate Shaped(n: nat, s: Lines) { |s.staging| == n && |s.queues| == n }

  predicate CanDo(overrides: map<string, seq<string>>, n: nat, size: nat, s: Lines, a: Act)
    requires n > 0 && Shaped(n, s)
  {
    match a
    case Staged(e) => |s.staging[Keys.QueueOf(Keys.DefaultKey(overrides, e), n)]| < size
    case Flushed(q) => q < n && s.staging[q] != []
  }

  function Do(overrides: map<string, seq<string>>, n: nat, s: Lines, a: Act): (t: Lines)
    requires n > 0 && Shaped(n, s) && (a.Flushed? ==> a.q < n)
    ensures Shaped(n, t)
  {
    match a
    case Staged(e) =>
      var q := Keys.QueueOf(Keys.DefaultKey(overrides, e), n);
      s.(staging := s.staging[q := s.staging[q] + [e]])
    case Flushed(q) => Lines(s.staging[q := []], s.queues[q := s.queues[q] + [s.staging[q]]])
  }

  /** The lines after the acts, from empty ones; None if one was not possible. */
  function Perform(overrides: map<string, seq<string>>, n: nat, size: nat, acts: seq<Act>): (r: Option<Lines>)
    requires n > 0
    ensures r.Some? ==> Shaped(n, r.value)
  {
    if acts == [] then Some(Lines(seq(n, _ => []), seq(n, _ => [])))
    else
      var before := Perform(overrides, n, size, acts[..|acts| - 1]);
      var a := acts[|acts| - 1];
      if before.Some? && CanDo(overrides, n, size, before.value, a) then Some(Do(overrides, n, before.value, a)) else None
  }

  function StagedIn(acts: seq<Act>): seq<Event> {
    if acts == [] then []
    else StagedIn(acts[..|acts| - 1]) + (if acts[|acts| - 1].Staged? then [acts[|acts| - 1].e] else [])
  }

  function RekeyBatches(overrides: map<string, seq<string>>, xs: seq<seq<Event>>): seq<seq<Event>> {
    if xs == [] then [] else RekeyBatches(overrides, xs[..|xs| - 1]) + [RekeyAll(overrides, xs[|xs| - 1])]
  }

  /** These lines, under the routed keys, are what the acts make. */
  ghost predicate Made(overrides: map<string, seq<string>>, n: nat, size: nat, acts: seq<Act>,
                       staging: seq<seq<Event>>, queues: seq<seq<seq<Event>>>)
    requires n > 0
  {
    var s := Perform(overrides, n, size, acts);
    && s.Some? && |staging| == n && |queues| == n
    && forall i :: 0 <= i < n ==>
         staging[i] == RekeyAll(overrides, s.value.staging[i]) && queues[i] == RekeyBatches(overrides, s.value.queues[i])
  }

  lemma {:induction false} RekeySnoc(overrides: map<string, seq<string>>, es: seq<Event>, e: Event)
    ensures RekeyAll(overrides, es + [e]) == RekeyAll(overrides, es) + [Keys.Rekey(overrides, e)]
    ensures |RekeyAll(overrides, es)| == |es|
  {
    hide Keys.Rekey;
    assert (es + [e])[..|es|] == es;
    RekeyLength(overrides, es);
  }

  lemma {:induction false} RekeyLength(overrides: map<string, seq<string>>, es: seq<Event>)
    ensures |RekeyAll(overrides, es)| == |es|
  {
    if es != [] { RekeyLength(overrides, es[..|es| - 1]); }
  }

  lemma {:induction false} RekeyBatchesSnoc(overrides: map<string, seq<string>>, xs: seq<seq<Event>>, x: seq<Event>)
    ensures RekeyBatches(overrides, xs + [x]) == RekeyBatches(overrides, xs) + [RekeyAll(overrides, x)]
  {
    assert (xs + [x])[..|xs|] == xs;
  }

  lemma {:induction false} ActsSnoc(overrides: map<string, seq<string>>, n: nat, size: nat, acts: seq<Act>, a: Act)
    requires n > 0 && Perform(overrides, n, size, acts).Some?
    requires CanDo(overrides, n, size, Perform(overrides, n, size, acts).value, a)
    ensures Perform(overrides, n, size, acts + [a]) == Some(Do(overrides, n, Perform(overrides, n, size, acts).value, a))
    ensures StagedIn(acts + [a]) == StagedIn(acts) + (if a.Staged? then [a.e] else [])
  {
    hide Keys.QueueOf, Keys.DefaultKey;
    assert (acts + [a])[..|acts|] == acts;
  }

  lemma MadeStaged(overrides: map<string, seq<string>>, n: nat, size: nat, acts: seq<Act>,
                   staging: seq<seq<Event>>, queues: seq<seq<seq<Event>>>, e: Event, q: nat)
    requires n > 0 && Made(overrides, n, size, acts, staging, queues)
    requires q == Keys.QueueOf(Keys.DefaultKey(overrides, e), n) && |staging[q]| < size
    ensures Made(overrides, n, size, acts + [Staged(e)], staging[q := staging[q] + [Keys.Rekey(overrides, e)]], queues)
    ensures StagedIn(acts + [Staged(e)]) == StagedIn(acts) + [e]
  {
    hide Keys.QueueOf, Keys.DefaultKey, Keys.Rekey, RekeyAll, RekeyBatches, Perform;
    var s := Perform(overrides, n, size, acts).value;
    RekeySnoc(overrides, s.staging[q], e);
    ActsSnoc(overrides, n, size, acts, Staged(e));
  }

  lemma MadeFlushed(overrides: map<string, seq<string>>, n: nat, size: nat, acts: seq<Act>,
                    staging: seq<seq<Event>>, queues: seq<seq<seq<Event>>>, q: nat)
    requires n > 0 && Made(overrides, n, size, acts, staging, queues) && q < n && staging[q] != []
    ensures Made(overrides, n, size, acts + [Flushed(q)], staging[q := []], queues[q := queues[q] + [staging[q]]])
    ensures StagedIn(acts + [Flushed(q)]) == StagedIn(acts)
  {
    hide Keys.QueueOf, Keys.DefaultKey, Keys.Rekey, RekeyAll, RekeyBatches, Perform;
    var s := Perform(overrides, n, size, acts).value;
    RekeyNothing(overrides);
    RekeyLength(overrides, s.staging[q]);
    RekeyBatchesSnoc(overrides, s.queues[q], s.staging[q]);
    ActsSnoc(overrides, n, size, acts, Flushed(q));
    assert StagedIn(acts) + [] == StagedIn(acts);
  }

  lemma RekeyNothing(overrides: map<string, seq<string>>)
    ensures RekeyAll(overrides, []) == [] && RekeyBatches(overrides, []) == []
  {}

  class Dispatcher {
    const overrides: map<string, seq<string>>
    const n: nat
    const flushSize: nat
    const slots: nat
    /** Whether the context ends the n-th blocking send. */
    const cancels: nat -> bool
    var sends: nat
    var staging: seq<seq<Event>>
    /** All micro-batches ever put on each queue, in order. */
    var queues: seq<seq<seq<Event>>>
    var closed: bool
    /** What it did so far. */
    ghost var acts: seq<Act>

    ghost predicate Valid()
      reads this
    {
      && n > 0 && flushSize > 0 && slots >= 2 && |staging| == n && |queues| == n
      && (forall i :: 0 <= i < n ==> |staging[i]| <= flushSize)
      && (forall i, x :: 0 <= i < n && x in queues[i] ==> 0 < |x| <= flushSize)
      && Made(overrides, n, flushSize, acts, staging, queues)
    }

    /** Everything routed to queue i so far. */
    ghost function Routed(i: nat): seq<Event>
      requires Valid() && i < n
      reads this
    {
      Flatten(queues[i]) + staging[i]
    }

    /** Exactly `es` was routed, and every queue carries its lane of it. */
    ghost predicate Carries(es: seq<Event>)
      requires Valid()
      reads this
    {
      StagedIn(acts) == es && forall i :: 0 <= i < n ==> Routed(i) == Lane(overrides, n, i, es)
    }

    constructor (n: int, eventCapacity: int, flushSize: int, overrides: map<string, seq<string>>, cancels: nat -> bool)
      ensures Valid() && Carries([]) && !closed && sends == 0 && this.cancels == cancels
      ensures this.n == Max(n, 1) && this.overrides == overrides
      ensures this.flushSize == if flushSize < 1 then 256 else flushSize
      ensures this.slots == Max(eventCapacity / this.flushSize, 2)
    {
      var count := if n < 1 then 1 else n;
      var size := if flushSize < 1 then 256 else flushSize;
      this.n, this.flushSize, this.overrides, this.cancels := count, size, overrides, cancels;
      this.slots := if eventCapacity / size < 2 then 2 else eventCapacity / size;
      this.staging := seq(count, _ => []);
      this.queues := seq(count, _ => []);
      this.closed, this.sends, this.acts := false, 0, [];
    }

    /** flush: one send of the staged slice, or the context ends first. */
    method Flush(i: nat) returns (ok: bool)
      requires Valid() && i < n
      modifies this`staging, this`queues, this`sends, this`acts
      ensures Valid() && forall j :: 0 <= j < n ==> Routed(j) == old(Routed(j))
      ensures acts == old(acts) + (if ok && old(staging[i]) != [] then [Flushed(i)] else []) && StagedIn(acts) == old(StagedIn(acts))
      ensures ok && old(staging[i]) != [] ==> queues[i] == old(queues[i]) + [old(staging[i])]
      ensures forall j :: 0 <= j < n && j != i ==> staging[j] == old(staging[j]) && queues[j] == old(queues[j])
      ensures if ok then staging[i] == [] else staging[i] == old(staging[i]) && queues[i] == old(queues[i])
      ensures ok == (old(staging[i]) == [] || !cancels(old(sends)))
      ensures sends == old(sends) + if old(staging[i]) == [] then 0 else 1
    {
      hide Made, Flatten, StagedIn;
      if |staging[i]| == 0 { return true; }
      ok := !cancels(sends);
      sends := sends + 1;
      if ok {
        FlattenSnoc(queues[i], staging[i]);
        MadeFlushed(overrides, n, flushSize, acts, staging, queues, i);
        acts := acts + [Flushed(i)];
        queues := queues[i := queues[i] + [staging[i]]];
        staging := staging[i := []];
      }
    }

    method FlushAll(ghost es: seq<Event>) returns (ok: bool)
      requires Valid() && Carries(es)
      modifies this`staging, this`queues, this`sends, this`acts
      ensures Valid() && Carries(es) && old(sends) <= sends
      ensures ok ==> forall i :: 0 <= i < n ==> staging[i] == []
      ensures !ok ==> old(sends) < sends && cancels(sends - 1)
      ensures forall i :: 0 <= i < n ==> |staging[i]| <= |old(staging[i])|
    {
      hide Lane, Flatten, Made, StagedIn;
      var i := 0;
      while i < n
        invariant Valid() && Carries(es) && 0 <= i <= n && old(sends) <= sends
        invariant forall j :: 0 <= j < i ==> staging[j] == []
        invariant forall j :: i <= j < n ==> staging[j] == old(staging[j])
      {
        var sent := Flush(i);
        if !sent { return false; }
        i := i + 1;
      }
      ok := true;
    }

    /** d.staging[i] = append(d.staging[i], e) */
    method Append(i: nat, routed: Event, ghost e: Event, ghost es: seq<Event>)
      requires Valid() && Carries(es) && i < n && forall j :: 0 <= j < n ==> |staging[j]| < flushSize
      requires i == Keys.QueueOf(Keys.DefaultKey(overrides, e), n) && routed == Keys.Rekey(overrides, e)
      modifies this`staging, this`acts
      ensures Valid() && Carries(es + [e])
      ensures forall j :: 0 <= j < n && j != i ==> |staging[j]| < flushSize
    {
      hide Keys.QueueOf, Keys.DefaultKey, Keys.Rekey, Lane, Flatten, Made, StagedIn;
      ghost var before := staging;
      MadeStaged(overrides, n, flushSize, acts, staging, queues, e, i);
      staging, acts := staging[i := staging[i] + [routed]], acts + [Staged(e)];
      forall j | 0 <= j < n ensures Routed(j) == Lane(overrides, n, j, es + [e]) {
        LaneSnoc(overrides, n, j, es, e);
        assert Flatten(queues[j]) + before[j] == Lane(overrides, n, j, es);
        if j == i { assert Routed(j) == Flatten(queues[j]) + before[j] + [routed]; }
      }
    }

    /** The body of the routing loop for one event. */
    method Stage(e: Event, ghost es: seq<Event>) returns (ok: bool)
      requires Valid() && Carries(es) && forall i :: 0 <= i < n ==> |staging[i]| < flushSize
      modifies this`staging, this`queues, this`sends, this`acts
      ensures Valid() && Carries(es + [e]) && old(sends) <= sends
      ensures !ok ==> old(sends) < sends && cancels(sends - 1)
      ensures ok ==> forall i :: 0 <= i < n ==> |staging[i]| < flushSize
    {
      hide Keys.QueueOf, Keys.DefaultKey, Keys.Rekey, Lane, Flatten, Made, StagedIn;
      var i, routed := Keys.Pick(overrides, n, e);
      Append(i, routed, e, es);
      ok := true;
      if |staging[i]| >= flushSize { ok := Flush(i); }
    }

    /** Run: whatever the selects deliver, every queue carries a prefix of its
        events in order under their keys; a nil return means all of them, with
        nothing staged, and Run returns nil unless the context ended a send or
        the loop. The queues are closed on every return. */
    method Run(script: seq<Select>) returns (err: Option<Error>, ghost taken: nat)
      requires Valid() && Carries([]) && Ends(script) && !closed
      requires forall i :: 0 <= i < n ==> staging[i] == []
      modifies this
      ensures Valid() && closed && taken <= |Input(script)| && Carries(Input(script)[..taken])
      ensures err.None? ==> taken == |Input(script)| && forall i :: 0 <= i < n ==> staging[i] == []
      ensures err.Some? ==> err.value.Cancelled? && (EndsByContext(script) || (old(sends) < sends && cancels(sends - 1)))
      ensures EndsByContext(script) ==> err.Some?
    {
      err, taken := RunLoop(script);
      closed := true;
    }

    method RunLoop(script: seq<Select>) returns (err: Option<Error>, ghost taken: nat)
      requires Valid() && Carries([]) && Ends(script)
      requires forall i :: 0 <= i < n ==> staging[i] == []
      modifies this`staging, this`queues, this`sends, this`acts
      ensures Valid() && taken <= |Input(script)| && Carries(Input(script)[..taken])
      ensures err.None? ==> taken == |Input(script)| && forall i :: 0 <= i < n ==> staging[i] == []
      ensures err.Some? ==> err.value.Cancelled? && (EndsByContext(script) || (old(sends) < sends && cancels(sends - 1)))
      ensures EndsByContext(script) ==> err.Some?
    {
      hide Input, Ends, EndsByContext, Lane, Flatten, Made, StagedIn;
      ghost var all := Input(script);
      var at := 0;
      taken := 0;
      assert script[0..] == script && all[..0] == [] && [] + all == all;
      while true
        invariant Valid() && 0 <= at <= |script| && Ends(script[at..])
        invariant forall i :: 0 <= i < n ==> |staging[i]| < flushSize
        invariant taken <= |all| && Carries(all[..taken]) && all == all[..taken] + Input(script[at..])
        invariant old(sends) <= sends && (EndsByContext(script[at..]) <==> EndsByContext(script))
        decreases |script| - at
      {
        Unroll(script, at);
        var next := script[at];
        if next.Done? { return Some(Cancelled), taken; }
        var ok: bool;
        ok, taken := Handle(next, all, taken, if next.InputClosed? then [] else Input(script[at + 1..]));
        if !ok { return Some(Cancelled), taken; }
        if next.InputClosed? { return None, taken; }
        at := at + 1;
      }
    }

    /** One received value: its events are routed, and nothing stays staged
        when the input pauses, at a tick and when the input closes. */
    method Handle(next: Select, ghost all: seq<Event>, ghost done: nat, ghost later: seq<Event>)
      returns (ok: bool, ghost taken: nat)
      requires Valid() && !next.Done? && done <= |all| && Carries(all[..done])
      requires all == all[..done] + (if next.Batch? then next.events else []) + later
      requires forall i :: 0 <= i < n ==> |staging[i]| < flushSize
      modifies this`staging, this`queues, this`sends, this`acts
      ensures old(sends) <= sends && (!ok ==> old(sends) < sends && cancels(sends - 1))
      ensures Valid() && done <= taken <= |all| && Carries(all[..taken])
      ensures ok ==> all == all[..taken] + later && forall i :: 0 <= i < n ==> |staging[i]| < flushSize
      ensures ok && (next.Batch? ==> next.idle) ==> forall i :: 0 <= i < n ==> staging[i] == []
    {
      hide Lane, Flatten, Made, StagedIn;
      ok, taken := true, done;
      if next.Batch? { ok, taken := StageAll(next.events, all, done, later); }
      if ok && (next.Batch? ==> next.idle) { ok := FlushAll(all[..taken]); }
    }

    /** The routing loop over one received batch. */
    method StageAll(events: seq<Event>, ghost all: seq<Event>, ghost done: nat, ghost later: seq<Event>)
      returns (ok: bool, ghost taken: nat)
      requires Valid() && done <= |all| && Carries(all[..done]) && all == all[..done] + events + later
      requires forall i :: 0 <= i < n ==> |staging[i]| < flushSize
      modifies this`staging, this`queues, this`sends, this`acts
      ensures old(sends) <= sends && (!ok ==> old(sends) < sends && cancels(sends - 1))
      ensures Valid() && done <= taken <= |all| && Carries(all[..taken])
      ensures ok ==> taken == done + |events| && all == all[..taken] + later
      ensures ok ==> forall i :: 0 <= i < n ==> |staging[i]| < flushSize
    {
      hide Lane, Flatten, Made, StagedIn;
      var k := 0;
      taken := done;
      while k < |events|
        invariant Valid() && 0 <= k <= |events| && old(sends) <= sends && taken == done + k && Carries(all[..taken])
        invariant forall i :: 0 <= i < n ==> |staging[i]| < flushSize
      {
        assert all[..taken + 1] == all[..taken] + [events[k]];
        var staged := Stage(events[k], all[..taken]);
        k, taken := k + 1, taken + 1;
        if !staged { return false, taken; }
      }
      ok := true;
    }
  }
}
