/** recordLastEvent of pkg/hyperloop/hyperloop.go: unboundedly many ack
    callbacks raise one atomic to the newest acknowledged event time. */
module LastEvent {
  /** A call: it has not loaded, it has loaded `cur`, or it has returned. */
  datatype Phase = Ready | Loaded(cur: int) | Returned

  datatype Call = Call(ms: int, phase: Phase)

  datatype State = State(last: int, calls: seq<Call>)

  datatype Step = Invoke(ms: int) | Load(i: nat) | Try(i: nat)

  predicate Enabled(s: State, step: Step) {
    match step
    case Invoke(_) => true
    case Load(i) => i < |s.calls| && s.calls[i].phase.Ready?
    case Try(i) => i < |s.calls| && s.calls[i].phase.Loaded?
  }

  /** Try is the loop's condition: return if ms is not newer than what was
      loaded, else compare-and-swap, and load again if that fails. */
  function Apply(s: State, step: Step): State
    requires Enabled(s, step)
  {
    match step
    case Invoke(ms) => s.(calls := s.calls + [Call(ms, if ms <= 0 then Returned else Ready)])
    case Load(i) => s.(calls := s.calls[i := s.calls[i].(phase := Loaded(s.last))])
    case Try(i) =>
      var c := s.calls[i];
      if c.ms <= c.phase.cur then s.(calls := s.calls[i := c.(phase := Returned)])
      else if s.last == c.phase.cur then State(c.ms, s.calls[i := c.(phase := Returned)])
      else s.(calls := s.calls[i := c.(phase := Ready)])
  }

  /** The maximum of a starting value and all positive times. */
  function Newest(first: int, calls: seq<Call>): int {
    if calls == [] then first
    else
      var rest := Newest(first, calls[..|calls| - 1]);
      var ms := calls[|calls| - 1].ms;
      if ms > 0 && ms > rest then ms else rest
  }

  ghost predicate Valid(first: int, s: State) {
    && first <= s.last
    && (s.last == first || exists i :: 0 <= i < |s.calls| && s.calls[i].ms == s.last && s.calls[i].ms > 0)
    && (forall i :: 0 <= i < |s.calls| ==> CallOk(s, s.calls[i]))
  }

  ghost predicate CallOk(s: State, c: Call) {
    && (c.phase.Returned? ==> c.ms <= 0 || c.ms <= s.last)
    && (!c.phase.Returned? ==> c.ms > 0)
    && (c.phase.Loaded? ==> c.phase.cur <= s.last)
  }

  /** Every step keeps the invariant and never lowers the value; a failed
      compare-and-swap means another call has raised it meanwhile. */
  lemma StepKeepsValid(first: int, s: State, step: Step)
    requires Valid(first, s) && Enabled(s, step)
    ensures Valid(first, Apply(s, step)) && s.last <= Apply(s, step).last
    ensures step.Try? && Apply(s, step).calls[step.i].phase.Ready? ==> s.calls[step.i].phase.cur < s.last
  {
    var t := Apply(s, step);
    forall i | 0 <= i < |t.calls| ensures CallOk(t, t.calls[i]) {
      if i < |s.calls| { assert CallOk(s, s.calls[i]); }
    }
    if t.last != first {
      if t.last == s.last {
        var i :| 0 <= i < |s.calls| && s.calls[i].ms == s.last && s.calls[i].ms > 0;
        assert t.calls[i].ms == s.last;
      } else {
        assert t.calls[step.i].ms == t.last;
      }
    }
  }

  ghost predicate IsRun(first: int, ss: seq<State>) {
    && ss != [] && ss[0] == State(first, [])
    && forall i :: 0 <= i < |ss| - 1 ==> Follows(ss[i], ss[i + 1])
  }

  ghost predicate Follows(s: State, t: State) { exists step :: Enabled(s, step) && t == Apply(s, step) }

  lemma {:induction false} RunIsValid(first: int, ss: seq<State>, m: nat)
    requires IsRun(first, ss) && m < |ss|
    ensures Valid(first, ss[m]) && forall j :: 0 <= j <= m ==> ss[j].last <= ss[m].last
  {
    if m > 0 {
      RunIsValid(first, ss, m - 1);
      assert Follows(ss[m - 1], ss[m]);
      var step :| Enabled(ss[m - 1], step) && ss[m] == Apply(ss[m - 1], step);
      StepKeepsValid(first, ss[m - 1], step);
    }
  }

  lemma {:induction false} NewestBounds(first: int, calls: seq<Call>)
    ensures first <= Newest(first, calls)
    ensures forall i :: 0 <= i < |calls| && calls[i].ms > 0 ==> calls[i].ms <= Newest(first, calls)
    ensures Newest(first, calls) == first || exists i :: 0 <= i < |calls| && calls[i].ms > 0 && calls[i].ms == Newest(first, calls)
  {
    if calls != [] {
      var n := |calls| - 1;
      var front := calls[..n];
      NewestBounds(first, front);
      forall i | 0 <= i < |calls| && calls[i].ms > 0 ensures calls[i].ms <= Newest(first, calls) {
        if i < n { assert front[i] == calls[i]; }
      }
      if Newest(first, calls) != first && Newest(first, calls) == Newest(first, front) {
        var i :| 0 <= i < |front| && front[i].ms > 0 && front[i].ms == Newest(first, front);
        assert calls[i] == front[i];
      }
    }
  }

  /** CONCURRENT MAXIMUM. In every interleaving of any number of callbacks the
      value never decreases, and when all have returned it is the maximum of
      its starting value and all positive times reported. */
  lemma ConcurrentMaximum(first: int, ss: seq<State>)
    requires IsRun(first, ss)
    ensures forall i, j :: 0 <= i <= j < |ss| ==> ss[i].last <= ss[j].last
    ensures var s := ss[|ss| - 1];
            (forall i :: 0 <= i < |s.calls| ==> s.calls[i].phase.Returned?) ==> s.last == Newest(first, s.calls)
  {
    forall i, j | 0 <= i <= j < |ss| ensures ss[i].last <= ss[j].last { RunIsValid(first, ss, j); }
    var s := ss[|ss| - 1];
    RunIsValid(first, ss, |ss| - 1);
    NewestBounds(first, s.calls);
    forall i | 0 <= i < |s.calls| ensures CallOk(s, s.calls[i]) {}
  }
}
