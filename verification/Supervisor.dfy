/** pkg/server/server.go: the manager's supervised restart loop, with Start,
    Stop and run exits interleaved arbitrarily. */
module Supervisor {
  import opened Prelude

  // ---- Backoff ----

  const MINUTE: int := 60_000_000_000
  const TWO_TO_THE_62: int := 0x4000_0000_0000_0000
  const TWO_TO_THE_64: int := 0x1_0000_0000_0000_0000

  /** Two's complement of 64 bits: a time.Duration. */
  function Wrap64(x: int): int {
    var r := x % TWO_TO_THE_64;
    if r >= 2 * TWO_TO_THE_62 then r - TWO_TO_THE_64 else r
  }

  predicate IsDuration(x: int) { -2 * TWO_TO_THE_62 <= x < 2 * TWO_TO_THE_62 }

  function NextBackoff(b: int): int {
    var d := Wrap64(b * 2);
    if d > MINUTE then MINUTE else d
  }

  /** The wait before restart k+1. */
  function Backoff(initial: int, k: nat): int {
    if k == 0 then initial else NextBackoff(Backoff(initial, k - 1))
  }

  lemma BackoffNext(initial: int, k: nat)
    ensures Backoff(initial, k + 1) == NextBackoff(Backoff(initial, k)) && Backoff(initial, 0) == initial
  {}

  function Pow2(k: nat): nat { if k == 0 then 1 else 2 * Pow2(k - 1) }

  lemma DoubleFits(b: int)
    requires 0 <= b < TWO_TO_THE_62
    ensures NextBackoff(b) == Min(b * 2, MINUTE)
  {
    assert b * 2 % TWO_TO_THE_64 == b * 2;
  }

  lemma {:induction false} BackoffIsCapped(initial: int, k: nat)
    requires 0 <= initial < TWO_TO_THE_62 && k >= 1
    ensures Backoff(initial, k) == Min(initial * Pow2(k), MINUTE)
  {
    if k == 1 {
      assert Backoff(initial, 0) == initial && Pow2(1) == 2;
      DoubleFits(initial);
    } else {
      BackoffIsCapped(initial, k - 1);
      var d := initial * Pow2(k - 1);
      assert d >= 0 && initial * Pow2(k) == 2 * d;
      DoubleFits(Min(d, MINUTE));
    }
  }

  lemma BackoffIsDuration(initial: int, k: nat)
    requires k >= 1
    ensures IsDuration(Backoff(initial, k))
  {}

  lemma {:induction false} Pow2Adds(a: nat, b: nat)
    ensures Pow2(a + b) == Pow2(a) * Pow2(b)
    decreases b
  {
    if b > 0 {
      Pow2Adds(a, b - 1);
      assert Pow2(a + b) == 2 * Pow2(a + b - 1) && Pow2(b) == 2 * Pow2(b - 1);
    }
  }

  lemma Pow2Of64()
    ensures Pow2(64) == TWO_TO_THE_64
  {
    assert Pow2(8) == 256;
    Pow2Adds(8, 8);
    Pow2Adds(16, 16);
    Pow2Adds(32, 32);
  }

  /** The k-th backoff is min(initial * 2^k, one minute) for every k >= 1 if
      and only if the initial one is not negative and its first doubling fits
      into a duration. */
  lemma BackoffFormula(initial: int)
    requires IsDuration(initial)
    ensures (forall k: nat :: k >= 1 ==> Backoff(initial, k) == Min(initial * Pow2(k), MINUTE)) <==> 0 <= initial < TWO_TO_THE_62
  {
    if 0 <= initial < TWO_TO_THE_62 {
      forall k: nat | k >= 1 ensures Backoff(initial, k) == Min(initial * Pow2(k), MINUTE) { BackoffIsCapped(initial, k); }
    } else if initial >= 0 {
      assert initial * 2 % TWO_TO_THE_64 == initial * 2;
      assert Backoff(initial, 0) == initial && Pow2(0) == 1;
      assert Pow2(1) == 2 * Pow2(0);
      assert Backoff(initial, 1) < 0 && initial * Pow2(1) > 0;
    } else {
      // After 64 doublings a negative duration is no duration any more.
      Pow2Of64();
      BackoffIsDuration(initial, 64);
      assert initial * Pow2(64) <= -TWO_TO_THE_64;
    }
  }

  // ---- The lifecycle of one hyperloop ----

  datatype Phase = InRun | Waiting | Exited

  /** One effective Start: its goroutine. `runs` counts calls of Run, `waits`
      the backoffs waited for; `failures` says of each call that has returned
      whether it failed. */
  datatype Loop = Loop(phase: Phase, attempt: nat, backoff: int, cancelled: bool, runs: nat, waits: seq<int>,
                       failures: seq<bool>)

  /** A Stop call; `seen` is the loop whose cancel and done it read. */
  datatype Stop = Called | Read(seen: Option<nat>) | Signalled(loop: nat) | ReturnedNil(of: Option<nat>) | TimedOut

  /** `current` is the loop l.done belongs to. */
  datatype State = State(loops: seq<Loop>, current: Option<nat>, stops: seq<Stop>)

  datatype Policy = Policy(maxRestarts: int, initial: int)

  const INITIAL: State := State([], None, [])

  datatype Step = Start | RunReturns(i: nat, failed: bool) | WaitEnds(i: nat) | WaitCancelled(i: nat)
                | StopCalled | StopReads(s: nat) | StopCancels(s: nat) | StopReturns(s: nat) | StopTimesOut(s: nat)

  predicate Alive(l: Loop) { !l.phase.Exited? }

  predicate Enabled(s: State, step: Step) {
    match step
    case Start => s.current.None? || s.current.value < |s.loops|
    case RunReturns(i, _) => i < |s.loops| && s.loops[i].phase.InRun?
    case WaitEnds(i) => i < |s.loops| && s.loops[i].phase.Waiting?
    case WaitCancelled(i) => i < |s.loops| && s.loops[i].phase.Waiting? && s.loops[i].cancelled
    case StopCalled => true
    case StopReads(c) => c < |s.stops| && s.stops[c].Called?
    case StopCancels(c) => c < |s.stops| && s.stops[c].Read? && (s.stops[c].seen.Some? ==> s.stops[c].seen.value < |s.loops|)
    case StopReturns(c) => c < |s.stops| && s.stops[c].Signalled? && s.stops[c].loop < |s.loops| && !Alive(s.loops[s.stops[c].loop])
    case StopTimesOut(c) => c < |s.stops| && s.stops[c].Signalled?
  }

  /** Run returned: exit, or wait for the next attempt. */
  function AfterRun(p: Policy, l: Loop, failed: bool): Loop {
    if !failed || l.cancelled || l.attempt >= p.maxRestarts then l.(phase := Exited)
    else l.(phase := Waiting, waits := l.waits + [l.backoff])
  }

  function NextTry(l: Loop): Loop {
    l.(phase := InRun, attempt := l.attempt + 1, backoff := NextBackoff(l.backoff), runs := l.runs + 1)
  }

  function Apply(p: Policy, s: State, step: Step): State
    requires Enabled(s, step)
  {
    match step
    case Start =>
      if s.current.Some? && Alive(s.loops[s.current.value]) then s
      else s.(loops := s.loops + [Loop(InRun, 0, p.initial, false, 1, [], [])], current := Some(|s.loops|))
    case RunReturns(i, failed) =>
      s.(loops := s.loops[i := AfterRun(p, s.loops[i].(failures := s.loops[i].failures + [failed]), failed)])
    case WaitEnds(i) => s.(loops := s.loops[i := NextTry(s.loops[i])])
    case WaitCancelled(i) => s.(loops := s.loops[i := s.loops[i].(phase := Exited)])
    case StopCalled => s.(stops := s.stops + [Called])
    case StopReads(c) => s.(stops := s.stops[c := Read(s.current)])
    case StopCancels(c) =>
      var seen := s.stops[c].seen;
      if seen.None? then s.(stops := s.stops[c := ReturnedNil(None)])
      else s.(loops := s.loops[seen.value := s.loops[seen.value].(cancelled := true)], stops := s.stops[c := Signalled(seen.value)])
    case StopReturns(c) => s.(stops := s.stops[c := ReturnedNil(Some(s.stops[c].loop))])
    case StopTimesOut(c) => s.(stops := s.stops[c := TimedOut])
  }

  // ---- Invariant ----

  ghost predicate LoopOk(p: Policy, l: Loop) {
    && l.runs == l.attempt + 1 && l.attempt <= Max(p.maxRestarts, 0)
    && (l.phase.Waiting? ==> l.attempt < p.maxRestarts)
    && l.backoff == Backoff(p.initial, l.attempt)
    && l.attempt <= |l.waits| <= l.attempt + 1
    && (l.phase.InRun? ==> |l.waits| == l.attempt) && (l.phase.Waiting? ==> |l.waits| == l.attempt + 1)
    && (forall k :: 0 <= k < |l.waits| ==> l.waits[k] == Backoff(p.initial, k))
    && |l.failures| == (if l.phase.InRun? then l.attempt else l.runs)
    && (forall k :: 0 <= k < l.attempt ==> l.failures[k])
    && (l.phase.Waiting? ==> l.failures[l.attempt])
    && (l.phase.Exited? ==> LeftRightly(p, l))
  }

  /** A loop may exit after a Run that succeeded, or failed under a cancelled
      context or with the budget spent, or in a wait under a cancelled context. */
  predicate LeftRightly(p: Policy, l: Loop) {
    && l.runs == |l.failures| == l.attempt + 1
    && (if |l.waits| == l.attempt then !l.failures[l.attempt] || l.cancelled || l.attempt >= p.maxRestarts
        else l.failures[l.attempt] && l.cancelled && l.attempt < p.maxRestarts)
  }

  ghost predicate StopOk(s: State, c: Stop) {
    match c
    case Read(seen) => seen.Some? ==> seen.value < |s.loops|
    case Signalled(i) => i < |s.loops| && s.loops[i].cancelled
    case ReturnedNil(of) => of.Some? ==> of.value < |s.loops| && !Alive(s.loops[of.value])
    case _ => true
  }

  ghost predicate Valid(p: Policy, s: State) {
    && (s.current.Some? ==> s.current.value < |s.loops|)
    && (forall i :: 0 <= i < |s.loops| ==> LoopOk(p, s.loops[i]))
    && (forall i :: 0 <= i < |s.loops| && Alive(s.loops[i]) ==> s.current == Some(i))
    && (forall c :: 0 <= c < |s.stops| ==> StopOk(s, s.stops[c]))
  }

  lemma AfterRunIsOk(p: Policy, l: Loop, failed: bool)
    requires LoopOk(p, l) && l.phase.InRun?
    ensures LoopOk(p, AfterRun(p, l.(failures := l.failures + [failed]), failed))
  {
    hide Backoff;
  }

  lemma NextTryIsOk(p: Policy, l: Loop)
    requires LoopOk(p, l) && l.phase.Waiting?
    ensures LoopOk(p, NextTry(l))
  {
    hide Backoff, NextBackoff;
    BackoffNext(p.initial, l.attempt);
  }

  lemma LeavesOk(p: Policy, l: Loop)
    requires LoopOk(p, l)
    ensures LoopOk(p, l.(cancelled := true)) && (l.phase.Waiting? && l.cancelled ==> LoopOk(p, l.(phase := Exited)))
  {
    hide Backoff;
  }

  lemma FirstIsOk(p: Policy)
    ensures LoopOk(p, Loop(InRun, 0, p.initial, false, 1, [], []))
  {}

  lemma StepKeepsLoops(p: Policy, s: State, step: Step)
    requires Valid(p, s) && Enabled(s, step)
    ensures var t := Apply(p, s, step);
            && |s.loops| <= |t.loops|
            && (forall i :: 0 <= i < |t.loops| ==> LoopOk(p, t.loops[i]))
            && (forall i :: 0 <= i < |s.loops| && Alive(t.loops[i]) ==> Alive(s.loops[i]))
            && (forall i :: 0 <= i < |s.loops| && s.loops[i].cancelled ==> t.loops[i].cancelled)
  {
    hide StopOk, LoopOk, AfterRun, NextTry;
    FirstIsOk(p);
    AfterRunLeaves(p);
    forall i | 0 <= i < |s.loops| ensures LoopOk(p, s.loops[i].(cancelled := true)) { LeavesOk(p, s.loops[i]); }
    match step
    case RunReturns(i, failed) => AfterRunIsOk(p, s.loops[i], failed);
    case WaitEnds(i) => NextTryIsOk(p, s.loops[i]);
    case WaitCancelled(i) => LeavesOk(p, s.loops[i]);
    case _ =>
  }

  lemma AfterRunLeaves(p: Policy)
    ensures forall l, failed :: AfterRun(p, l, failed).cancelled == l.cancelled
    ensures forall l :: NextTry(l).cancelled == l.cancelled
  {
    hide NextBackoff;
  }

  lemma StepKeepsValid(p: Policy, s: State, step: Step)
    requires Valid(p, s) && Enabled(s, step)
    ensures Valid(p, Apply(p, s, step))
  {
    hide LoopOk, NextBackoff, Backoff;
    var t := Apply(p, s, step);
    StepKeepsLoops(p, s, step);
    forall c | 0 <= c < |t.stops| ensures StopOk(t, t.stops[c]) {
      if c < |s.stops| { assert StopOk(s, s.stops[c]); }
    }
  }

  ghost predicate Follows(p: Policy, s: State, t: State) { exists step :: Enabled(s, step) && t == Apply(p, s, step) }

  ghost predicate IsHistory(p: Policy, ss: seq<State>) {
    && ss != [] && ss[0] == INITIAL
    && forall i :: 0 <= i < |ss| - 1 ==> Follows(p, ss[i], ss[i + 1])
  }

  lemma {:induction false} HistoryIsValid(p: Policy, ss: seq<State>)
    requires IsHistory(p, ss)
    ensures Valid(p, ss[|ss| - 1])
    decreases |ss|
  {
    hide Valid, Enabled, Apply;
    var n := |ss| - 1;
    if n == 0 {
      InitialIsValid(p);
    } else {
      HistoryIsValid(p, ss[..n]);
      assert Follows(p, ss[n - 1], ss[n]);
      var step :| Enabled(ss[n - 1], step) && ss[n] == Apply(p, ss[n - 1], step);
      StepKeepsValid(p, ss[n - 1], step);
    }
  }

  lemma InitialIsValid(p: Policy)
    ensures Valid(p, INITIAL)
  {}

  /** Every call of Run but the last failed; the last is under way, or it
      failed and its wait is, or the loop had reason to exit. */
  predicate Restarted(p: Policy, l: Loop) {
    && l.runs >= 1 && |l.failures| == (if l.phase.InRun? then l.runs - 1 else l.runs)
    && (forall k :: 0 <= k < l.runs - 1 ==> l.failures[k])
    && match l.phase
       case InRun => true
       case Waiting => l.failures[l.runs - 1] && l.runs <= p.maxRestarts
       case Exited => !l.failures[l.runs - 1] || l.cancelled || l.runs == Max(p.maxRestarts, 0) + 1
  }

  /** SUPERVISOR SAFETY, over all interleavings of Start, Stop and run exits:
      at most one loop is alive; a Stop that returned nil observed no loop or
      one that has exited; a loop calls Run at most max(0, MaxRestarts) + 1
      times, and its k-th wait is the k-th backoff. A loop calls Run again
      after every failure: all calls but its last one failed, and one that has
      exited saw the last succeed, was cancelled, or has spent its budget. */
  lemma SupervisorIsSafe(p: Policy, ss: seq<State>)
    requires IsHistory(p, ss)
    ensures var s := ss[|ss| - 1];
            && (forall i, j :: 0 <= i < |s.loops| && 0 <= j < |s.loops| && Alive(s.loops[i]) && Alive(s.loops[j]) ==> i == j)
            && (forall c :: 0 <= c < |s.stops| && s.stops[c].ReturnedNil? && s.stops[c].of.Some? ==>
                  s.stops[c].of.value < |s.loops| && !Alive(s.loops[s.stops[c].of.value]))
            && (forall i :: 0 <= i < |s.loops| ==> s.loops[i].runs <= Max(p.maxRestarts, 0) + 1)
            && (forall i, k :: 0 <= i < |s.loops| && 0 <= k < |s.loops[i].waits| ==> s.loops[i].waits[k] == Backoff(p.initial, k))
            && (forall i :: 0 <= i < |s.loops| ==> Restarted(p, s.loops[i]))
  {
    hide Backoff;
    HistoryIsValid(p, ss);
    var s := ss[|ss| - 1];
    forall c | 0 <= c < |s.stops| ensures StopOk(s, s.stops[c]) {}
    forall i | 0 <= i < |s.loops| ensures LoopOk(p, s.loops[i]) {}
  }

  /** This Stop call, if it answers nil, answers for loop j or a later one. */
  predicate Concerns(s: State, c: nat, j: nat) {
    && c < |s.stops| && j < |s.loops|
    && match s.stops[c]
       case Called => s.current.Some? && s.current.value >= j
       case Read(seen) => seen.Some? && seen.value >= j
       case Signalled(i) => i >= j
       case ReturnedNil(of) => of.Some? && of.value >= j
       case TimedOut => true
  }

  lemma StepKeepsConcern(p: Policy, s: State, step: Step, c: nat, j: nat)
    requires Valid(p, s) && Enabled(s, step) && Concerns(s, c, j)
    ensures Concerns(Apply(p, s, step), c, j)
  {
    hide LoopOk, StopOk, AfterRun, NextTry;
  }

  lemma {:induction false} ConcernStays(p: Policy, ss: seq<State>, i: nat, c: nat, j: nat)
    requires IsHistory(p, ss) && i < |ss| && Concerns(ss[i], c, j)
    ensures Concerns(ss[|ss| - 1], c, j)
    decreases |ss|
  {
    hide Valid, Enabled, Apply, Concerns;
    var n := |ss| - 1;
    if i < n {
      ConcernStays(p, ss[..n], i, c, j);
      HistoryIsValid(p, ss[..n]);
      assert Follows(p, ss[n - 1], ss[n]);
      var step :| Enabled(ss[n - 1], step) && ss[n] == Apply(p, ss[n - 1], step);
      StepKeepsConcern(p, ss[n - 1], step, c, j);
    }
  }

  /** STOP STOPS. A Stop that was called while loop j was there, and later
      returned nil, returned after that loop and every earlier one had exited. */
  lemma StopStops(p: Policy, ss: seq<State>, i: nat, c: nat, j: nat)
    requires IsHistory(p, ss) && i < |ss| && c < |ss[i].stops| && ss[i].stops[c] == Called && j < |ss[i].loops|
    requires c < |ss[|ss| - 1].stops| && ss[|ss| - 1].stops[c].ReturnedNil?
    ensures var s := ss[|ss| - 1]; forall k :: 0 <= k <= j ==> k < |s.loops| && s.loops[k].phase.Exited?
  {
    hide LoopOk;
    PrefixIsValid(p, ss, i);
    HistoryIsValid(p, ss);
    CurrentIsLast(p, ss, i);
    ConcernStays(p, ss, i, c, j);
    CurrentIsLast(p, ss, |ss| - 1);
    var s := ss[|ss| - 1];
    assert StopOk(s, s.stops[c]);
  }

  lemma PrefixIsValid(p: Policy, ss: seq<State>, i: nat)
    requires IsHistory(p, ss) && i < |ss|
    ensures Valid(p, ss[i]) && IsHistory(p, ss[..i + 1])
  {
    hide Valid, Follows;
    var front := ss[..i + 1];
    forall x | 0 <= x < |front| - 1 ensures Follows(p, front[x], front[x + 1]) { assert Follows(p, ss[x], ss[x + 1]); }
    HistoryIsValid(p, front);
  }

  /** l.done belongs to the loop started last. */
  lemma {:induction false} CurrentIsLast(p: Policy, ss: seq<State>, i: nat)
    requires IsHistory(p, ss) && i < |ss|
    ensures ss[i].current == if ss[i].loops == [] then None else Some(|ss[i].loops| - 1)
  {
    hide Valid, AfterRun, NextTry;
    if i > 0 {
      CurrentIsLast(p, ss, i - 1);
      assert Follows(p, ss[i - 1], ss[i]);
    }
  }

  /** A loop that exited stays exited: after a nil Stop only a later Start
      can bring the hyperloop back. */
  lemma ExitIsFinal(p: Policy, s: State, step: Step, i: nat)
    requires Valid(p, s) && Enabled(s, step) && i < |s.loops| && !Alive(s.loops[i])
    ensures !Alive(Apply(p, s, step).loops[i])
    ensures !step.Start? && (forall j :: 0 <= j < |s.loops| ==> !Alive(s.loops[j])) ==>
              forall j :: 0 <= j < |Apply(p, s, step).loops| ==> !Alive(Apply(p, s, step).loops[j])
  {
    StepKeepsLoops(p, s, step);
  }

  // ---- The code ----

  /** What happens in attempt k: whether Run fails, whether the context has
      ended when it returns, and whether the context ends the wait after it. */
  datatype Attempt = Attempt(failed: bool, ended: bool, waitEnds: bool)

  /** The goroutine stops trying after attempt k, before its wait. */
  predicate Stops(p: Policy, plan: nat -> Attempt, k: nat) {
    !plan(k).failed || plan(k).ended || k >= p.maxRestarts
  }

  /** Attempt k is followed by another one. */
  predicate Retries(p: Policy, plan: nat -> Attempt, k: nat) { !Stops(p, plan, k) && !plan(k).waitEnds }

  /** Run is called until an attempt is not followed by another one, and the
      k-th backoff is waited for after the k-th failure. */
  ghost predicate Plays(p: Policy, plan: nat -> Attempt, runs: nat, waits: seq<int>) {
    && runs >= 1 && !Retries(p, plan, runs - 1) && (forall k :: 0 <= k < runs - 1 ==> Retries(p, plan, k))
    && |waits| == (if Stops(p, plan, runs - 1) then runs - 1 else runs)
    && forall k :: 0 <= k < |waits| ==> waits[k] == Backoff(p.initial, k)
  }

  /** The goroutine of Start. */
  method Supervise(p: Policy, plan: nat -> Attempt) returns (runs: nat, waits: seq<int>)
    ensures 1 <= runs <= Max(p.maxRestarts, 0) + 1
    ensures Plays(p, plan, runs, waits)
  {
    hide Backoff, NextBackoff;
    var backoff, attempt := p.initial, 0;
    runs, waits := 0, [];
    BackoffNext(p.initial, 0);
    while true
      invariant runs == attempt == |waits| && 0 <= attempt <= Max(p.maxRestarts, 0)
      invariant backoff == Backoff(p.initial, attempt)
      invariant forall k :: 0 <= k < attempt ==> Retries(p, plan, k)
      invariant forall k :: 0 <= k < |waits| ==> waits[k] == Backoff(p.initial, k)
      decreases p.maxRestarts - attempt
    {
      var now := plan(attempt);
      runs := runs + 1;
      if !now.failed || now.ended { return; }
      if attempt >= p.maxRestarts { return; }
      waits := waits + [backoff];
      if now.waitEnds { return; }
      BackoffNext(p.initial, attempt);
      backoff := NextBackoff(backoff);
      attempt := attempt + 1;
    }
  }

  // ---- The code's loop and the machine's ----

  ghost predicate Reaches(p: Policy, s: State) { exists ss :: IsHistory(p, ss) && ss[|ss| - 1] == s }

  lemma ReachesNext(p: Policy, s: State, step: Step)
    requires Reaches(p, s) && Enabled(s, step)
    ensures Reaches(p, Apply(p, s, step))
  {
    hide Enabled, Apply;
    var ss :| IsHistory(p, ss) && ss[|ss| - 1] == s;
    var t := Apply(p, s, step);
    var ts := ss + [t];
    forall i | 0 <= i < |ts| - 1 ensures Follows(p, ts[i], ts[i + 1]) {
      if i < |ss| - 1 { assert Follows(p, ss[i], ss[i + 1]); }
    }
    assert IsHistory(p, ts) && ts[|ts| - 1] == t;
  }

  /** One loop, in its k-th attempt. */
  function Trying(p: Policy, k: nat): State {
    var waits := seq(k, i requires 0 <= i => Backoff(p.initial, i));
    State([Loop(InRun, k, Backoff(p.initial, k), false, k + 1, waits, seq(k, _ => true))], Some(0), [])
  }

  lemma FirstTry(p: Policy)
    ensures Enabled(INITIAL, Start) && Trying(p, 0) == Apply(p, INITIAL, Start)
  {
    assert Backoff(p.initial, 0) == p.initial;
    assert Trying(p, 0).loops[0].waits == [] && Trying(p, 0).loops[0].failures == [];
  }

  lemma {:induction false} TriesAgain(p: Policy, k: nat)
    requires k <= Max(p.maxRestarts, 0)
    ensures Reaches(p, Trying(p, k))
  {
    hide Reaches, NextBackoff;
    if k == 0 {
      InitialIsReached(p);
      ReachesNext(p, INITIAL, Start);
      FirstTry(p);
    } else {
      TriesAgain(p, k - 1);
      var s := Trying(p, k - 1);
      ReachesNext(p, s, RunReturns(0, true));
      var t := Apply(p, s, RunReturns(0, true));
      ReachesNext(p, t, WaitEnds(0));
      assert Trying(p, k) == Apply(p, t, WaitEnds(0)) by {
        assert Trying(p, k).loops[0].waits == s.loops[0].waits + [Backoff(p.initial, k - 1)];
        assert Trying(p, k).loops[0].failures == s.loops[0].failures + [true];
      }
    }
  }

  lemma InitialIsReached(p: Policy)
    ensures Reaches(p, INITIAL)
  {
    assert IsHistory(p, [INITIAL]);
  }

  /** A Stop of the one loop has called its cancel. */
  function Stopping(s: State): State
    requires |s.loops| == 1
  {
    s.(loops := [s.loops[0].(cancelled := true)], stops := [Signalled(0)])
  }

  lemma StopIsReached(p: Policy, s: State)
    requires Reaches(p, s) && |s.loops| == 1 && s.current == Some(0) && s.stops == []
    ensures Reaches(p, Stopping(s))
  {
    hide Reaches;
    ReachesNext(p, s, StopCalled);
    var t := s.(stops := [Called]);
    assert t == Apply(p, s, StopCalled);
    ReachesNext(p, t, StopReads(0));
    var u := s.(stops := [Read(Some(0))]);
    assert u == Apply(p, t, StopReads(0));
    ReachesNext(p, u, StopCancels(0));
    assert Stopping(s) == Apply(p, u, StopCancels(0));
  }

  /** The one loop of the state has exited after these runs and waits. */
  ghost predicate Finished(s: State, plan: nat -> Attempt, runs: nat, waits: seq<int>) {
    && |s.loops| == 1 && s.loops[0].phase.Exited? && s.loops[0].runs == runs && s.loops[0].waits == waits
    && |s.loops[0].failures| == runs && forall k :: 0 <= k < runs ==> s.loops[0].failures[k] == plan(k).failed
  }

  /** EVERY PLAN IS A HISTORY. What the goroutine of Start does under any plan,
      the machine does: the same runs with the same outcomes, the same waits,
      and an exit. */
  lemma PlanIsHistory(p: Policy, plan: nat -> Attempt, runs: nat, waits: seq<int>) returns (s: State)
    requires Plays(p, plan, runs, waits)
    ensures Reaches(p, s) && Finished(s, plan, runs, waits)
  {
    hide Reaches, NextBackoff, Backoff;
    var k := runs - 1;
    assert k > 0 ==> Retries(p, plan, k - 1);
    TriesAgain(p, k);
    var r := Trying(p, k);
    if plan(k).ended {
      StopIsReached(p, r);
      r := Stopping(r);
    }
    ReachesNext(p, r, RunReturns(0, plan(k).failed));
    s := Apply(p, r, RunReturns(0, plan(k).failed));
    if !Stops(p, plan, k) {
      StopIsReached(p, s);
      ReachesNext(p, Stopping(s), WaitCancelled(0));
      s := Apply(p, Stopping(s), WaitCancelled(0));
    }
    forall i | 0 <= i < k ensures plan(i).failed { assert Retries(p, plan, i); }
  }

  /** A plan with these outcomes that ends as the loop did. */
  function PlanOf(p: Policy, l: Loop): nat -> Attempt {
    k => if k < l.attempt then Attempt(true, false, false)
         else if |l.waits| > l.attempt then Attempt(true, false, true)
         else Attempt(k < |l.failures| && l.failures[k], l.cancelled, false)
  }

  /** EVERY LOOP FOLLOWS A PLAN. A loop that has exited, in any history, made
      the calls and the waits that the goroutine makes under some plan. */
  lemma LoopFollowsPlan(p: Policy, ss: seq<State>, i: nat)
    requires IsHistory(p, ss) && i < |ss[|ss| - 1].loops| && ss[|ss| - 1].loops[i].phase.Exited?
    ensures var l := ss[|ss| - 1].loops[i];
            && Plays(p, PlanOf(p, l), l.runs, l.waits)
            && forall k :: 0 <= k < l.runs ==> k < |l.failures| && PlanOf(p, l)(k).failed == l.failures[k]
  {
    hide Backoff;
    HistoryIsValid(p, ss);
    assert LoopOk(p, ss[|ss| - 1].loops[i]);
  }

  /** The manager's table of hyperloops. */
  class Manager {
    const policy: Policy
    var loops: map<string, State>

    ghost predicate Safe()
      reads this
    {
      forall id :: id in loops ==> Valid(policy, loops[id])
    }

    constructor (policy: Policy)
      ensures Safe() && loops == map[] && this.policy == policy
    {
      this.policy := policy;
      loops := map[];
    }

    method Register(id: string) returns (ok: bool)
      requires Safe()
      modifies this`loops
      ensures Safe() && ok == (id !in old(loops))
      ensures loops == if ok then old(loops)[id := INITIAL] else old(loops)
    {
      ok := id !in loops;
      if ok {
        InitialIsValid(policy);
        loops := loops[id := INITIAL];
      }
    }

    /** Start under l.mu: nothing happens while the previous loop is alive. */
    method Start(id: string) returns (ok: bool)
      requires Safe()
      modifies this`loops
      ensures Safe() && ok == (id in old(loops))
      ensures loops == if ok then old(loops)[id := Apply(policy, old(loops)[id], Step.Start)] else old(loops)
      ensures ok ==> loops[id].current.Some? && loops[id].current.value < |loops[id].loops|
                     && (Alive(loops[id].loops[loops[id].current.value]))
    {
      ok := id in loops;
      if ok {
        var l := loops[id];
        StepKeepsValid(policy, l, Step.Start);
        if l.current.Some? && Alive(l.loops[l.current.value]) {
          assert loops[id := l] == loops;
          return;
        }
        var started := l.(loops := l.loops + [Loop(InRun, 0, policy.initial, false, 1, [], [])], current := Some(|l.loops|));
        loops := loops[id := started];
      }
    }
  }
}
