/** One sink object serves all runs of a process (pkg/publish/kafka/sink.go:
    semaphore, wait group and sticky error are fields of the sink). Seen from
    one run it is a sink of its own that other runs can only fail or reset:
    this is why `Pipeline` gives every run its own sink and `World.Echo` lets
    failures through. */
module SharedSink {
  import S = SinkContract

  /** `owner[b]` is the run that submitted batch b. */
  datatype Shared<E> = Shared(sink: S.Sink<E>, owner: seq<nat>)

  predicate Valid<E>(x: Shared<E>) { |x.owner| == |x.sink.batches| }

  predicate NamesBatch<E>(step: S.Step<E>) { !step.Open? && !step.SetErr? && !step.Reset? }

  /** A step that `run` causes is on its own batches. */
  ghost predicate Enabled<E>(maxInflight: nat, x: Shared<E>, run: nat, step: S.Step<E>)
    requires Valid(x)
  {
    S.Enabled(maxInflight, x.sink, step) && (NamesBatch(step) ==> step.b < |x.owner| && x.owner[step.b] == run)
  }

  ghost function Apply<E>(x: Shared<E>, run: nat, step: S.Step<E>): Shared<E>
    requires Valid(x) && S.Refers(x.sink, step)
  {
    Shared(S.Apply(x.sink, step), if step.Open? then x.owner + [run] else x.owner)
  }

  // ---- What one run sees ----

  function Own<E>(bs: seq<S.Batch<E>>, owner: seq<nat>, run: nat): seq<S.Batch<E>>
    requires |bs| == |owner|
  {
    if bs == [] then []
    else
      var n := |bs| - 1;
      Own(bs[..n], owner[..n], run) + (if owner[n] == run then [bs[n]] else [])
  }

  /** The number of the run's batches before batch b. */
  function Rank(owner: seq<nat>, run: nat, b: nat): nat
    requires b <= |owner|
  {
    if b == 0 then 0 else Rank(owner, run, b - 1) + (if owner[b - 1] == run then 1 else 0)
  }

  function View<E>(x: Shared<E>, run: nat): S.Sink<E>
    requires Valid(x)
  {
    S.Sink(Own(x.sink.batches, x.owner, run), x.sink.err, x.sink.epoch)
  }

  /** The step as the run sees it. */
  function Local<E>(x: Shared<E>, run: nat, step: S.Step<E>): S.Step<E>
    requires Valid(x) && (NamesBatch(step) ==> step.b < |x.owner|)
  {
    match step
    case Produce(b) => S.Produce(Rank(x.owner, run, b))
    case Ack(b, i) => S.Ack(Rank(x.owner, run, b), i)
    case Fail(b, i) => S.Fail(Rank(x.owner, run, b), i)
    case Release(b) => S.Release(Rank(x.owner, run, b))
    case Done(b) => S.Done(Rank(x.owner, run, b))
    case Finish(b) => S.Finish(Rank(x.owner, run, b))
    case _ => step
  }

  // ---- Own batches ----

  lemma {:induction false} RankOfFront(owner: seq<nat>, run: nat, n: nat, b: nat)
    requires b <= n <= |owner|
    ensures Rank(owner[..n], run, b) == Rank(owner, run, b)
  {
    if b > 0 { RankOfFront(owner, run, n, b - 1); }
  }

  lemma {:induction false} OwnLength<E>(bs: seq<S.Batch<E>>, owner: seq<nat>, run: nat)
    requires |bs| == |owner|
    ensures |Own(bs, owner, run)| == Rank(owner, run, |owner|)
  {
    if bs != [] {
      var n := |bs| - 1;
      OwnLength(bs[..n], owner[..n], run);
      RankOfFront(owner, run, n, n);
    }
  }

  /** Batch b is the run's batch number Rank(b), and changes there. */
  lemma {:induction false} OwnUpdate<E>(bs: seq<S.Batch<E>>, owner: seq<nat>, run: nat, b: nat, y: S.Batch<E>)
    requires |bs| == |owner| && b < |bs|
    ensures var own, i := Own(bs, owner, run), Rank(owner, run, b);
            if owner[b] == run then i < |own| && own[i] == bs[b] && Own(bs[b := y], owner, run) == own[i := y]
            else Own(bs[b := y], owner, run) == own
    decreases |bs|
  {
    var n := |bs| - 1;
    OwnLength(bs[..n], owner[..n], run);
    RankOfFront(owner, run, n, n);
    if b < n {
      assert bs[b := y][..n] == bs[..n][b := y];
      OwnUpdate(bs[..n], owner[..n], run, b, y);
      RankOfFront(owner, run, n, b);
    } else {
      assert bs[b := y][..n] == bs[..n];
    }
  }

  lemma {:induction false} OwnInUse<E>(bs: seq<S.Batch<E>>, owner: seq<nat>, run: nat)
    requires |bs| == |owner|
    ensures S.InUse(Own(bs, owner, run)) <= S.InUse(bs)
  {
    if bs != [] {
      var n := |bs| - 1;
      OwnInUse(bs[..n], owner[..n], run);
      var own := Own(bs[..n], owner[..n], run);
      if owner[n] == run {
        assert (own + [bs[n]])[..|own|] == own;
      } else {
        assert own + [] == own;
      }
    }
  }

  lemma {:induction false} OwnMember<E>(bs: seq<S.Batch<E>>, owner: seq<nat>, run: nat, i: nat) returns (b: nat)
    requires |bs| == |owner| && i < |Own(bs, owner, run)|
    ensures b < |bs| && owner[b] == run && Own(bs, owner, run)[i] == bs[b]
  {
    var n := |bs| - 1;
    var own := Own(bs[..n], owner[..n], run);
    if i < |own| { b := OwnMember(bs[..n], owner[..n], run, i); } else { b := n; }
  }

  // ---- The projections ----

  /** A run's own step is a step its view allows, with the same effect. */
  lemma OwnStepProjects<E>(maxInflight: nat, x: Shared<E>, run: nat, step: S.Step<E>)
    requires Valid(x) && Enabled(maxInflight, x, run, step)
    ensures S.Enabled(maxInflight, View(x, run), Local(x, run, step))
    ensures View(Apply(x, run, step), run) == S.Apply(View(x, run), Local(x, run, step))
  {
    var y := Apply(x, run, step);
    if NamesBatch(step) {
      OwnUpdate(x.sink.batches, x.owner, run, step.b, y.sink.batches[step.b]);
    } else if step.Open? {
      OwnInUse(x.sink.batches, x.owner, run);
      assert y.sink.batches[..|x.owner|] == x.sink.batches && y.owner[..|x.owner|] == x.owner;
    }
  }

  /** What another run sees of it: a failure, a reset, or nothing. */
  lemma OtherStepProjects<E>(maxInflight: nat, x: Shared<E>, run: nat, step: S.Step<E>, other: nat)
    requires Valid(x) && Enabled(maxInflight, x, run, step) && other != run
    ensures View(Apply(x, run, step), other)
         == if step.SetErr? || step.Reset? then S.Apply(View(x, other), step) else View(x, other)
  {
    var y := Apply(x, run, step);
    if NamesBatch(step) {
      OwnUpdate(x.sink.batches, x.owner, other, step.b, y.sink.batches[step.b]);
    } else if step.Open? {
      assert y.sink.batches[..|x.owner|] == x.sink.batches && y.owner[..|x.owner|] == x.owner;
      assert Own(x.sink.batches, x.owner, other) + [] == Own(x.sink.batches, x.owner, other);
    }
  }

  /** When Flush of the shared sink is done, it is done for every run. */
  lemma FlushProjects<E>(x: Shared<E>, run: nat, i: nat)
    requires Valid(x) && forall b :: 0 <= b < |x.sink.batches| ==> x.sink.batches[b].finished
    requires i < |View(x, run).batches|
    ensures View(x, run).batches[i].finished && View(x, run).err == x.sink.err
  {
    var b := OwnMember(x.sink.batches, x.owner, run, i);
  }
}
