/** pkg/state/tracker.go: the checkpoint of a run, computed from positions
    that are reported in any order. */
module Tracking {
  import opened Prelude
  import opened Events

  /** The tracker's fields, as a value. */
  datatype State = State(next: nat, pending: map<nat, Position>, ckpt: Position, has: bool, dirty: bool)

  const INITIAL: State := State(1, map[], ZERO, false, false)

  function Record(pending: map<nat, Position>, ps: seq<Position>): map<nat, Position>
    decreases |ps|
  {
    if ps == [] then pending else Record(pending[ps[0].seqNo := ps[0]], ps[1..])
  }

  function Advance(s: State): State
    decreases |s.pending|
  {
    if s.next in s.pending then
      RemoveShrinks(s.pending, s.next);
      Advance(State(s.next + 1, s.pending - {s.next}, s.pending[s.next], true, true))
    else s
  }

  lemma RemoveShrinks(m: map<nat, Position>, k: nat)
    requires k in m
    ensures |m - {k}| < |m|
  {
    var less := m - {k};
    assert m.Keys == less.Keys + {k};
    assert |m.Keys| == |less.Keys| + 1;
  }

  function ReportBatch(s: State, ps: seq<Position>): State {
    if ps == [] then s else Advance(s.(pending := Record(s.pending, ps)))
  }

  /** A whole sequence of reports, each a batch. */
  function ReportAll(s: State, calls: seq<seq<Position>>): State
    decreases |calls|
  {
    if calls == [] then s else ReportAll(ReportBatch(s, calls[0]), calls[1..])
  }

  class Tracker {
    var next: nat
    var pending: map<nat, Position>
    var ckpt: Position
    var has: bool
    var dirty: bool

    ghost function View(): State
      reads this
    {
      State(next, pending, ckpt, has, dirty)
    }

    constructor ()
      ensures View() == INITIAL
    {
      next, pending, ckpt, has, dirty := 1, map[], ZERO, false, false;
    }

    method Done(p: Position)
      modifies this
      ensures View() == ReportBatch(old(View()), [p])
    {
      pending := pending[p.seqNo := p];
      assert Record(old(pending), [p]) == pending;
      AdvanceFields();
    }

    method DoneBatch(ps: seq<Position>)
      modifies this
      ensures View() == ReportBatch(old(View()), ps)
    {
      if |ps| == 0 {
        return;
      }
      for i := 0 to |ps|
        invariant unchanged(`next, `ckpt, `has, `dirty)
        invariant Record(pending, ps[i..]) == Record(old(pending), ps)
      {
        pending := pending[ps[i].seqNo := ps[i]];
        assert ps[i..][1..] == ps[i + 1..];
      }
      AdvanceFields();
    }

    method AdvanceFields()
      modifies this
      ensures View() == Advance(old(View()))
    {
      while next in pending
        invariant Advance(View()) == Advance(old(View()))
        decreases |pending|
      {
        RemoveShrinks(pending, next);
        ckpt := pending[next];
        pending := pending - {next};
        has := true;
        dirty := true;
        next := next + 1;
      }
    }

    method Checkpoint() returns (p: Position, ok: bool)
      ensures p == ckpt && ok == has
    {
      return ckpt, has;
    }

    method TakeDirty() returns (p: Position, ok: bool)
      modifies this`dirty
      ensures ok == old(dirty) && !dirty
      ensures ok ==> p == ckpt
      ensures !ok ==> p == ZERO
    {
      if !dirty {
        return ZERO, false;
      }
      dirty := false;
      return ckpt, true;
    }

    method Redirty()
      modifies this`dirty
      ensures dirty == (has || old(dirty))
    {
      if has {
        dirty := true;
      }
    }

    method Outstanding() returns (n: nat)
      ensures n == |pending|
    {
      return |pending|;
    }
  }

  // ---- Confluence ----

  /** The specification: N = next-1 is the greatest number such that 1..N were
      all reported, the checkpoint is the position of N, and pending holds the
      reported positions outside that prefix. */
  ghost predicate Reflects(rep: map<nat, Position>, s: State) {
    Catching(rep, s) && s.next !in rep
  }

  /** The part of `Reflects` that holds while `advance` is still looping. */
  ghost predicate Catching(rep: map<nat, Position>, s: State) {
    && s.next >= 1
    && (forall n :: 1 <= n < s.next ==> n in rep)
    && (forall n :: n in s.pending <==> n in rep && !(1 <= n < s.next))
    && (forall n :: n in s.pending ==> s.pending[n] == rep[n])
    && (s.has <==> s.next > 1)
    && s.ckpt == (if s.next > 1 then rep[s.next - 1] else ZERO)
  }

  lemma {:induction false} AdvanceReaches(rep: map<nat, Position>, s: State)
    requires Catching(rep, s)
    ensures Reflects(rep, Advance(s))
    ensures Advance(s).next >= s.next
    ensures Advance(s).dirty == (s.dirty || Advance(s).next > s.next)
    decreases |s.pending|
  {
    if s.next in s.pending {
      RemoveShrinks(s.pending, s.next);
      AdvanceReaches(rep, State(s.next + 1, s.pending - {s.next}, s.pending[s.next], true, true));
    }
  }

  lemma ReflectsDetermines(rep: map<nat, Position>, s: State, t: State)
    requires Reflects(rep, s) && Reflects(rep, t)
    ensures s.next == t.next && s.pending == t.pending && s.ckpt == t.ckpt && s.has == t.has
  {
    assert s.next < t.next ==> s.next in rep;
    assert t.next < s.next ==> t.next in rep;
    assert s.pending == t.pending;
  }

  ghost predicate FreshReports(rep: map<nat, Position>, ps: seq<Position>) {
    && (forall i, j :: 0 <= i < j < |ps| ==> ps[i].seqNo != ps[j].seqNo)
    && (forall i :: 0 <= i < |ps| ==> ps[i].seqNo !in rep)
  }

  /** Inserting fresh reports into pending commutes with recording them. */
  lemma {:induction false} RecordCatches(rep: map<nat, Position>, ps: seq<Position>, s: State)
    requires Catching(rep, s) && FreshReports(rep, ps)
    ensures Catching(Record(rep, ps), s.(pending := Record(s.pending, ps)))
    decreases |ps|
  {
    if ps != [] {
      var p := ps[0];
      var rep1, s1 := rep[p.seqNo := p], s.(pending := s.pending[p.seqNo := p]);
      forall i | 0 <= i < |ps[1..]| ensures ps[1..][i].seqNo !in rep1 { assert ps[1..][i] == ps[i + 1]; }
      RecordCatches(rep1, ps[1..], s1);
    }
  }

  /** One call keeps the specification, whatever was reported before. */
  lemma ReportKeepsSpec(rep: map<nat, Position>, s: State, ps: seq<Position>)
    requires Reflects(rep, s) && FreshReports(rep, ps)
    ensures Reflects(Record(rep, ps), ReportBatch(s, ps))
    ensures ReportBatch(s, ps).next >= s.next
    ensures ReportBatch(s, ps).dirty == (s.dirty || ReportBatch(s, ps).next > s.next)
  {
    if ps != [] {
      RecordCatches(rep, ps, s);
      AdvanceReaches(Record(rep, ps), s.(pending := Record(s.pending, ps)));
    }
  }

  lemma {:induction false} RecordAppend(m: map<nat, Position>, a: seq<Position>, b: seq<Position>)
    ensures Record(m, a + b) == Record(Record(m, a), b)
    decreases |a|
  {
    if a == [] {
      assert a + b == b;
    } else {
      assert (a + b)[1..] == a[1..] + b;
      RecordAppend(m[a[0].seqNo := a[0]], a[1..], b);
    }
  }

  /** Recording distinct positions gives the map from each SeqNo to its position. */
  lemma {:induction false} RecordLookup(m: map<nat, Position>, ps: seq<Position>)
    requires FreshReports(m, ps)
    ensures Record(m, ps).Keys == m.Keys + set p | p in ps :: p.seqNo
    ensures forall n :: n in m ==> Record(m, ps)[n] == m[n]
    ensures forall p :: p in ps ==> p.seqNo in Record(m, ps) && Record(m, ps)[p.seqNo] == p
    decreases |ps|
  {
    if ps != [] {
      var m1 := m[ps[0].seqNo := ps[0]];
      forall i | 0 <= i < |ps[1..]| ensures ps[1..][i].seqNo !in m1 { assert ps[1..][i] == ps[i + 1]; }
      RecordLookup(m1, ps[1..]);
      assert ps == [ps[0]] + ps[1..];
    }
  }

  lemma FreshSplit(rep: map<nat, Position>, head: seq<Position>, rest: seq<Position>)
    requires FreshReports(rep, head + rest)
    ensures FreshReports(rep, head) && FreshReports(Record(rep, head), rest)
  {
    hide Record;
    var all := head + rest;
    forall i | 0 <= i < |head| ensures head[i] == all[i] {}
    forall i | 0 <= i < |rest| ensures rest[i] == all[|head| + i] {}
    assert FreshReports(rep, head);
    RecordLookup(rep, head);
    forall i | 0 <= i < |rest| ensures rest[i].seqNo !in Record(rep, head) {
      assert rest[i] == all[|head| + i];
      forall p | p in head ensures p.seqNo != rest[i].seqNo {
        var j :| 0 <= j < |head| && head[j] == p;
        assert all[j] == p;
      }
    }
  }

  /** A run of calls, grouped in any way, reflects everything reported so far. */
  lemma {:induction false} ReportAllKeepsSpec(rep: map<nat, Position>, s: State, calls: seq<seq<Position>>)
    requires Reflects(rep, s) && FreshReports(rep, Flatten(calls))
    ensures Reflects(Record(rep, Flatten(calls)), ReportAll(s, calls))
    ensures ReportAll(s, calls).next >= s.next
    ensures ReportAll(s, calls).dirty == (s.dirty || ReportAll(s, calls).next > s.next)
    decreases |calls|
  {
    if calls == [] {
      assert Record(rep, []) == rep;
    } else {
      hide Reflects, Record, FreshReports, ReportBatch;
      var head, rest := calls[0], Flatten(calls[1..]);
      assert Flatten(calls) == head + rest;
      FreshSplit(rep, head, rest);
      ReportKeepsSpec(rep, s, head);
      ReportAllKeepsSpec(Record(rep, head), ReportBatch(s, head), calls[1..]);
      RecordAppend(rep, head, rest);
    }
  }

  lemma SameReports(a: seq<Position>, b: seq<Position>)
    requires FreshReports(map[], a) && FreshReports(map[], b)
    requires multiset(a) == multiset(b)
    ensures Record(map[], a) == Record(map[], b)
  {
    RecordLookup(map[], a);
    RecordLookup(map[], b);
    forall p ensures p in a <==> p in b {
      assert p in a <==> p in multiset(a);
      assert p in b <==> p in multiset(b);
    }
    var ra, rb := Record(map[], a), Record(map[], b);
    assert ra.Keys == rb.Keys;
    forall n | n in ra ensures ra[n] == rb[n] {
      var p :| p in a && p.seqNo == n;
      assert p in b;
    }
  }

  /** Confluence: any two orders and groupings of the same distinct positions
      leave the tracker in exactly the same state. */
  lemma Confluence(calls1: seq<seq<Position>>, calls2: seq<seq<Position>>)
    requires FreshReports(map[], Flatten(calls1)) && FreshReports(map[], Flatten(calls2))
    requires multiset(Flatten(calls1)) == multiset(Flatten(calls2))
    ensures ReportAll(INITIAL, calls1) == ReportAll(INITIAL, calls2)
  {
    ReportAllKeepsSpec(map[], INITIAL, calls1);
    ReportAllKeepsSpec(map[], INITIAL, calls2);
    SameReports(Flatten(calls1), Flatten(calls2));
    ReflectsDetermines(Record(map[], Flatten(calls1)), ReportAll(INITIAL, calls1), ReportAll(INITIAL, calls2));
  }

  // ---- The checkpoint of a numbered stream ----

  ghost predicate Numbered(stream: seq<Event>) {
    forall i :: 0 <= i < |stream| ==> stream[i].pos.seqNo == i + 1
  }

  /** What a run keeps about its tracker: `reported` is the set of SeqNos of
      the numbered stream that have been reported. */
  ghost predicate Tracks(stream: seq<Event>, reported: set<nat>, s: State) {
    && Catches(stream, reported, s)
    && s.next !in reported
  }

  ghost predicate Catches(stream: seq<Event>, reported: set<nat>, s: State) {
    && 1 <= s.next <= |stream| + 1
    && (forall n :: n in reported ==> 1 <= n <= |stream|)
    && (forall n :: 1 <= n < s.next ==> n in reported)
    && (forall n :: n in s.pending ==> n in reported && s.pending[n] == stream[n - 1].pos)
    && (forall n :: n in reported ==> n < s.next || n in s.pending)
    && (s.has <==> s.next > 1)
    && (s.has ==> s.ckpt == stream[s.next - 2].pos)
  }

  lemma {:induction false} AdvanceTracks(stream: seq<Event>, reported: set<nat>, s: State)
    requires Numbered(stream) && Catches(stream, reported, s)
    ensures Tracks(stream, reported, Advance(s))
    ensures Advance(s).next >= s.next
    ensures Advance(s).dirty == (s.dirty || Advance(s).next > s.next)
    ensures Advance(s).next == s.next ==> Advance(s).ckpt == s.ckpt
    decreases |s.pending|
  {
    if s.next in s.pending {
      RemoveShrinks(s.pending, s.next);
      AdvanceTracks(stream, reported, State(s.next + 1, s.pending - {s.next}, s.pending[s.next], true, true));
    }
  }

  ghost function SeqNos(ps: seq<Position>): set<nat> {
    if ps == [] then {} else {ps[0].seqNo} + SeqNos(ps[1..])
  }

  lemma {:induction false} SeqNosMember(ps: seq<Position>, p: Position)
    requires p in ps
    ensures p.seqNo in SeqNos(ps)
  {
    if ps[0] != p { SeqNosMember(ps[1..], p); }
  }

  ghost predicate Positions(stream: seq<Event>, ps: seq<Position>) {
    forall p :: p in ps ==> 1 <= p.seqNo <= |stream| && p == stream[p.seqNo - 1].pos
  }

  lemma RecordOneTracks(stream: seq<Event>, reported: set<nat>, s: State, p: Position)
    requires Numbered(stream) && Catches(stream, reported, s)
    requires 1 <= p.seqNo <= |stream| && p == stream[p.seqNo - 1].pos
    ensures Catches(stream, reported + {p.seqNo}, s.(pending := s.pending[p.seqNo := p]))
  {
    var s1, reported1 := s.(pending := s.pending[p.seqNo := p]), reported + {p.seqNo};
    assert forall n :: n in s1.pending <==> n in s.pending || n == p.seqNo;
    assert forall n :: n in reported1 <==> n in reported || n == p.seqNo;
  }

  lemma {:induction false} RecordTracks(stream: seq<Event>, reported: set<nat>, s: State, ps: seq<Position>)
    requires Numbered(stream) && Catches(stream, reported, s)
    requires Positions(stream, ps)
    ensures Catches(stream, reported + SeqNos(ps), s.(pending := Record(s.pending, ps)))
    decreases |ps|
  {
    if ps == [] {
      assert reported + SeqNos(ps) == reported;
    } else {
      var p := ps[0];
      var s1 := s.(pending := s.pending[p.seqNo := p]);
      RecordOneTracks(stream, reported, s, p);
      RecordTracks(stream, reported + {p.seqNo}, s1, ps[1..]);
      assert reported + {p.seqNo} + SeqNos(ps[1..]) == reported + SeqNos(ps);
    }
  }

  /** Reporting any positions of the stream, repeated or not, keeps `Tracks`. */
  lemma ReportTracks(stream: seq<Event>, reported: set<nat>, s: State, ps: seq<Position>)
    requires Numbered(stream) && Tracks(stream, reported, s)
    requires Positions(stream, ps)
    ensures Tracks(stream, reported + SeqNos(ps), ReportBatch(s, ps))
    ensures ReportBatch(s, ps).next >= s.next
    ensures ReportBatch(s, ps).dirty == (s.dirty || ReportBatch(s, ps).next > s.next)
    ensures ReportBatch(s, ps).next == s.next ==> ReportBatch(s, ps).ckpt == s.ckpt
  {
    if ps == [] {
      assert reported + SeqNos(ps) == reported;
    } else {
      RecordTracks(stream, reported, s, ps);
      AdvanceTracks(stream, reported + SeqNos(ps), s.(pending := Record(s.pending, ps)));
    }
  }
}
