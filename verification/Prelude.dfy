/** Sequence vocabulary shared by the whole model: flattening of micro-batches
    and filtering, with the algebra the flow proofs rest on. */
module Prelude {

  datatype Option<+T> = None | Some(value: T)

  /** The kinds of error `fail` tells apart: anything that wraps
      context.Canceled, and everything else. */
  datatype Error = Cancelled | Other

  function Min(a: int, b: int): int { if a <= b then a else b }

  function Max(a: int, b: int): int { if a <= b then b else a }

  /** First error wins: the value of a sticky error after `e` is reported. */
  function Sticky(first: Option<Error>, e: Error): Option<Error> {
    if first.None? then Some(e) else first
  }

  function Flatten<T>(ss: seq<seq<T>>): seq<T> {
    if ss == [] then [] else ss[0] + Flatten(ss[1..])
  }

  lemma {:induction false} FlattenAppend<T>(a: seq<seq<T>>, b: seq<seq<T>>)
    ensures Flatten(a + b) == Flatten(a) + Flatten(b)
  {
    if a == [] {
      assert a + b == b;
    } else {
      assert (a + b)[1..] == a[1..] + b;
      FlattenAppend(a[1..], b);
      assert a[0] + (Flatten(a[1..]) + Flatten(b)) == a[0] + Flatten(a[1..]) + Flatten(b);
    }
  }

  lemma FlattenSnoc<T>(a: seq<seq<T>>, x: seq<T>)
    ensures Flatten(a + [x]) == Flatten(a) + x
  {
    FlattenAppend(a, [x]);
    assert Flatten([x]) == x + Flatten<T>([]);
  }

  function Filter<T>(f: T -> bool, s: seq<T>): seq<T> {
    if s == [] then []
    else (if f(s[0]) then [s[0]] else []) + Filter(f, s[1..])
  }

  lemma {:induction false} FilterAppend<T>(f: T -> bool, a: seq<T>, b: seq<T>)
    ensures Filter(f, a + b) == Filter(f, a) + Filter(f, b)
  {
    if a == [] {
      assert a + b == b;
    } else {
      assert (a + b)[1..] == a[1..] + b && (a + b)[0] == a[0];
      FilterAppend(f, a[1..], b);
      var head := if f(a[0]) then [a[0]] else [];
      assert head + (Filter(f, a[1..]) + Filter(f, b)) == head + Filter(f, a[1..]) + Filter(f, b);
    }
  }

  lemma {:induction false} FilterMember<T>(f: T -> bool, s: seq<T>, x: T)
    ensures x in Filter(f, s) <==> x in s && f(x)
  {
    if s != [] {
      assert s == [s[0]] + s[1..];
      FilterMember(f, s[1..], x);
    }
  }

  lemma {:induction false} FilterAll<T>(f: T -> bool, s: seq<T>)
    requires forall x :: x in s ==> f(x)
    ensures Filter(f, s) == s
  {
    if s != [] { FilterAll(f, s[1..]); }
  }

  lemma {:induction false} FilterNone<T>(f: T -> bool, s: seq<T>)
    requires forall x :: x in s ==> !f(x)
    ensures Filter(f, s) == []
  {
    if s != [] { FilterNone(f, s[1..]); }
  }

  lemma {:induction false} FilterPrefix<T>(f: T -> bool, a: seq<T>, b: seq<T>)
    requires a <= b
    ensures Filter(f, a) <= Filter(f, b)
  {
    assert b == a + b[|a|..];
    FilterAppend(f, a, b[|a|..]);
  }

  /** Filtering by a finer predicate can be done after a coarser one. */
  lemma {:induction false} FilterTwice<T>(fine: T -> bool, coarse: T -> bool, s: seq<T>)
    requires forall x :: x in s && fine(x) ==> coarse(x)
    ensures Filter(fine, Filter(coarse, s)) == Filter(fine, s)
  {
    if s != [] {
      FilterTwice(fine, coarse, s[1..]);
      FilterAppend(fine, if coarse(s[0]) then [s[0]] else [], Filter(coarse, s[1..]));
    }
  }

  ghost predicate Distinct<T(!new)>(s: seq<T>) {
    forall i, j :: 0 <= i < j < |s| ==> s[i] != s[j]
  }
}
