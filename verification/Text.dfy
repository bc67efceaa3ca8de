/** Decimal rendering (strconv.AppendInt / AppendUint) and the byte order on
    strings, with the sorted enumeration of a set of names. */
module Text {
  const DIGITS: string := "0123456789"

  predicate IsDigit(c: char) { '0' <= c <= '9' }

  function Digits(n: nat): (r: string)
    ensures r != "" && forall i :: 0 <= i < |r| ==> IsDigit(r[i])
    ensures r[0] == '0' ==> n == 0 && r == "0"
  {
    if n < 10 then [DIGITS[n]] else Digits(n / 10) + [DIGITS[n % 10]]
  }

  function Dec(n: int): string {
    if n < 0 then "-" + Digits(-n) else Digits(n)
  }

  function DigitsValue(s: string): int {
    if s == "" then 0 else 10 * DigitsValue(s[..|s| - 1]) + (s[|s| - 1] as int - '0' as int)
  }

  function DecValue(s: string): int {
    if s != "" && s[0] == '-' then -DigitsValue(s[1..]) else DigitsValue(s)
  }

  lemma {:induction false} DigitsRoundTrip(n: nat)
    ensures DigitsValue(Digits(n)) == n
  {
    if n < 10 {
      assert Digits(n)[..0] == "";
    } else {
      var r := Digits(n);
      assert r[..|r| - 1] == Digits(n / 10);
      DigitsRoundTrip(n / 10);
    }
  }

  lemma MinusValue(d: string)
    ensures DecValue("-" + d) == -DigitsValue(d)
  {
    assert ("-" + d)[1..] == d;
  }

  lemma PlusValue(d: string)
    requires d != "" && IsDigit(d[0])
    ensures DecValue(d) == DigitsValue(d)
  {}

  lemma DecRoundTrip(n: int)
    ensures DecValue(Dec(n)) == n
  {
    if n < 0 {
      var m: nat, text := -n, Dec(n);
      DigitsRoundTrip(m);
      MinusValue(Digits(m));
      assert text == "-" + Digits(m);
    } else {
      var text := Dec(n);
      DigitsRoundTrip(n);
      PlusValue(text);
    }
  }

  /** Decimal renderings end where their digits end: the same text cannot be
      cut in two ways before a character that is not a digit. */
  lemma CutAtMark(a: string, b: string, x: string, y: string, mark: char)
    requires forall i :: 0 <= i < |b| ==> b[i] != mark
    requires forall i :: 0 <= i < |y| ==> y[i] != mark
    requires a + [mark] + b == x + [mark] + y
    ensures a == x && b == y
  {
    var s, t := a + [mark] + b, x + [mark] + y;
    assert s[|a|] == mark && t[|x|] == mark;
    assert forall i :: |a| < i < |s| ==> s[i] == b[i - |a| - 1];
    assert forall i :: |x| < i < |t| ==> t[i] == y[i - |x| - 1];
    assert |a| == |x|;
    assert a == s[..|a|] && x == t[..|x|];
    assert b == s[|a| + 1..] && y == t[|x| + 1..];
  }

  // ---- Byte order ----

  predicate Less(a: string, b: string) {
    if b == "" then false
    else if a == "" then true
    else a[0] < b[0] || (a[0] == b[0] && Less(a[1..], b[1..]))
  }

  lemma {:induction false} LessTotal(a: string, b: string)
    ensures Less(a, b) || Less(b, a) || a == b
    ensures !(Less(a, b) && Less(b, a))
    decreases |a| + |b|
  {
    if a != "" && b != "" && a[0] == b[0] {
      LessTotal(a[1..], b[1..]);
      assert a == [a[0]] + a[1..] && b == [b[0]] + b[1..];
    }
  }

  lemma {:induction false} LessTransitive(a: string, b: string, c: string)
    requires Less(a, b) && Less(b, c)
    ensures Less(a, c)
    decreases |a|
  {
    if a != "" && a[0] == b[0] == c[0] {
      LessTransitive(a[1..], b[1..], c[1..]);
    }
  }

  lemma LessOrder()
    ensures forall a, b {:trigger Less(a, b)} :: (Less(a, b) || Less(b, a) || a == b) && !(Less(a, b) && Less(b, a))
    ensures forall a, b, c {:trigger Less(a, b), Less(b, c)} :: Less(a, b) && Less(b, c) ==> Less(a, c)
  {
    forall a, b ensures (Less(a, b) || Less(b, a) || a == b) && !(Less(a, b) && Less(b, a)) { LessTotal(a, b); }
    forall a, b, c | Less(a, b) && Less(b, c) ensures Less(a, c) { LessTransitive(a, b, c); }
  }

  predicate Ascending(s: seq<string>) {
    forall i, j :: 0 <= i < j < |s| ==> Less(s[i], s[j])
  }

  function Elements(s: seq<string>): set<string> { set x | x in s }

  predicate IsLeast(k: string, ks: set<string>) {
    k in ks && forall j :: j in ks && j != k ==> Less(k, j)
  }

  lemma {:induction false} LeastExists(ks: set<string>)
    requires ks != {}
    ensures exists k :: IsLeast(k, ks)
    decreases |ks|
  {
    var x :| x in ks;
    if ks == {x} {
      assert IsLeast(x, ks);
    } else {
      LeastExists(ks - {x});
      var y :| IsLeast(y, ks - {x});
      LessOrder();
      assert IsLeast(if Less(x, y) then x else y, ks);
    }
  }

  function Least(ks: set<string>): (k: string)
    requires ks != {}
    ensures IsLeast(k, ks)
  {
    LeastExists(ks);
    LessOrder();
    var k :| k in ks && IsLeast(k, ks); k
  }

  /** The names of a set in byte order. */
  function Sorted(ks: set<string>): seq<string> {
    if ks == {} then [] else var k := Least(ks); [k] + Sorted(ks - {k})
  }

  lemma {:induction false} SortedIsAscending(ks: set<string>)
    ensures Ascending(Sorted(ks)) && Elements(Sorted(ks)) == ks && |Sorted(ks)| == |ks|
    decreases |ks|
  {
    if ks != {} {
      var k := Least(ks);
      SortedIsAscending(ks - {k});
      var rest := Sorted(ks - {k});
      forall i, j | 0 <= i < j < |Sorted(ks)| ensures Less(Sorted(ks)[i], Sorted(ks)[j]) {
        if i == 0 {
          assert rest[j - 1] in Elements(rest);
        } else {
          assert Less(rest[i - 1], rest[j - 1]);
        }
      }
      assert Elements(Sorted(ks)) == {k} + Elements(rest);
    }
  }

  /** An ascending enumeration of a set is unique. */
  lemma {:induction false} AscendingIsUnique(s: seq<string>, t: seq<string>)
    requires Ascending(s) && Ascending(t) && Elements(s) == Elements(t)
    ensures s == t
    decreases |s|
  {
    LessOrder();
    assert |t| > 0 ==> t[0] in Elements(t);
    if s != [] {
      assert s[0] in Elements(s);
      assert s[0] in t;
      var j :| 0 <= j < |t| && t[j] == s[0];
      assert t[0] in Elements(t);
      assert t[0] in s;
      var i :| 0 <= i < |s| && s[i] == t[0];
      assert s[0] == t[0];
      forall x ensures x in Elements(s[1..]) <==> x in Elements(t[1..]) {
        TailElements(s, x);
        TailElements(t, x);
      }
      AscendingIsUnique(s[1..], t[1..]);
      assert s == [s[0]] + s[1..] && t == [t[0]] + t[1..];
    }
  }

  lemma TailElements(s: seq<string>, x: string)
    requires s != [] && Ascending(s)
    ensures x in Elements(s[1..]) <==> x in Elements(s) && x != s[0]
  {
    LessOrder();
    assert s == [s[0]] + s[1..];
    if x in s[1..] {
      var i :| 0 <= i < |s[1..]| && s[1..][i] == x;
      assert Less(s[0], s[i + 1]);
    }
  }

  lemma SortedIsUnique(s: seq<string>)
    requires Ascending(s)
    ensures s == Sorted(Elements(s))
  {
    SortedIsAscending(Elements(s));
    AscendingIsUnique(s, Sorted(Elements(s)));
  }
}
