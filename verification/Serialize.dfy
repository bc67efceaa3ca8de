/** The append-based encoder of pkg/serialize/json.go, proved to produce the
    text of Envelope. */
module Serialize {
  import opened Prelude
  import opened Events
  import opened Text
  import opened JsonText
  import opened Json
  import opened Envelope

  datatype Kv = Kv(k: string, v: Value)

  // ---- Sorting ----

  ghost predicate Ordered(s: seq<Kv>) {
    forall i, j :: 0 <= i < j < |s| ==> !Less(s[j].k, s[i].k)
  }

  /** s with x put before index j. */
  function PutAt(s: seq<Kv>, j: nat, x: Kv): seq<Kv>
    requires j <= |s|
  {
    s[..j] + [x] + s[j..]
  }

  lemma NotLessTransitive(a: string, b: string, c: string)
    requires !Less(a, b) && !Less(b, c)
    ensures !Less(a, c)
  {
    hide Less;
    LessTotal(b, c);
    if Less(a, c) && Less(c, b) { LessTransitive(a, c, b); }
  }

  lemma PutIndex(s: seq<Kv>, j: nat, x: Kv, i: nat)
    requires j <= |s| && i <= |s|
    ensures |PutAt(s, j, x)| == |s| + 1
    ensures PutAt(s, j, x)[i] == if i < j then s[i] else if i == j then x else s[i - 1]
  {}

  lemma PutPair(s: seq<Kv>, j: nat, x: Kv, a: nat, b: nat)
    requires Ordered(s) && j <= |s| && (j > 0 ==> !Less(x.k, s[j - 1].k)) && forall t :: j <= t < |s| ==> Less(x.k, s[t].k)
    requires a < b <= |s|
    ensures |PutAt(s, j, x)| == |s| + 1 && !Less(PutAt(s, j, x)[b].k, PutAt(s, j, x)[a].k)
  {
    hide Less, PutAt;
    PutIndex(s, j, x, a);
    PutIndex(s, j, x, b);
    if b == j {
      if a < j - 1 { NotLessTransitive(x.k, s[j - 1].k, s[a].k); }
    } else if a == j {
      LessTotal(x.k, s[b - 1].k);
    }
  }

  lemma PutKeepsOrder(s: seq<Kv>, j: nat, x: Kv)
    requires Ordered(s) && j <= |s| && (j > 0 ==> !Less(x.k, s[j - 1].k)) && forall t :: j <= t < |s| ==> Less(x.k, s[t].k)
    ensures Ordered(PutAt(s, j, x))
  {
    hide Less, PutAt;
    PutIndex(s, j, x, 0);
    forall a, b | 0 <= a < b < |PutAt(s, j, x)| ensures !Less(PutAt(s, j, x)[b].k, PutAt(s, j, x)[a].k) {
      PutPair(s, j, x, a, b);
    }
  }

  lemma PutKeepsElements(s: seq<Kv>, j: nat, x: Kv)
    requires j <= |s|
    ensures multiset(PutAt(s, j, x)) == multiset(s) + multiset{x}
  {
    assert s == s[..j] + s[j..];
  }

  /** insertionSort, in place. */
  method InsertionSort(s: array<Kv>)
    modifies s
    ensures Ordered(s[..]) && multiset(s[..]) == multiset(old(s[..]))
  {
    var i := 1;
    while i < s.Length
      invariant 1 <= i
      invariant i <= s.Length ==> Ordered(s[..i])
      invariant s.Length == 0 || i <= s.Length
      invariant multiset(s[..]) == multiset(old(s[..]))
    {
      Insert(s, i);
      i := i + 1;
    }
    assert s.Length > 0 ==> s[..i] == s[..];
  }

  /** `t` is s with element i moved down to index j, the ones between moved up. */
  ghost predicate Sunk(s: seq<Kv>, t: seq<Kv>, i: nat, j: nat) {
    && |t| == |s| && j <= i < |s| && t[j] == s[i]
    && (forall k :: 0 <= k < j ==> t[k] == s[k])
    && (forall k :: j <= k < i ==> t[k + 1] == s[k])
    && (forall k :: i < k < |s| ==> t[k] == s[k])
  }

  lemma {:induction false} SunkIsPut(s: seq<Kv>, t: seq<Kv>, i: nat, j: nat)
    requires Sunk(s, t, i, j)
    ensures t[..i + 1] == PutAt(s[..i], j, s[i])
    ensures t == t[..i + 1] + s[i + 1..] && s == s[..i] + [s[i]] + s[i + 1..]
  {
    var p := PutAt(s[..i], j, s[i]);
    forall k | 0 <= k < i + 1 ensures t[..i + 1][k] == p[k] {
      if k > j { assert t[k - 1 + 1] == s[k - 1]; }
    }
  }

  lemma SunkIsSorted(s: seq<Kv>, t: seq<Kv>, i: nat, j: nat)
    requires Sunk(s, t, i, j) && Ordered(s[..i])
    requires j > 0 ==> !Less(s[i].k, s[j - 1].k)
    requires forall k :: j <= k < i ==> Less(s[i].k, s[k].k)
    ensures Ordered(t[..i + 1]) && multiset(t) == multiset(s)
  {
    hide Less, Ordered, PutAt;
    SunkIsPut(s, t, i, j);
    PutKeepsOrder(s[..i], j, s[i]);
    PutKeepsElements(s[..i], j, s[i]);
  }

  lemma SunkAtStart(s: seq<Kv>, i: nat)
    requires i < |s|
    ensures Sunk(s, s, i, i)
  {}

  lemma SunkParts(s: seq<Kv>, t: seq<Kv>, i: nat, j: nat)
    requires Sunk(s, t, i, j)
    ensures |t| == |s| && j <= i < |s| && t[j] == s[i] && (j > 0 ==> t[j - 1] == s[j - 1])
  {}

  /** One swap sinks the element one place further. */
  lemma SwapSinks(s: seq<Kv>, t: seq<Kv>, u: seq<Kv>, i: nat, j: nat)
    requires Sunk(s, t, i, j) && 0 < j && u == t[j := t[j - 1]][j - 1 := t[j]]
    ensures Sunk(s, u, i, j - 1)
  {}

  /** The inner loop: sinks element i into the ordered prefix. */
  method Insert(s: array<Kv>, i: nat)
    requires 1 <= i < s.Length && Ordered(s[..i])
    modifies s
    ensures Ordered(s[..i + 1]) && multiset(s[..]) == multiset(old(s[..]))
  {
    hide Less, Ordered, Sunk;
    ghost var was := s[..];
    SunkAtStart(was, i);
    var j := i;
    while j > 0 && Less(s[j].k, s[j - 1].k)
      invariant 0 <= j <= i && Sunk(was, s[..], i, j)
      invariant forall k :: j <= k < i ==> Less(was[i].k, was[k].k)
    {
      ghost var t := s[..];
      SunkParts(was, t, i, j);
      s[j], s[j - 1] := s[j - 1], s[j];
      SwapSinks(was, t, s[..], i, j);
      j := j - 1;
    }
    SunkParts(was, s[..], i, j);
    assert was[..i] == old(s[..i]) && s[..][..i + 1] == s[..i + 1];
    SunkIsSorted(was, s[..], i, j);
  }

  /** slices.SortFunc: used for large rows, and only through this contract. */
  method SortFunc(s: array<Kv>)
    modifies s
    ensures Ordered(s[..]) && multiset(s[..]) == multiset(old(s[..]))
  {
    InsertionSort(s);
  }

  // ---- Deterministic rows ----

  function KeysOf(s: seq<Kv>): seq<string> { seq(|s|, i requires 0 <= i < |s| => s[i].k) }

  /** `s` enumerates the columns of m, each once, in some order. */
  ghost predicate Enumerates(s: seq<Kv>, m: Row) {
    && (forall i :: 0 <= i < |s| ==> s[i].k in m && s[i].v == m[s[i].k])
    && (forall i, j :: 0 <= i < j < |s| ==> s[i].k != s[j].k)
    && (forall k :: k in m ==> exists i :: 0 <= i < |s| && s[i].k == k)
  }

  lemma {:induction false} CountOnce(s: seq<Kv>, i: nat, j: nat)
    requires i < j < |s| && s[i] == s[j]
    ensures multiset(s)[s[i]] >= 2
  {
    assert s == s[..j] + s[j..];
    assert s[i] in s[..j] && s[j] in s[j..];
  }

  lemma {:induction false} DistinctCount(s: seq<Kv>, x: Kv)
    requires forall i, j :: 0 <= i < j < |s| ==> s[i].k != s[j].k
    ensures multiset(s)[x] <= 1
  {
    if s != [] {
      var n := |s| - 1;
      assert s == s[..n] + [s[n]];
      DistinctCount(s[..n], x);
    }
  }

  lemma SamePairs(s: seq<Kv>, t: seq<Kv>, x: Kv)
    requires multiset(s) == multiset(t)
    ensures x in s <==> x in t
  {
    assert x in s <==> x in multiset(s);
    assert x in t <==> x in multiset(t);
  }

  /** A permutation of an enumeration is an enumeration. */
  lemma PermutedEnumerates(s: seq<Kv>, t: seq<Kv>, m: Row)
    requires Enumerates(s, m) && multiset(s) == multiset(t)
    ensures Enumerates(t, m)
  {
    forall i | 0 <= i < |t| ensures t[i].k in m && t[i].v == m[t[i].k] { SamePairs(s, t, t[i]); }
    forall i, j | 0 <= i < j < |t| ensures t[i].k != t[j].k {
      if t[i].k == t[j].k {
        SamePairs(s, t, t[i]);
        SamePairs(s, t, t[j]);
        assert t[i] == t[j];
        CountOnce(t, i, j);
        DistinctCount(s, t[i]);
      }
    }
    forall k | k in m ensures exists i :: 0 <= i < |t| && t[i].k == k {
      var i :| 0 <= i < |s| && s[i].k == k;
      SamePairs(s, t, s[i]);
      var j :| 0 <= j < |t| && t[j] == s[i];
    }
  }

  /** DETERMINISTIC ROWS. Whatever the enumeration and whatever the sorting
      algorithm, an ordered permutation of a row's columns is the one sequence
      of the row's names in byte order. */
  lemma OrderIsUnique(s: seq<Kv>, m: Row)
    requires Enumerates(s, m) && Ordered(s)
    ensures KeysOf(s) == Sorted(m.Keys)
  {
    hide Less, Sorted;
    LessOrder();
    var names := KeysOf(s);
    forall i, j | 0 <= i < j < |names| ensures Less(names[i], names[j]) {
      assert s[i].k != s[j].k && !Less(s[j].k, s[i].k);
    }
    forall k ensures k in Elements(names) <==> k in m.Keys {
      if k in m {
        var i :| 0 <= i < |s| && s[i].k == k;
        assert names[i] == k;
      }
    }
    assert Elements(names) == m.Keys;
    SortedIsUnique(names);
  }

  // ---- The append functions ----

  method AppendValue(b64: string -> string, b: string, v: Value) returns (r: string)
    ensures r == b + ValueText(b64, v)
  {
    match v {
      case Null => r := b + "null";
      case Str(s) => r := AppendJsonString(b, s);
      case Raw(text) =>
        if |text| == 0 { r := b + "null"; } else { r := b + text; }
      case Bytes(x) =>
        r := b + "\"";
        r := r + b64(x);
        r := r + "\"";
      case Bool(f) => r := b + if f then "true" else "false";
      case Int(n) => r := b + Dec(n);
    }
  }

  /** The map pass of appendRow: columns in an arbitrary order. */
  method Collect(m: Row) returns (pairs: seq<Kv>)
    ensures Enumerates(pairs, m)
  {
    pairs := [];
    var left := m.Keys;
    while left != {}
      invariant left <= m.Keys
      invariant forall i :: 0 <= i < |pairs| ==> pairs[i].k in m && pairs[i].k !in left && pairs[i].v == m[pairs[i].k]
      invariant forall i, j :: 0 <= i < j < |pairs| ==> pairs[i].k != pairs[j].k
      invariant forall k :: k in m && k !in left ==> exists i :: 0 <= i < |pairs| && pairs[i].k == k
      decreases |left|
    {
      var k :| k in left;
      ghost var before := pairs;
      pairs := pairs + [Kv(k, m[k])];
      assert pairs[|before|].k == k;
      forall x | x in m && x !in left - {k} ensures exists i :: 0 <= i < |pairs| && pairs[i].k == x {
        if x != k {
          var i :| 0 <= i < |before| && before[i].k == x;
          assert pairs[i].k == x;
        }
      }
      left := left - {k};
    }
  }

  /** appendRow: the text depends on the map's contents alone. */
  method AppendRow(b64: string -> string, b: string, m: Option<Row>) returns (r: string)
    ensures r == b + RowText(b64, m)
  {
    if m.None? { return b + "null"; }
    var collected := Collect(m.value);
    var pairs := new Kv[|collected|](i requires 0 <= i < |collected| => collected[i]);
    assert pairs[..] == collected;
    if pairs.Length <= 32 { InsertionSort(pairs); } else { SortFunc(pairs); }
    PermutedEnumerates(collected, pairs[..], m.value);
    OrderIsUnique(pairs[..], m.value);
    r := AppendPairs(b64, b, m.value, pairs[..]);
  }

  /** One column. `base` is what precedes the members `fs` rendered so far. */
  method AppendPair(b64: string -> string, b: string, p: Kv, first: bool, ghost base: string, ghost fs: seq<Field>, ghost f: Field)
    returns (r: string)
    requires b == base + RenderFields(fs) && first == (fs == []) && f.name == p.k && f.text == ValueText(b64, p.v)
    ensures r == base + RenderFields(fs + [f])
  {
    hide Quoted, RenderFields, ValueText;
    r := b;
    if !first { r := r + ","; }
    r := AppendJsonString(r, p.k);
    r := r + ":";
    r := AppendValue(b64, r, p.v);
    FieldsSnoc(fs, f);
    Regroup6(base, RenderFields(fs), if first then "" else ",", Quoted(p.k), ":", f.text);
    assert b + "" == b;
  }

  lemma Regroup6(a: string, x: string, c: string, q: string, d: string, t: string)
    ensures a + x + c + q + d + t == a + (x + c + (q + d + t))
  {}

  /** The output loop of appendRow. */
  method AppendPairs(b64: string -> string, b: string, ghost m: Row, pairs: seq<Kv>) returns (r: string)
    requires Enumerates(pairs, m) && KeysOf(pairs) == Sorted(m.Keys)
    ensures r == b + RenderObject(ColumnsOf(b64, m))
  {
    hide Sorted, RenderFields, RenderObject, ValueText, ValueTree;
    ghost var fs := ColumnsOf(b64, m);
    ColumnsArePairs(b64, m, pairs);
    r := b + "{";
    ghost var base := r;
    EmptyFields(fs[..0]);
    for i := 0 to |pairs|
      invariant r == base + RenderFields(fs[..i])
    {
      assert fs[..i] + [fs[i]] == fs[..i + 1];
      r := AppendPair(b64, r, pairs[i], i == 0, base, fs[..i], fs[i]);
    }
    assert fs[..|pairs|] == fs;
    r := r + "}";
    Wrapped(b, fs);
  }

  lemma {:induction false} ColumnsArePairs(b64: string -> string, m: Row, pairs: seq<Kv>)
    requires Enumerates(pairs, m) && KeysOf(pairs) == Sorted(m.Keys)
    ensures var fs := ColumnsOf(b64, m);
            |fs| == |pairs| && forall i :: 0 <= i < |pairs| ==>
              fs[i].name == pairs[i].k && fs[i].text == ValueText(b64, pairs[i].v)
  {
    hide Sorted, ValueText, ValueTree;
    var fs := ColumnsOf(b64, m);
    assert |KeysOf(pairs)| == |pairs|;
    forall i | 0 <= i < |pairs| ensures fs[i].name == pairs[i].k && fs[i].text == ValueText(b64, pairs[i].v) {
      assert KeysOf(pairs)[i] == pairs[i].k;
    }
  }

  // ---- Envelope ----

  /** A member name that needs no escaping, with its colon. */
  function Label(name: string): string { "\"" + name + "\":" }

  predicate IsWord(name: string) { forall i :: 0 <= i < |name| ==> IsPlain(name[i]) }

  lemma LabelIsQuoted(name: string)
    requires IsWord(name)
    ensures Quoted(name) + ":" == Label(name)
  {
    hide EscapeAll;
    NothingEscaped("");
    PlainRun("", name);
    assert "" + name == name;
  }

  lemma Regroup4(a: string, c: string, x: string, t: string)
    ensures a + c + (x + t) == a + (c + x) + t
  {}

  /** Appending a member with a literal name. */
  lemma LabelledField(fs: seq<Field>, f: Field)
    requires IsWord(f.name)
    ensures RenderFields(fs + [f]) == RenderFields(fs) + ((if fs == [] then "" else ",") + Label(f.name)) + f.text
  {
    hide RenderFields, Quoted, Label, IsWord;
    FieldsSnoc(fs, f);
    LabelIsQuoted(f.name);
    Regroup4(RenderFields(fs), if fs == [] then "" else ",", Label(f.name), f.text);
  }

  /** One literal label and a string value. `base` is what precedes the
      members `fs` rendered so far. */
  method AppendStrField(b: string, opening: string, s: string, ghost base: string, ghost fs: seq<Field>, ghost name: string)
    returns (r: string)
    requires b == base + RenderFields(fs) && IsWord(name) && opening == (if fs == [] then "" else ",") + Label(name)
    ensures r == base + RenderFields(fs + [StrField(name, s)])
  {
    hide RenderFields, Quoted, Units, IsWord, Label;
    r := b + opening;
    r := AppendJsonString(r, s);
    LabelledField(fs, StrField(name, s));
  }

  /** One literal label and a decimal value. */
  method AppendNumField(b: string, opening: string, n: int, ghost base: string, ghost fs: seq<Field>, ghost name: string)
    returns (r: string)
    requires b == base + RenderFields(fs) && IsWord(name) && opening == (if fs == [] then "" else ",") + Label(name)
    ensures r == base + RenderFields(fs + [NumField(name, n)])
  {
    hide RenderFields, Dec, IsWord, Label;
    r := b + opening;
    r := r + Dec(n);
    LabelledField(fs, NumField(name, n));
  }

  /** Omitted when zero. */
  method AppendOptionalStr(b: string, opening: string, s: string, ghost base: string, ghost fs: seq<Field>, ghost name: string)
    returns (r: string)
    requires b == base + RenderFields(fs) && IsWord(name) && opening == (if fs == [] then "" else ",") + Label(name)
    ensures r == base + RenderFields(fs + If(s != "", StrField(name, s)))
  {
    hide RenderFields, StrField, IsWord, Label;
    r := b;
    assert fs + [] == fs;
    if s != "" { r := AppendStrField(b, opening, s, base, fs, name); }
  }

  method AppendOptionalNum(b: string, opening: string, n: int, ghost base: string, ghost fs: seq<Field>, ghost name: string)
    returns (r: string)
    requires b == base + RenderFields(fs) && IsWord(name) && opening == (if fs == [] then "" else ",") + Label(name)
    ensures r == base + RenderFields(fs + If(n != 0, NumField(name, n)))
  {
    hide RenderFields, NumField, IsWord, Label;
    r := b;
    assert fs + [] == fs;
    if n != 0 { r := AppendNumField(b, opening, n, base, fs, name); }
  }

  lemma SourceLabels()
    ensures IsWord("connector") && "" + Label("connector") == "\"connector\":"
    ensures IsWord("server_id") && "," + Label("server_id") == ",\"server_id\":"
    ensures IsWord("db") && "," + Label("db") == ",\"db\":"
    ensures IsWord("table") && "," + Label("table") == ",\"table\":"
    ensures IsWord("gtid") && "," + Label("gtid") == ",\"gtid\":"
    ensures IsWord("file") && "," + Label("file") == ",\"file\":"
    ensures IsWord("pos") && "," + Label("pos") == ",\"pos\":"
    ensures IsWord("tx_order") && "," + Label("tx_order") == ",\"tx_order\":"
  {}

  method AppendSource(b: string, m: SourceMeta) returns (r: string)
    ensures r == b + RenderObject(SourceFields(m))
  {
    hide RenderFields, StrField, NumField, If, IsWord, Label, RenderObject;
    ghost var fs: seq<Field> := [];
    SourceLabels();
    EmptyFields(fs);
    r := b + "{";
    ghost var base := r;
    r := AppendStrField(r, "\"connector\":", m.connector, base, fs, "connector");
    fs := [StrField("connector", m.connector)];
    assert [] + fs == fs;
    r := AppendOptionalNum(r, ",\"server_id\":", m.serverId, base, fs, "server_id");
    fs := fs + If(m.serverId != 0, NumField("server_id", m.serverId));
    r := AppendStrField(r, ",\"db\":", m.db, base, fs, "db");
    ghost var fs1 := fs + [StrField("db", m.db)];
    r := AppendStrField(r, ",\"table\":", m.table, base, fs1, "table");
    assert fs1 + [StrField("table", m.table)] == fs + [StrField("db", m.db), StrField("table", m.table)];
    fs := fs + [StrField("db", m.db), StrField("table", m.table)];
    r := AppendOptionalStr(r, ",\"gtid\":", m.gtid, base, fs, "gtid");
    fs := fs + If(m.gtid != "", StrField("gtid", m.gtid));
    r := AppendOptionalStr(r, ",\"file\":", m.file, base, fs, "file");
    fs := fs + If(m.file != "", StrField("file", m.file));
    r := AppendOptionalNum(r, ",\"pos\":", m.pos, base, fs, "pos");
    fs := fs + If(m.pos != 0, NumField("pos", m.pos));
    r := AppendOptionalNum(r, ",\"tx_order\":", m.txOrder, base, fs, "tx_order");
    r := r + "}";
    Wrapped(b, SourceFields(m));
  }

  lemma Wrapped(b: string, fs: seq<Field>)
    ensures b + "{" + RenderFields(fs) + "}" == b + RenderObject(fs)
  {
    hide RenderFields;
  }

  lemma EventLabels()
    ensures IsWord("id") && "" + Label("id") == "\"id\":"
    ensures IsWord("op") && "," + Label("op") == ",\"op\":"
    ensures IsWord("before") && "," + Label("before") == ",\"before\":"
    ensures IsWord("after") && "," + Label("after") == ",\"after\":"
    ensures IsWord("source") && "," + Label("source") == ",\"source\":"
    ensures IsWord("ts_ms") && "," + Label("ts_ms") == ",\"ts_ms\":"
  {}

  method AppendRowField(b64: string -> string, b: string, opening: string, m: Option<Row>,
                        ghost base: string, ghost fs: seq<Field>, ghost name: string)
    returns (r: string)
    requires b == base + RenderFields(fs) && IsWord(name) && opening == (if fs == [] then "" else ",") + Label(name)
    ensures r == base + RenderFields(fs + [Field(name, RowText(b64, m), RowTree(b64, m))])
  {
    hide RenderFields, RowText, RowTree, IsWord, Label;
    r := b + opening;
    r := AppendRow(b64, r, m);
    LabelledField(fs, Field(name, RowText(b64, m), RowTree(b64, m)));
  }

  method AppendSourceField(b: string, opening: string, m: SourceMeta, ghost base: string, ghost fs: seq<Field>, ghost name: string)
    returns (r: string)
    requires b == base + RenderFields(fs) && IsWord(name) && opening == (if fs == [] then "" else ",") + Label(name)
    ensures r == base + RenderFields(fs + [Field(name, RenderObject(SourceFields(m)), JObj(TreeOf(SourceFields(m))))])
  {
    hide RenderFields, RenderObject, TreeOf, SourceFields, IsWord, Label;
    r := b + opening;
    r := AppendSource(r, m);
    LabelledField(fs, Field(name, RenderObject(SourceFields(m)), JObj(TreeOf(SourceFields(m)))));
  }

  /** AppendEvent: what an RFC 8259 parser reads from the appended text means
      the event. */
  method AppendEvent(b64: string -> string, b: string, e: Event) returns (r: string)
    ensures r == b + RenderObject(EventFields(b64, e))
    ensures IsArmor(b64) && EventOk(e) ==>
              var read := ReadValue(r[|b|..]); read.Got? && read.rest == "" && MeansEvent(b64, e, read.value)
  {
    hide ReadValue, IsArmor, EventOk, MeansEvent, RenderFields, StrField, NumField, RowText, RowTree, SourceFields, IsWord,
         Label, TreeOf, RenderObject;
    ghost var fs := EventFields(b64, e);
    EventLabels();
    EmptyFields([]);
    r := b + "{";
    ghost var base := r;
    r := AppendStrField(r, "\"id\":", e.id, base, [], "id");
    assert [] + [fs[0]] == fs[..1];
    r := AppendStrField(r, ",\"op\":", OpText(e.op), base, fs[..1], "op");
    assert fs[..1] + [fs[1]] == fs[..2];
    r := AppendRowField(b64, r, ",\"before\":", e.before, base, fs[..2], "before");
    assert fs[..2] + [fs[2]] == fs[..3];
    r := AppendRowField(b64, r, ",\"after\":", e.after, base, fs[..3], "after");
    assert fs[..3] + [fs[3]] == fs[..4];
    r := AppendSourceField(r, ",\"source\":", e.meta, base, fs[..4], "source");
    assert fs[..4] + [fs[4]] == fs[..5];
    r := AppendNumField(r, ",\"ts_ms\":", e.occurredMs, base, fs[..5], "ts_ms");
    assert fs[..5] + [fs[5]] == fs;
    r := r + "}";
    Wrapped(b, fs);
    assert r[|b|..] == RenderObject(fs);
    if IsArmor(b64) && EventOk(e) { EnvelopeDecodes(b64, e); }
  }
}
