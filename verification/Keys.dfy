/** pkg/dispatch/dispatch.go, first half: the entity key of a row, its
    injectivity, and the routing key of an event. */
module Keys {
  import opened Events
  import opened Text

  function Escape(s: string): string {
    if s == "" then ""
    else (if s[0] == '|' || s[0] == '\\' then ['\\', s[0]] else [s[0]]) + Escape(s[1..])
  }

  /** The rendering of one column value. */
  function KeyValue(v: Value): string {
    match v
    case Null => "\\N"
    case Str(s) => Escape(s)
    case Bytes(b) => Escape(b)
    case Raw(t) => Escape(t)
    case Int(n) => Dec(n)
    case Bool(f) => if f then "true" else "false"
  }

  /** A column the row does not have reads as NULL. */
  function Column(row: Row, c: string): Value { if c in row then row[c] else Null }

  function Values(row: Row, cols: seq<string>): seq<Value> {
    if cols == [] then [] else [Column(row, cols[0])] + Values(row, cols[1..])
  }

  function Suffixes(vs: seq<Value>): string {
    if vs == [] then "" else "|" + KeyValue(vs[0]) + Suffixes(vs[1..])
  }

  /** The columns a key is made of: the given ones, or all columns of the row
      in byte order. */
  function KeyColumns(row: Row, cols: seq<string>): seq<string> {
    if cols == [] then Sorted(row.Keys) else cols
  }

  function KeyFromColumns(fqtn: string, row: Row, cols: seq<string>): string {
    fqtn + Suffixes(Values(row, KeyColumns(row, cols)))
  }

  // ---- The code's loops ----

  method AppendEscaped(b: string, s: string) returns (r: string)
    ensures r == b + Escape(s)
  {
    r := b;
    for i := 0 to |s|
      invariant r + Escape(s[i..]) == b + Escape(s)
    {
      ghost var before := r;
      var c := s[i];
      if c == '|' || c == '\\' {
        r := r + ['\\', c];
      } else {
        r := r + [c];
      }
      assert s[i..][1..] == s[i + 1..];
      assert before + Escape(s[i..]) == r + Escape(s[i + 1..]);
    }
  }

  method AppendKeyValue(b: string, v: Value) returns (r: string)
    ensures r == b + KeyValue(v)
  {
    match v {
      case Null => r := b + "\\N";
      case Str(s) => r := AppendEscaped(b, s);
      case Bytes(x) => r := AppendEscaped(b, x);
      case Raw(text) => r := AppendEscaped(b, text);
      case Int(n) => r := b + Dec(n);
      case Bool(f) => r := b + if f then "true" else "false";
    }
  }

  lemma ColumnStep(b: string, row: Row, cols: seq<string>, i: nat)
    requires i < |cols|
    ensures b + Suffixes(Values(row, cols[i..]))
         == b + "|" + KeyValue(Column(row, cols[i])) + Suffixes(Values(row, cols[i + 1..]))
  {
    hide KeyValue, Column;
    assert cols[i..][0] == cols[i] && cols[i..][1..] == cols[i + 1..];
    var vs := Values(row, cols[i..]);
    assert vs[0] == Column(row, cols[i]) && vs[1..] == Values(row, cols[i + 1..]);
    Regroup(b, "|", KeyValue(vs[0]), Suffixes(vs[1..]));
  }

  lemma Regroup(a: string, b: string, c: string, d: string)
    ensures a + (b + c + d) == a + b + c + d
  {}

  /** The column loop of KeyFromColumns. */
  method AppendColumns(b: string, row: Row, cols: seq<string>) returns (key: string)
    ensures key == b + Suffixes(Values(row, cols))
  {
    key := b;
    ghost var whole := b + Suffixes(Values(row, cols));
    var i := 0;
    while i < |cols|
      invariant 0 <= i <= |cols|
      invariant key + Suffixes(Values(row, cols[i..])) == whole
    {
      ColumnStep(key, row, cols, i);
      key := key + "|";
      key := AppendKeyValue(key, Column(row, cols[i]));
      i := i + 1;
    }
    assert cols[i..] == [];
  }

  /** `sorted` is what sort.Strings makes of the row's column names, whatever
      order the map was ranged over in. */
  method BuildKey(fqtn: string, row: Row, cols: seq<string>, sorted: seq<string>) returns (key: string)
    requires Ascending(sorted) && Elements(sorted) == row.Keys
    ensures key == KeyFromColumns(fqtn, row, cols)
  {
    var names := cols;
    if |cols| == 0 {
      SortedIsUnique(sorted);
      names := sorted;
    }
    key := AppendColumns(fqtn, row, names);
  }

  // ---- Decoding ----

  /** A rendering that a scan for unescaped separators passes in one piece. */
  predicate Closed(s: string) {
    s == "" || (if s[0] == '\\' then |s| >= 2 && Closed(s[2..]) else s[0] != '|' && Closed(s[1..]))
  }

  /** Splits at the separators that are not escaped. */
  function Split(s: string): (parts: seq<string>)
    ensures parts != []
  {
    if s == "" then [""]
    else if s[0] == '|' then [""] + Split(s[1..])
    else if s[0] == '\\' && |s| >= 2 then
      var rest := Split(s[2..]); [s[..2] + rest[0]] + rest[1..]
    else
      var rest := Split(s[1..]); [[s[0]] + rest[0]] + rest[1..]
  }

  function Unescape(s: string): string {
    if s == "" then ""
    else if s[0] == '\\' && |s| >= 2 then [s[1]] + Unescape(s[2..])
    else [s[0]] + Unescape(s[1..])
  }

  datatype ColumnType = TStr | TBytes | TRaw | TInt | TBool

  predicate HasType(v: Value, t: ColumnType) {
    match v
    case Null => true
    case Str(_) => t.TStr?
    case Bytes(_) => t.TBytes?
    case Raw(_) => t.TRaw?
    case Int(_) => t.TInt?
    case Bool(_) => t.TBool?
  }

  function DecodeValue(t: ColumnType, part: string): Value {
    if part == "\\N" then Null
    else match t
      case TStr => Str(Unescape(part))
      case TBytes => Bytes(Unescape(part))
      case TRaw => Raw(Unescape(part))
      case TInt => Int(DecValue(part))
      case TBool => Bool(part == "true")
  }

  function DecodeValues(types: seq<ColumnType>, parts: seq<string>): seq<Value> {
    if types == [] || parts == [] then []
    else [DecodeValue(types[0], parts[0])] + DecodeValues(types[1..], parts[1..])
  }

  /** Table name and column values of a key. */
  function DecodeKey(types: seq<ColumnType>, key: string): (string, seq<Value>) {
    var parts := Split(key);
    (parts[0], DecodeValues(types, parts[1..]))
  }

  predicate Plain(s: string) { forall i :: 0 <= i < |s| ==> s[i] != '|' && s[i] != '\\' }

  predicate Typed(vs: seq<Value>, types: seq<ColumnType>) {
    |vs| == |types| && forall i :: 0 <= i < |vs| ==> HasType(vs[i], types[i])
  }

  lemma {:induction false} PlainIsClosed(s: string)
    requires Plain(s)
    ensures Closed(s)
  {
    if s != "" { PlainIsClosed(s[1..]); }
  }

  lemma {:induction false} EscapeIsClosed(s: string)
    ensures Closed(Escape(s)) && Unescape(Escape(s)) == s
    ensures Escape(s) != "\\N"
  {
    if s != "" {
      EscapeIsClosed(s[1..]);
      var e := Escape(s);
      if s[0] == '|' || s[0] == '\\' {
        assert e[..2] == ['\\', s[0]] && e[2..] == Escape(s[1..]);
      } else {
        assert e[1..] == Escape(s[1..]);
      }
    }
  }

  lemma RenderingIsClosed(v: Value)
    ensures Closed(KeyValue(v))
  {
    match v
    case Null => assert "\\N"[2..] == "";
    case Str(s) => EscapeIsClosed(s);
    case Bytes(s) => EscapeIsClosed(s);
    case Raw(s) => EscapeIsClosed(s);
    case Int(n) => PlainIsClosed(Dec(n));
    case Bool(f) => PlainIsClosed(KeyValue(v));
  }

  lemma ValueRoundTrip(t: ColumnType, v: Value)
    requires HasType(v, t)
    ensures DecodeValue(t, KeyValue(v)) == v
  {
    match v
    case Null =>
    case Str(s) => EscapeIsClosed(s);
    case Bytes(s) => EscapeIsClosed(s);
    case Raw(s) => EscapeIsClosed(s);
    case Int(n) => DecRoundTrip(n); assert Dec(n)[0] != '\\';
    case Bool(f) => assert KeyValue(v)[0] != '\\';
  }

  /** A closed piece is split off whole at the separator behind it. */
  lemma {:induction false} SplitPiece(piece: string, rest: string)
    requires Closed(piece)
    ensures Split(piece + "|" + rest) == [piece] + Split(rest)
    ensures Split(piece) == [piece]
    decreases |piece|
  {
    var s := piece + "|" + rest;
    if piece == "" {
      assert s == "|" + rest && s[1..] == rest;
    } else if piece[0] == '\\' {
      assert s[..2] == piece[..2] && s[2..] == piece[2..] + "|" + rest;
      SplitPiece(piece[2..], rest);
      assert piece[..2] + piece[2..] == piece;
    } else {
      assert s[1..] == piece[1..] + "|" + rest;
      SplitPiece(piece[1..], rest);
      assert [piece[0]] + piece[1..] == piece;
    }
  }

  function Renderings(vs: seq<Value>): seq<string> {
    if vs == [] then [] else [KeyValue(vs[0])] + Renderings(vs[1..])
  }

  lemma {:induction false} SplitKey(first: string, vs: seq<Value>)
    requires Closed(first)
    ensures Split(first + Suffixes(vs)) == [first] + Renderings(vs)
    decreases |vs|
  {
    hide Split, Closed, KeyValue;
    if vs == [] {
      SplitPiece(first, "");
      assert first + "" == first && [first] + [] == [first];
    } else {
      var kv, rest := KeyValue(vs[0]), Suffixes(vs[1..]);
      RenderingIsClosed(vs[0]);
      SplitPiece(first, kv + rest);
      assert first + ("|" + kv + rest) == first + "|" + (kv + rest);
      SplitKey(kv, vs[1..]);
      assert [first] + ([kv] + Renderings(vs[1..])) == [first] + Renderings(vs);
    }
  }

  lemma {:induction false} DecodeRenderings(types: seq<ColumnType>, vs: seq<Value>)
    requires Typed(vs, types)
    ensures DecodeValues(types, Renderings(vs)) == vs
    decreases |vs|
  {
    if vs != [] {
      ValueRoundTrip(types[0], vs[0]);
      DecodeRenderings(types[1..], vs[1..]);
    }
  }

  /** The decoder recovers the table name and every key column. */
  lemma KeyRoundTrip(fqtn: string, row: Row, cols: seq<string>, types: seq<ColumnType>)
    requires Plain(fqtn) && Typed(Values(row, KeyColumns(row, cols)), types)
    ensures DecodeKey(types, KeyFromColumns(fqtn, row, cols)) == (fqtn, Values(row, KeyColumns(row, cols)))
  {
    PlainIsClosed(fqtn);
    SplitKey(fqtn, Values(row, KeyColumns(row, cols)));
    DecodeRenderings(types, Values(row, KeyColumns(row, cols)));
  }

  lemma {:induction false} ValuesDetermine(row1: Row, row2: Row, cols: seq<string>, c: string)
    requires Values(row1, cols) == Values(row2, cols) && c in cols
    ensures Column(row1, c) == Column(row2, c)
    decreases |cols|
  {
    assert Values(row1, cols)[0] == Column(row1, cols[0]) && Values(row2, cols)[0] == Column(row2, cols[0]);
    assert Values(row1, cols)[1..] == Values(row1, cols[1..]) && Values(row2, cols)[1..] == Values(row2, cols[1..]);
    if c != cols[0] { ValuesDetermine(row1, row2, cols[1..], c); }
  }

  /** Distinct entities never share a key: equal keys of typed rows mean the
      same table and the same value in every key column. */
  lemma KeyIsInjective(fqtn1: string, fqtn2: string, row1: Row, row2: Row, cols: seq<string>, types: seq<ColumnType>)
    requires Plain(fqtn1) && Plain(fqtn2) && cols != []
    requires Typed(Values(row1, cols), types) && Typed(Values(row2, cols), types)
    requires KeyFromColumns(fqtn1, row1, cols) == KeyFromColumns(fqtn2, row2, cols)
    ensures fqtn1 == fqtn2 && forall c :: c in cols ==> Column(row1, c) == Column(row2, c)
  {
    KeyRoundTrip(fqtn1, row1, cols, types);
    KeyRoundTrip(fqtn2, row2, cols, types);
    forall c | c in cols ensures Column(row1, c) == Column(row2, c) { ValuesDetermine(row1, row2, cols, c); }
  }

  /** The whole-row fallback identifies the row, among rows with the same columns. */
  lemma WholeRowKeyIsInjective(fqtn1: string, fqtn2: string, row1: Row, row2: Row, types: seq<ColumnType>)
    requires Plain(fqtn1) && Plain(fqtn2) && row1.Keys == row2.Keys
    requires Typed(Values(row1, Sorted(row1.Keys)), types) && Typed(Values(row2, Sorted(row2.Keys)), types)
    requires KeyFromColumns(fqtn1, row1, []) == KeyFromColumns(fqtn2, row2, [])
    ensures fqtn1 == fqtn2 && row1 == row2
  {
    KeyRoundTrip(fqtn1, row1, [], types);
    KeyRoundTrip(fqtn2, row2, [], types);
    SortedIsAscending(row1.Keys);
    forall c | c in row1 ensures row1[c] == row2[c] {
      assert c in Elements(Sorted(row1.Keys));
      ValuesDetermine(row1, row2, Sorted(row1.Keys), c);
    }
  }

  // ---- Routing ----

  /** DefaultKey: the override columns of the table, else the key the source
      attached, else the table name. */
  function DefaultKey(overrides: map<string, seq<string>>, e: Event): string {
    var fqtn := Fqtn(e.meta);
    if fqtn in overrides then KeyFromColumns(fqtn, CurrentRow(e), overrides[fqtn])
    else if e.key != "" then e.key
    else fqtn
  }

  const FNV_OFFSET: nat := 2166136261
  const FNV_PRIME: nat := 16777619
  const TWO_TO_THE_32: nat := 0x1_0000_0000

  /** Bitwise exclusive or. */
  function Xor(a: nat, b: nat): nat
    decreases a + b
  {
    if a == 0 && b == 0 then 0 else (a + b) % 2 + 2 * Xor(a / 2, b / 2)
  }

  function FnvStep(h: nat, c: char): nat { Xor(h, c as int) * FNV_PRIME % TWO_TO_THE_32 }

  /** FNV-1a over the bytes of a key, in 32-bit wrap-around arithmetic. */
  function Fnv(k: string): nat {
    if k == "" then FNV_OFFSET else FnvStep(Fnv(k[..|k| - 1]), k[|k| - 1])
  }

  function QueueOf(key: string, queues: nat): (q: nat)
    requires queues > 0
    ensures q < queues
  {
    Fnv(key) % queues
  }

  /** The key decodes to the event's table and, in order, the values the given
      columns have in its current image, a missing one as NULL; with no columns
      given, to those of all columns in byte order. */
  ghost predicate SpellsKey(types: seq<ColumnType>, e: Event, cols: seq<string>, key: string) {
    var fqtn := e.meta.db + "." + e.meta.table;
    var image := if e.op == Delete then e.before else e.after;
    var row: Row := if image.Some? then image.value else map[];
    var names := if cols == [] then Sorted(row.Keys) else cols;
    var values := seq(|names|, i requires 0 <= i < |names| => if names[i] in row then row[names[i]] else Null);
    Plain(fqtn) && Typed(values, types) ==> DecodeKey(types, key) == (fqtn, values)
  }

  lemma {:induction false} ValuesSpelled(row: Row, cols: seq<string>)
    ensures Values(row, cols) == seq(|cols|, i requires 0 <= i < |cols| => if cols[i] in row then row[cols[i]] else Null)
  {
    if cols != [] {
      ValuesSpelled(row, cols[1..]);
      var all := seq(|cols|, i requires 0 <= i < |cols| => if cols[i] in row then row[cols[i]] else Null);
      assert all == [Column(row, cols[0])] + Values(row, cols[1..]);
    }
  }

  /** An override wins over the key the source attached. */
  lemma OverrideIsSpelled(overrides: map<string, seq<string>>, e: Event)
    ensures Fqtn(e.meta) in overrides ==> forall types :: SpellsKey(types, e, overrides[Fqtn(e.meta)], DefaultKey(overrides, e))
  {
    hide DecodeKey, KeyFromColumns;
    var fqtn, row := Fqtn(e.meta), CurrentRow(e);
    if fqtn in overrides {
      var cols := overrides[fqtn];
      ValuesSpelled(row, KeyColumns(row, cols));
      forall types ensures SpellsKey(types, e, cols, DefaultKey(overrides, e)) {
        if Plain(fqtn) && Typed(Values(row, KeyColumns(row, cols)), types) { KeyRoundTrip(fqtn, row, cols, types); }
      }
    }
  }

  lemma {:induction false} AgreeingValues(row1: Row, row2: Row, cols: seq<string>)
    requires forall c :: c in cols ==> Column(row1, c) == Column(row2, c)
    ensures Values(row1, cols) == Values(row2, cols)
  {
    if cols != [] { AgreeingValues(row1, row2, cols[1..]); }
  }

  /** Two events of a table with override columns are routed under one key
      exactly when those columns agree in their current images. */
  lemma OverrideKeysAgree(overrides: map<string, seq<string>>, e1: Event, e2: Event, types: seq<ColumnType>)
    requires var fqtn := Fqtn(e1.meta);
             && fqtn == Fqtn(e2.meta) && Plain(fqtn) && fqtn in overrides && overrides[fqtn] != []
             && Typed(Values(CurrentRow(e1), overrides[fqtn]), types) && Typed(Values(CurrentRow(e2), overrides[fqtn]), types)
    ensures DefaultKey(overrides, e1) == DefaultKey(overrides, e2) <==>
              forall c :: c in overrides[Fqtn(e1.meta)] ==> Column(CurrentRow(e1), c) == Column(CurrentRow(e2), c)
  {
    hide Suffixes, CurrentRow;
    var fqtn := Fqtn(e1.meta);
    var cols := overrides[fqtn];
    if DefaultKey(overrides, e1) == DefaultKey(overrides, e2) {
      KeyIsInjective(fqtn, fqtn, CurrentRow(e1), CurrentRow(e2), cols, types);
    }
    if forall c :: c in cols ==> Column(CurrentRow(e1), c) == Column(CurrentRow(e2), c) {
      AgreeingValues(CurrentRow(e1), CurrentRow(e2), cols);
    }
  }

  /** The event as Pick leaves it: its key is the one it is routed by. */
  function Rekey(overrides: map<string, seq<string>>, e: Event): Event {
    e.(key := DefaultKey(overrides, e))
  }

  // ---- The hash ----

  lemma {:induction false} XorFits(a: nat, b: nat, n: nat)
    requires a < Power(n) && b < Power(n)
    ensures Xor(a, b) < Power(n)
    decreases n
  {
    if n > 0 && !(a == 0 && b == 0) { XorFits(a / 2, b / 2, n - 1); }
  }

  function Power(n: nat): nat { if n == 0 then 1 else 2 * Power(n - 1) }

  /** Each operand and the result determine the other operand. */
  lemma {:induction false} XorCancels(a: nat, b: nat, c: nat)
    requires Xor(a, c) == Xor(b, c) || Xor(c, a) == Xor(c, b)
    ensures a == b
    decreases a + b + c
  {
    hide Xor;
    XorCommutes(a, c);
    XorCommutes(b, c);
    XorHalves(a, c);
    XorHalves(b, c);
    assert a % 2 == b % 2 by { assert (a + c) % 2 == (b + c) % 2; }
    if a + b + c > 0 { XorCancels(a / 2, b / 2, c / 2); }
  }

  lemma {:induction false} XorCommutes(a: nat, b: nat)
    ensures Xor(a, b) == Xor(b, a)
    decreases a + b
  {
    if a != 0 || b != 0 { XorCommutes(a / 2, b / 2); }
  }

  /** The inverse of the prime modulo 2^32. */
  const FNV_INVERSE: nat := 899433627

  lemma PrimeIsInvertible(x: nat, y: nat)
    requires x < TWO_TO_THE_32 && y < TWO_TO_THE_32 && x * FNV_PRIME % TWO_TO_THE_32 == y * FNV_PRIME % TWO_TO_THE_32
    ensures x == y
  {
    var i, j := x * FNV_PRIME / TWO_TO_THE_32, y * FNV_PRIME / TWO_TO_THE_32;
    assert (x - y) * FNV_PRIME == (i - j) * TWO_TO_THE_32;
    var k := FNV_PRIME * FNV_INVERSE / TWO_TO_THE_32;
    assert FNV_PRIME * FNV_INVERSE == k * TWO_TO_THE_32 + 1;
    assert (x - y) * FNV_PRIME * FNV_INVERSE == (i - j) * TWO_TO_THE_32 * FNV_INVERSE;
    assert x - y == TWO_TO_THE_32 * ((i - j) * FNV_INVERSE - (x - y) * k);
  }

  lemma PowerOf32()
    ensures Power(32) == TWO_TO_THE_32
  {
    assert Power(8) == 256;
    assert Power(16) == 0x1_0000;
    assert Power(24) == 0x100_0000;
  }

  /** A step loses neither the hash so far nor the byte. */
  lemma StepIsInjective(g: nat, h: nat, c: char, d: char)
    requires g < TWO_TO_THE_32 && h < TWO_TO_THE_32 && c as int < TWO_TO_THE_32 && d as int < TWO_TO_THE_32
    requires (g == h || c == d) && FnvStep(g, c) == FnvStep(h, d)
    ensures g == h && c == d
  {
    hide Xor;
    PowerOf32();
    XorFits(g, c as int, 32);
    XorFits(h, d as int, 32);
    PrimeIsInvertible(Xor(g, c as int), Xor(h, d as int));
    if g == h { XorCancels(c as int, d as int, g); } else { XorCancels(g, h, c as int); }
  }

  /** A key with one byte changed has another hash. */
  lemma {:induction false} OneByteChangesHash(k1: string, k2: string, i: nat)
    requires i < |k1| == |k2| && k1[i] != k2[i] && forall j :: 0 <= j < |k1| && j != i ==> k1[j] == k2[j]
    ensures Fnv(k1) != Fnv(k2)
    decreases |k1|
  {
    hide FnvStep;
    var n := |k1| - 1;
    HashFits(k1[..n]);
    HashFits(k2[..n]);
    if i == n {
      assert k1[..n] == k2[..n];
    } else {
      OneByteChangesHash(k1[..n], k2[..n], i);
    }
    if Fnv(k1) == Fnv(k2) { StepIsInjective(Fnv(k1[..n]), Fnv(k2[..n]), k1[n], k2[n]); }
  }

  lemma HashFits(k: string)
    ensures Fnv(k) < TWO_TO_THE_32
  {}

  /** Published values of 32-bit FNV-1a. */
  lemma PublishedHashes()
    ensures Fnv("") == 0x811c_9dc5 && Fnv("a") == 0xe40c_292c && Fnv("foobar") == 0xbf9c_f968
  {
    hide FnvStep;
    StepA();
    Step1();
    Step2();
    Step3();
    Step4();
    Step5();
    Step6();
    HashSnoc("", 'a');
    HashSnoc("", 'f');
    HashSnoc("f", 'o');
    HashSnoc("fo", 'o');
    HashSnoc("foo", 'b');
    HashSnoc("foob", 'a');
    HashSnoc("fooba", 'r');
    assert "" + ['a'] == "a" && "" + ['f'] == "f" && "f" + ['o'] == "fo" && "fo" + ['o'] == "foo";
    assert "foo" + ['b'] == "foob" && "foob" + ['a'] == "fooba" && "fooba" + ['r'] == "foobar";
  }

  lemma HashSnoc(k: string, c: char)
    ensures Fnv(k + [c]) == FnvStep(Fnv(k), c)
  {
    assert (k + [c])[..|k|] == k;
  }

  lemma {:induction false} XorZero(a: nat)
    ensures Xor(a, 0) == a
  {
    if a != 0 { XorZero(a / 2); }
  }

  lemma XorBit(a: nat, b: nat, x: nat, y: nat)
    requires x < 2 && y < 2
    ensures Xor(2 * a + x, 2 * b + y) == 2 * Xor(a, b) + (if x == y then 0 else 1)
  {
    hide Xor;
    XorHalves(2 * a + x, 2 * b + y);
    assert (2 * a + x) / 2 == a && (2 * b + y) / 2 == b;
  }

  lemma XorHalves(a: nat, b: nat)
    ensures Xor(a, b) == (a + b) % 2 + 2 * Xor(a / 2, b / 2)
  {}

  /** Four bits at a time. */
  lemma XorFour(a: nat, b: nat, a3: nat, a2: nat, a1: nat, a0: nat, b3: nat, b2: nat, b1: nat, b0: nat)
    requires a3 < 2 && a2 < 2 && a1 < 2 && a0 < 2 && b3 < 2 && b2 < 2 && b1 < 2 && b0 < 2
    ensures Xor(16 * a + 8 * a3 + 4 * a2 + 2 * a1 + a0, 16 * b + 8 * b3 + 4 * b2 + 2 * b1 + b0)
         == 16 * Xor(a, b) + (if a3 == b3 then 0 else 8) + (if a2 == b2 then 0 else 4)
            + (if a1 == b1 then 0 else 2) + (if a0 == b0 then 0 else 1)
  {
    hide Xor;
    XorBit(a, b, a3, b3);
    XorBit(2 * a + a3, 2 * b + b3, a2, b2);
    XorBit(4 * a + 2 * a3 + a2, 4 * b + 2 * b3 + b2, a1, b1);
    XorBit(8 * a + 4 * a3 + 2 * a2 + a1, 8 * b + 4 * b3 + 2 * b2 + b1, a0, b0);
  }

  lemma StepA()
    ensures FnvStep(0x811c_9dc5, 'a') == 0xe40c_292c
  {
    hide Xor;
    XorFour(0x811c9dc, 0x6, 0, 1, 0, 1, 0, 0, 0, 1);
    XorFour(0x811c9d, 0, 1, 1, 0, 0, 0, 1, 1, 0);
    XorZero(0x811c9d);
  }

  lemma Step1()
    ensures FnvStep(0x811c_9dc5, 'f') == 0xe30c_2799
  {
    hide Xor;
    XorFour(0x811c9dc, 0x6, 0, 1, 0, 1, 0, 1, 1, 0);
    XorFour(0x811c9d, 0, 1, 1, 0, 0, 0, 1, 1, 0);
    XorZero(0x811c9d);
  }

  lemma Step2()
    ensures FnvStep(0xe30c_2799, 'o') == 0x6222_e842
  {
    hide Xor;
    XorFour(0xe30c279, 0x6, 1, 0, 0, 1, 1, 1, 1, 1);
    XorFour(0xe30c27, 0, 1, 0, 0, 1, 0, 1, 1, 0);
    XorZero(0xe30c27);
  }

  lemma Step3()
    ensures FnvStep(0x6222_e842, 'o') == 0xa9f3_7ed7
  {
    hide Xor;
    XorFour(0x6222e84, 0x6, 0, 0, 1, 0, 1, 1, 1, 1);
    XorFour(0x6222e8, 0, 0, 1, 0, 0, 0, 1, 1, 0);
    XorZero(0x6222e8);
  }

  lemma Step4()
    ensures FnvStep(0xa9f3_7ed7, 'b') == 0x3f50_76ef
  {
    hide Xor;
    XorFour(0xa9f37ed, 0x6, 0, 1, 1, 1, 0, 0, 1, 0);
    XorFour(0xa9f37e, 0, 1, 1, 0, 1, 0, 1, 1, 0);
    XorZero(0xa9f37e);
  }

  lemma Step5()
    ensures FnvStep(0x3f50_76ef, 'a') == 0x39aa_a18a
  {
    hide Xor;
    XorFour(0x3f5076e, 0x6, 1, 1, 1, 1, 0, 0, 0, 1);
    XorFour(0x3f5076, 0, 1, 1, 1, 0, 0, 1, 1, 0);
    XorZero(0x3f5076);
  }

  lemma Step6()
    ensures FnvStep(0x39aa_a18a, 'r') == 0xbf9c_f968
  {
    hide Xor;
    XorFour(0x39aaa18, 0x7, 1, 0, 1, 0, 0, 0, 1, 0);
    XorFour(0x39aaa1, 0, 1, 0, 0, 0, 0, 1, 1, 1);
    XorZero(0x39aaa1);
  }

  method Hash(k: string) returns (h: nat)
    ensures h == Fnv(k)
  {
    h := FNV_OFFSET;
    for i := 0 to |k|
      invariant h == Fnv(k[..i])
    {
      assert k[..i + 1][..i] == k[..i];
      h := Xor(h, k[i] as int) * FNV_PRIME % TWO_TO_THE_32;
    }
    assert k[..|k|] == k;
  }

  /** Pick writes the routed key into the event and returns the queue the key
      hashes to. A table with an override is keyed by its override columns,
      whatever key the source attached. */
  method Pick(overrides: map<string, seq<string>>, queues: nat, e: Event) returns (q: nat, routed: Event)
    requires queues > 0
    ensures routed == Rekey(overrides, e) == e.(key := routed.key)
    ensures q == QueueOf(DefaultKey(overrides, e), queues) == Fnv(routed.key) % queues
    ensures Fqtn(e.meta) in overrides ==> forall types :: SpellsKey(types, e, overrides[Fqtn(e.meta)], routed.key)
    ensures Fqtn(e.meta) !in overrides ==> routed.key == if e.key == "" then Fqtn(e.meta) else e.key
  {
    var k := DefaultKey(overrides, e);
    routed := e.(key := k);
    var h := Hash(k);
    q := h % queues;
    OverrideIsSpelled(overrides, e);
  }

  /** Routing again a routed event changes nothing: the Kafka record key is
      exactly the key the queue was chosen by. For a table with an override it
      spells the override columns, whatever the source's key; else it is the
      source's key, or the table if there is none. */
  lemma RoutingIsStable(overrides: map<string, seq<string>>, e: Event)
    ensures DefaultKey(overrides, Rekey(overrides, e)) == Rekey(overrides, e).key == DefaultKey(overrides, e)
    ensures Fqtn(e.meta) in overrides ==> forall types :: SpellsKey(types, e, overrides[Fqtn(e.meta)], Rekey(overrides, e).key)
    ensures Fqtn(e.meta) !in overrides ==> Rekey(overrides, e).key == if e.key == "" then Fqtn(e.meta) else e.key
  {
    hide SpellsKey, KeyFromColumns;
    OverrideIsSpelled(overrides, e);
    var fqtn := Fqtn(e.meta);
    if fqtn in overrides {
      assert CurrentRow(Rekey(overrides, e)) == CurrentRow(e);
    }
  }
}
