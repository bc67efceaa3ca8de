/** A parser for sections 2 to 7 of RFC 8259, and the rendering of JSON
    objects it reads back. */
module Json {
  import opened Text
  import opened JsonText

  /** A value tree. A number is its lexeme; object members keep their order. */
  datatype Json = JNull | JBool(b: bool) | JNum(lexeme: string) | JStr(units: seq<int>)
                | JArr(items: seq<Json>) | JObj(members: seq<Member>)

  datatype Member = Member(name: seq<int>, value: Json)

  // ---- Section 2: white space ----

  predicate IsWs(c: char) { c == ' ' || c == '\t' || c == '\n' || c == '\r' }

  function SkipWs(t: string): (r: string)
    ensures |r| <= |t|
  {
    if t != "" && IsWs(t[0]) then SkipWs(t[1..]) else t
  }

  // ---- Section 6: numbers ----

  predicate IsNumChar(c: char) { IsDigit(c) || c == '-' || c == '+' || c == '.' || c == 'e' || c == 'E' }

  function NumRun(t: string): (n: nat)
    ensures n <= |t|
  {
    if t != "" && IsNumChar(t[0]) then 1 + NumRun(t[1..]) else 0
  }

  function DigitRun(t: string): (n: nat)
    ensures n <= |t|
  {
    if t != "" && IsDigit(t[0]) then 1 + DigitRun(t[1..]) else 0
  }

  predicate IsExp(t: string) {
    t == "" || ((t[0] == 'e' || t[0] == 'E')
                && var d := if |t| > 1 && (t[1] == '+' || t[1] == '-') then t[2..] else t[1..];
                   d != "" && DigitRun(d) == |d|)
  }

  predicate IsFracExp(t: string) {
    if t != "" && t[0] == '.' then
      var n := DigitRun(t[1..]);
      n > 0 && IsExp(t[1 + n..])
    else IsExp(t)
  }

  /** [ minus ] int [ frac ] [ exp ] */
  predicate IsNumber(l: string) {
    var a := if l != "" && l[0] == '-' then l[1..] else l;
    var n := DigitRun(a);
    n > 0 && (a[0] == '0' ==> n == 1) && IsFracExp(a[n..])
  }

  // ---- Sections 3 to 5: values, objects, arrays ----

  predicate Starts(t: string, word: string) { |word| <= |t| && t[..|word|] == word }

  /** A scalar at the start of t. */
  function ReadScalar(t: string): (r: Read<Json>)
    ensures r.Got? ==> |r.rest| < |t|
  {
    if t != "" && t[0] == '"' then
      var u := ReadString(t[1..]);
      if u.Fail? then Fail else Got(JStr(u.value), SkipWs(u.rest))
    else if Starts(t, "null") then Got(JNull, SkipWs(t[4..]))
    else if Starts(t, "true") then Got(JBool(true), SkipWs(t[4..]))
    else if Starts(t, "false") then Got(JBool(false), SkipWs(t[5..]))
    else
      var n := NumRun(t);
      if n > 0 && IsNumber(t[..n]) then Got(JNum(t[..n]), SkipWs(t[n..])) else Fail
  }

  /** A value with the white space around it. */
  function ReadValue(t: string): (r: Read<Json>)
    ensures r.Got? ==> |r.rest| < |t|
    decreases |t|, 0
  {
    var s := SkipWs(t);
    if s != "" && s[0] == '{' then
      var body := SkipWs(s[1..]);
      if body != "" && body[0] == '}' then Got(JObj([]), SkipWs(body[1..]))
      else
        var ms := ReadMembers(body);
        if ms.Fail? then Fail else Got(JObj(ms.value), ms.rest)
    else if s != "" && s[0] == '[' then
      var body := SkipWs(s[1..]);
      if body != "" && body[0] == ']' then Got(JArr([]), SkipWs(body[1..]))
      else
        var items := ReadItems(body);
        if items.Fail? then Fail else Got(JArr(items.value), items.rest)
    else ReadScalar(s)
  }

  /** The elements of an array, up to and including the closing bracket. */
  function ReadItems(t: string): (r: Read<seq<Json>>)
    ensures r.Got? ==> |r.rest| < |t|
    decreases |t|, 1
  {
    var v := ReadValue(t);
    if v.Fail? || v.rest == "" then Fail
    else if v.rest[0] == ']' then Got([v.value], SkipWs(v.rest[1..]))
    else if v.rest[0] == ',' then
      var more := ReadItems(v.rest[1..]);
      if more.Fail? then Fail else Got([v.value] + more.value, more.rest)
    else Fail
  }

  /** A member's name and colon. */
  function ReadName(t: string): (r: Read<seq<int>>)
    ensures r.Got? ==> |r.rest| < |t|
  {
    var s := SkipWs(t);
    if s == "" || s[0] != '"' then Fail
    else
      var u := ReadString(s[1..]);
      if u.Fail? then Fail
      else
        var colon := SkipWs(u.rest);
        if colon == "" || colon[0] != ':' then Fail else Got(u.value, colon[1..])
  }

  /** The members of an object, up to and including the closing brace. */
  function ReadMembers(t: string): (r: Read<seq<Member>>)
    ensures r.Got? ==> |r.rest| < |t|
    decreases |t|, 1
  {
    var name := ReadName(t);
    if name.Fail? then Fail
    else
      var v := ReadValue(name.rest);
      if v.Fail? || v.rest == "" then Fail
      else if v.rest[0] == '}' then Got([Member(name.value, v.value)], SkipWs(v.rest[1..]))
      else if v.rest[0] == ',' then
        var more := ReadMembers(v.rest[1..]);
        if more.Fail? then Fail else Got([Member(name.value, v.value)] + more.value, more.rest)
      else Fail
  }

  /** `text` is a JSON text for `tree`. */
  predicate Reads(text: string, tree: Json) { ReadValue(text) == Got(tree, "") }

  // ---- What is read does not depend on what follows ----

  /** A structural character follows. */
  predicate Delimits(u: string) { u != "" && (u[0] == ',' || u[0] == '}' || u[0] == ']') }

  lemma {:induction false} SkipWsExtends(t: string, u: string)
    requires u != "" && !IsWs(u[0])
    ensures SkipWs(t + u) == SkipWs(t) + u
  {
    if t == "" {
      assert t + u == u;
    } else if IsWs(t[0]) {
      assert (t + u)[1..] == t[1..] + u;
      SkipWsExtends(t[1..], u);
    }
  }

  lemma {:induction false} NumRunExtends(t: string, u: string)
    requires u != "" && !IsNumChar(u[0])
    ensures NumRun(t + u) == NumRun(t)
  {
    if t == "" {
      assert t + u == u;
    } else if IsNumChar(t[0]) {
      assert (t + u)[1..] == t[1..] + u;
      NumRunExtends(t[1..], u);
    }
  }

  lemma {:induction false} CharExtends(t: string, u: string)
    requires ReadChar(t).Got?
    ensures ReadChar(t + u) == Got(ReadChar(t).value, ReadChar(t).rest + u)
  {
    hide HexValue, ShortEscape;
    var s := t + u;
    assert forall i :: 0 <= i < |t| ==> s[i] == t[i];
    assert s[1..] == t[1..] + u;
    if |t| >= 2 { assert s[2..] == t[2..] + u; }
    if |t| >= 6 { assert s[6..] == t[6..] + u; }
  }

  lemma {:induction false} StringExtends(t: string, u: string)
    requires ReadString(t).Got?
    ensures ReadString(t + u) == Got(ReadString(t).value, ReadString(t).rest + u)
    decreases |t|
  {
    hide ReadChar;
    if t[0] == '"' {
      assert (t + u)[1..] == t[1..] + u;
    } else {
      CharExtends(t, u);
      StringExtends(ReadChar(t).rest, u);
    }
  }

  lemma {:induction false} WordExtends(t: string, u: string, word: string)
    requires u != "" && u[0] !in word && word != ""
    ensures Starts(t + u, word) <==> Starts(t, word)
    ensures Starts(t, word) ==> (t + u)[|word|..] == t[|word|..] + u
  {
    var s := t + u;
    if |word| <= |t| {
      assert s[..|word|] == t[..|word|];
    } else if |word| <= |s| {
      assert s[..|word|][|t|] == u[0];
    }
  }

  lemma NumberExtends(t: string, u: string)
    requires Delimits(u) && NumRun(t) > 0
    ensures NumRun(t + u) == NumRun(t) && (t + u)[..NumRun(t)] == t[..NumRun(t)]
    ensures SkipWs((t + u)[NumRun(t)..]) == SkipWs(t[NumRun(t)..]) + u
  {
    hide SkipWs;
    var n := NumRun(t);
    NumRunExtends(t, u);
    assert (t + u)[n..] == t[n..] + u;
    SkipWsExtends(t[n..], u);
  }

  lemma WordsExtend(t: string, u: string)
    requires Delimits(u)
    ensures Starts(t + u, "null") <==> Starts(t, "null")
    ensures Starts(t + u, "true") <==> Starts(t, "true")
    ensures Starts(t + u, "false") <==> Starts(t, "false")
    ensures Starts(t, "null") || Starts(t, "true") ==> SkipWs((t + u)[4..]) == SkipWs(t[4..]) + u
    ensures Starts(t, "false") ==> SkipWs((t + u)[5..]) == SkipWs(t[5..]) + u
  {
    hide SkipWs;
    WordExtends(t, u, "null");
    WordExtends(t, u, "true");
    WordExtends(t, u, "false");
    if |t| >= 4 { SkipWsExtends(t[4..], u); }
    if |t| >= 5 { SkipWsExtends(t[5..], u); }
  }

  lemma ScalarExtends(t: string, u: string)
    requires ReadScalar(t).Got? && Delimits(u)
    ensures ReadScalar(t + u) == Got(ReadScalar(t).value, ReadScalar(t).rest + u)
  {
    hide SkipWs, NumRun, IsNumber, ReadString, Starts;
    assert t != "" by { ScalarNotEmpty(); }
    assert (t + u)[0] == t[0];
    if t[0] == '"' {
      assert (t + u)[1..] == t[1..] + u;
      StringExtends(t[1..], u);
      SkipWsExtends(ReadString(t[1..]).rest, u);
    } else {
      StartsLength(t);
      StartsLength(t + u);
      WordsExtend(t, u);
      if !Starts(t, "null") && !Starts(t, "true") && !Starts(t, "false") { NumberExtends(t, u); }
    }
  }

  lemma StartsLength(t: string)
    ensures Starts(t, "null") || Starts(t, "true") ==> |t| >= 4
    ensures Starts(t, "false") ==> |t| >= 5
  {}

  lemma ScalarNotEmpty()
    ensures ReadScalar("").Fail?
  {}

  lemma NameExtends(t: string, u: string)
    requires ReadName(t).Got? && Delimits(u)
    ensures ReadName(t + u) == Got(ReadName(t).value, ReadName(t).rest + u)
  {
    hide SkipWs, ReadString;
    SkipWsExtends(t, u);
    var s := SkipWs(t);
    assert (s + u)[1..] == s[1..] + u;
    StringExtends(s[1..], u);
    var r := ReadString(s[1..]).rest;
    SkipWsExtends(r, u);
    var c := SkipWs(r);
    assert (c + u)[1..] == c[1..] + u;
  }

  lemma {:induction false} ValueExtends(t: string, u: string)
    requires ReadValue(t).Got? && Delimits(u)
    ensures ReadValue(t + u) == Got(ReadValue(t).value, ReadValue(t).rest + u)
    decreases |t|, 0
  {
    hide SkipWs, ReadScalar, ReadMembers, ReadItems;
    SkipWsExtends(t, u);
    var s := SkipWs(t);
    if s != "" && (s[0] == '{' || s[0] == '[') {
      assert (s + u)[1..] == s[1..] + u;
      SkipWsExtends(s[1..], u);
      var body := SkipWs(s[1..]);
      if body != "" {
        assert (body + u)[1..] == body[1..] + u;
        SkipWsExtends(body[1..], u);
      }
      if s[0] == '{' && !(body != "" && body[0] == '}') {
        MembersExtend(body, u);
      } else if s[0] == '[' && !(body != "" && body[0] == ']') {
        ItemsExtend(body, u);
      }
    } else {
      ScalarExtends(s, u);
      if s == "" { ScalarNotEmpty(); }
    }
  }

  lemma {:induction false} ItemsExtend(t: string, u: string)
    requires ReadItems(t).Got? && Delimits(u)
    ensures t != "" && ReadItems(t + u) == Got(ReadItems(t).value, ReadItems(t).rest + u)
    decreases |t|, 1
  {
    hide SkipWs, ReadValue;
    ValueExtends(t, u);
    var r := ReadValue(t).rest;
    assert (r + u)[1..] == r[1..] + u;
    if r[0] == ']' { SkipWsExtends(r[1..], u); } else { ItemsExtend(r[1..], u); }
  }

  lemma {:induction false} MembersExtend(t: string, u: string)
    requires ReadMembers(t).Got? && Delimits(u)
    ensures t != "" && ReadMembers(t + u) == Got(ReadMembers(t).value, ReadMembers(t).rest + u)
    decreases |t|, 1
  {
    hide SkipWs, ReadValue, ReadName;
    NameExtends(t, u);
    var n := ReadName(t).rest;
    ValueExtends(n, u);
    var r := ReadValue(n).rest;
    assert (r + u)[1..] == r[1..] + u;
    if r[0] == '}' { SkipWsExtends(r[1..], u); } else { MembersExtend(r[1..], u); }
  }

  // ---- Scalars that are rendered ----

  lemma QuotedReads(s: string)
    ensures Reads(Quoted(s), JStr(Units(s)))
  {
    hide EscapeAll, ReadString, Units, ReadMembers, ReadItems, NumRun, Starts;
    var t := Quoted(s);
    assert t[1..] == EscapeAll(s) + "\"" + "";
    StringRoundTrip(s, "");
    assert SkipWs(t) == t && SkipWs("") == "";
  }

  lemma WordsRead()
    ensures Reads("null", JNull) && Reads("true", JBool(true)) && Reads("false", JBool(false))
  {
    assert "null"[4..] == "" && "true"[4..] == "" && "false"[5..] == "";
  }

  lemma {:induction false} RunOfDigits(d: string)
    requires forall i :: 0 <= i < |d| ==> IsDigit(d[i])
    ensures DigitRun(d) == |d| && NumRun(d) == |d|
  {
    if d != "" { RunOfDigits(d[1..]); }
  }

  lemma DecIsNumber(n: int)
    ensures IsNumber(Dec(n)) && NumRun(Dec(n)) == |Dec(n)| > 0
    ensures IsNumChar(Dec(n)[0])
  {
    hide Digits;
    var d := Digits(if n < 0 then -n else n);
    RunOfDigits(d);
    assert d[|d|..] == "";
    if n < 0 { assert ("-" + d)[1..] == d; }
  }

  lemma DecReads(n: int)
    ensures Reads(Dec(n), JNum(Dec(n)))
  {
    hide IsNumber, NumRun, Dec;
    DecIsNumber(n);
    var t := Dec(n);
    assert t[..|t|] == t && t[|t|..] == "";
    NumberIsNoWord(t);
  }

  lemma NumberIsNoWord(t: string)
    requires t != "" && IsNumChar(t[0])
    ensures !Starts(t, "null") && !Starts(t, "true") && !Starts(t, "false")
  {
    assert |t| >= 4 ==> t[..4][0] == t[0];
    assert |t| >= 5 ==> t[..5][0] == t[0];
  }

  // ---- Objects that are rendered ----

  /** A member to render: its text stands for its tree. */
  datatype Field = Field(name: string, text: string, tree: Json)

  function RenderField(f: Field): string { Quoted(f.name) + ":" + f.text }

  function RenderFields(fs: seq<Field>): string {
    if fs == [] then ""
    else RenderField(fs[0]) + (if |fs| > 1 then "," else "") + RenderFields(fs[1..])
  }

  function RenderObject(fs: seq<Field>): string { "{" + RenderFields(fs) + "}" }

  function TreeOf(fs: seq<Field>): seq<Member> {
    if fs == [] then [] else [Member(Units(fs[0].name), fs[0].tree)] + TreeOf(fs[1..])
  }

  lemma NameReads(name: string, u: string)
    ensures ReadName(Quoted(name) + ":" + u) == Got(Units(name), u)
  {
    hide ReadString, EscapeAll, Units;
    var t := Quoted(name) + ":" + u;
    assert t[1..] == EscapeAll(name) + "\"" + (":" + u);
    StringRoundTrip(name, ":" + u);
    assert SkipWs(t) == t && SkipWs(":" + u) == ":" + u;
    assert (":" + u)[1..] == u;
  }

  /** One member and the structural character after it. */
  lemma FieldReads(f: Field, follow: string)
    requires Reads(f.text, f.tree) && Delimits(follow)
    ensures var t := RenderField(f) + follow;
            ReadName(t) == Got(Units(f.name), f.text + follow) && ReadValue(f.text + follow) == Got(f.tree, follow)
  {
    hide ReadName, ReadValue, Quoted, Units;
    assert RenderField(f) + follow == Quoted(f.name) + ":" + (f.text + follow);
    NameReads(f.name, f.text + follow);
    ValueExtends(f.text, follow);
    assert "" + follow == follow;
  }

  lemma LastFieldReads(f: Field, u: string)
    requires Reads(f.text, f.tree)
    ensures ReadMembers(RenderField(f) + ("}" + u)) == Got([Member(Units(f.name), f.tree)], SkipWs(u))
  {
    hide ReadName, ReadValue, RenderField, Units, SkipWs;
    FieldReads(f, "}" + u);
    assert ("}" + u)[1..] == u;
  }

  lemma NextFieldReads(f: Field, u: string)
    requires Reads(f.text, f.tree) && ReadMembers(u).Got?
    ensures ReadMembers(RenderField(f) + ("," + u))
         == Got([Member(Units(f.name), f.tree)] + ReadMembers(u).value, ReadMembers(u).rest)
  {
    hide ReadName, ReadValue, RenderField, Units, SkipWs;
    FieldReads(f, "," + u);
    assert ("," + u)[1..] == u;
  }

  lemma {:induction false} FirstOfMany(fs: seq<Field>, u: string)
    requires |fs| > 1
    ensures RenderFields(fs) + "}" + u == RenderField(fs[0]) + ("," + (RenderFields(fs[1..]) + "}" + u))
    ensures TreeOf(fs) == [Member(Units(fs[0].name), fs[0].tree)] + TreeOf(fs[1..])
  {
    hide RenderField, Units;
    Regroup(RenderField(fs[0]), ",", RenderFields(fs[1..]), "}", u);
  }

  lemma Regroup(a: string, b: string, c: string, d: string, e: string)
    ensures a + b + c + d + e == a + (b + (c + d + e))
  {}

  lemma {:induction false} OnlyField(fs: seq<Field>, u: string)
    requires |fs| == 1
    ensures RenderFields(fs) + "}" + u == RenderField(fs[0]) + ("}" + u)
    ensures TreeOf(fs) == [Member(Units(fs[0].name), fs[0].tree)]
  {
    hide RenderField, Units;
    EmptyFields(fs[1..]);
    Regroup(RenderField(fs[0]), "", "", "}", u);
    assert "" + ("" + "}" + u) == "}" + u;
  }

  lemma {:induction false} FieldsRead(fs: seq<Field>, u: string)
    requires fs != [] && forall i :: 0 <= i < |fs| ==> Reads(fs[i].text, fs[i].tree)
    ensures ReadMembers(RenderFields(fs) + "}" + u) == Got(TreeOf(fs), SkipWs(u))
    decreases |fs|
  {
    hide ReadMembers, RenderFields, TreeOf, RenderField, Reads, Units, SkipWs;
    if |fs| > 1 {
      FieldsRead(fs[1..], u);
      NextFieldReads(fs[0], RenderFields(fs[1..]) + "}" + u);
      FirstOfMany(fs, u);
    } else {
      LastFieldReads(fs[0], u);
      OnlyField(fs, u);
    }
  }

  lemma QuotedOpens(fs: seq<Field>, u: string)
    requires fs != []
    ensures RenderFields(fs) + u != "" && (RenderFields(fs) + u)[0] == '"'
  {
    hide EscapeAll;
  }

  lemma {:induction false} BraceReads(body: string)
    requires body != "" && body[0] == '"' && ReadMembers(body).Got?
    ensures ReadValue("{" + body) == Got(JObj(ReadMembers(body).value), ReadMembers(body).rest)
  {
    hide ReadMembers, ReadScalar, ReadItems;
    var t := "{" + body;
    assert t[1..] == body && SkipWs(t) == t && SkipWs(body) == body;
  }

  lemma EmptyObjectReads()
    ensures Reads("{}", JObj([]))
  {
    hide ReadMembers, ReadScalar, ReadItems;
    assert "{}"[1..] == "}" && "}"[1..] == "" && SkipWs("{}") == "{}" && SkipWs("}") == "}";
  }

  /** OBJECT ROUND TRIP. If every member's text stands for its tree, the
      rendered object stands for the object of these members, in order. */
  lemma {:induction false} ObjectReads(fs: seq<Field>)
    requires forall i :: 0 <= i < |fs| ==> Reads(fs[i].text, fs[i].tree)
    ensures Reads(RenderObject(fs), JObj(TreeOf(fs)))
  {
    hide ReadMembers, RenderFields, TreeOf, ReadScalar, ReadItems, ReadValue;
    var body := RenderFields(fs) + "}";
    if fs == [] {
      EmptyFields(fs);
      EmptyObjectReads();
      assert "{" + "" + "}" == "{}";
    } else {
      QuotedOpens(fs, "}");
      FieldsRead(fs, "");
      assert body + "" == body && SkipWs("") == "";
      BraceReads(body);
      assert RenderObject(fs) == "{" + body;
    }
  }

  lemma EmptyFields(fs: seq<Field>)
    requires fs == []
    ensures RenderFields(fs) == "" && TreeOf(fs) == []
  {}

  /** Members are appended one by one. */
  lemma {:induction false} FieldsSnoc(fs: seq<Field>, f: Field)
    ensures RenderFields(fs + [f]) == RenderFields(fs) + (if fs == [] then "" else ",") + RenderField(f)
    ensures TreeOf(fs + [f]) == TreeOf(fs) + [Member(Units(f.name), f.tree)]
    decreases |fs|
  {
    hide RenderField, Units;
    if fs == [] {
      assert fs + [f] == [f] && [f][1..] == [];
      assert RenderFields([f]) == RenderField(f) + "" + RenderFields([]);
      assert RenderField(f) + "" + "" == RenderField(f) && "" + "" + RenderField(f) == RenderField(f);
    } else {
      assert (fs + [f])[1..] == fs[1..] + [f] && (fs + [f])[0] == fs[0];
      FieldsSnoc(fs[1..], f);
      var a, c, e := RenderField(fs[0]), RenderFields(fs[1..]), RenderField(f);
      if |fs| == 1 {
        assert a + "," + ("" + "" + e) == (a + "" + "") + "," + e;
      } else {
        assert a + "," + (c + "," + e) == (a + "," + c) + "," + e;
      }
    }
  }
}
