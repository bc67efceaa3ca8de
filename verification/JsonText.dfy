/** appendJSONString of pkg/serialize/json.go, and the string syntax of
    section 7 of RFC 8259 that reads it back. Strings are byte strings: a char
    is a byte. */
module JsonText {
  import opened Prelude

  const HEX: string := "0123456789abcdef"

  predicate IsPlain(c: char) { c >= ' ' && c != '"' && c != '\\' }

  /** The escape of one byte. */
  function EscapeChar(c: char): string {
    if IsPlain(c) then [c]
    else if c == '"' || c == '\\' then ['\\', c]
    else if c == '\n' then "\\n"
    else if c == '\r' then "\\r"
    else if c == '\t' then "\\t"
    else "\\u00" + [HEX[c as int / 16], HEX[c as int % 16]]
  }

  /** Byte-by-byte escaping. */
  function EscapeAll(s: string): string {
    if s == "" then "" else EscapeAll(s[..|s| - 1]) + EscapeChar(s[|s| - 1])
  }

  function Quoted(s: string): string { "\"" + EscapeAll(s) + "\"" }

  // ---- The run-copying loop ----

  lemma {:induction false} EscapeSnoc(s: string, c: char)
    ensures EscapeAll(s + [c]) == EscapeAll(s) + EscapeChar(c)
  {
    assert (s + [c])[..|s|] == s;
  }

  lemma PlainChar(c: char)
    requires IsPlain(c)
    ensures EscapeChar(c) == [c]
  {}

  lemma {:induction false} PlainRun(s: string, run: string)
    requires forall i :: 0 <= i < |run| ==> IsPlain(run[i])
    ensures EscapeAll(s + run) == EscapeAll(s) + run
  {
    hide EscapeAll, EscapeChar;
    if run == "" {
      assert s + run == s && EscapeAll(s) + run == EscapeAll(s);
    } else {
      var n := |run| - 1;
      PlainRun(s, run[..n]);
      EscapeSnoc(s + run[..n], run[n]);
      PlainChar(run[n]);
      assert s + run == (s + run[..n]) + [run[n]];
      assert EscapeAll(s) + run == EscapeAll(s) + run[..n] + [run[n]];
    }
  }

  method AppendJsonString(b: string, s: string) returns (r: string)
    ensures r == b + Quoted(s)
  {
    hide EscapeAll, EscapeChar;
    r := b + ['"'];
    var start := 0;
    assert EscapeAll(s[..0]) == "" by { NothingEscaped(s[..0]); }
    for i := 0 to |s|
      invariant 0 <= start <= i
      invariant r == b + ['"'] + EscapeAll(s[..start])
      invariant forall j :: start <= j < i ==> IsPlain(s[j])
    {
      var c := s[i];
      if c >= ' ' && c != '"' && c != '\\' { continue; }
      PlainRun(s[..start], s[start..i]);
      assert s[..start] + s[start..i] == s[..i];
      EscapeSnoc(s[..i], c);
      assert s[..i] + [c] == s[..i + 1];
      r := r + s[start..i];
      r := r + AppendEscape(c);
      start := i + 1;
    }
    PlainRun(s[..start], s[start..]);
    assert s[..start] + s[start..] == s;
    r := r + s[start..];
    r := r + ['"'];
  }

  lemma NothingEscaped(s: string)
    requires s == ""
    ensures EscapeAll(s) == ""
  {}

  /** The switch of the loop body. */
  function AppendEscape(c: char): (r: string)
    requires !IsPlain(c)
    ensures r == EscapeChar(c)
  {
    match c
    case '"' => "\\\""
    case '\\' => "\\\\"
    case '\n' => "\\n"
    case '\r' => "\\r"
    case '\t' => "\\t"
    case _ => ['\\', 'u', '0', '0', HEX[c as int / 16], HEX[c as int % 16]]
  }

  // ---- Reading strings (RFC 8259, section 7) ----

  datatype Read<T> = Fail | Got(value: T, rest: string)

  function HexValue(c: char): Option<int> {
    if '0' <= c <= '9' then Some(c as int - '0' as int)
    else if 'a' <= c <= 'f' then Some(c as int - 'a' as int + 10)
    else if 'A' <= c <= 'F' then Some(c as int - 'A' as int + 10)
    else None
  }

  function ShortEscape(c: char): Option<int> {
    match c
    case '"' => Some('"' as int)
    case '\\' => Some('\\' as int)
    case '/' => Some('/' as int)
    case 'b' => Some(8)
    case 'f' => Some(12)
    case 'n' => Some(10)
    case 'r' => Some(13)
    case 't' => Some(9)
    case _ => None
  }

  /** One character of a string token: itself, or the code unit an escape
      stands for. */
  function ReadChar(t: string): (r: Read<int>)
    ensures r.Got? ==> |r.rest| < |t|
  {
    if t == "" || t[0] < ' ' || t[0] == '"' then Fail
    else if t[0] != '\\' then Got(t[0] as int, t[1..])
    else if |t| >= 2 && ShortEscape(t[1]).Some? then Got(ShortEscape(t[1]).value, t[2..])
    else if |t| >= 6 && t[1] == 'u' && HexValue(t[2]).Some? && HexValue(t[3]).Some? && HexValue(t[4]).Some? && HexValue(t[5]).Some? then
      Got(((HexValue(t[2]).value * 16 + HexValue(t[3]).value) * 16 + HexValue(t[4]).value) * 16 + HexValue(t[5]).value, t[6..])
    else Fail
  }

  /** The characters of a string token after its opening quote, up to and
      including its closing quote. */
  function ReadString(t: string): (r: Read<seq<int>>)
    ensures r.Got? ==> |r.rest| < |t|
    decreases |t|
  {
    if t != "" && t[0] == '"' then Got([], t[1..])
    else
      var c := ReadChar(t);
      if c.Fail? then Fail
      else
        var more := ReadString(c.rest);
        if more.Fail? then Fail else Got([c.value] + more.value, more.rest)
  }

  /** The bytes of a string as code units. */
  function Units(s: string): seq<int> { seq(|s|, i requires 0 <= i < |s| => s[i] as int) }

  lemma UnitsInjective(a: string, b: string)
    requires Units(a) == Units(b)
    ensures a == b
  {
    forall i | 0 <= i < |a| ensures |a| == |b| && a[i] == b[i] {
      assert |Units(a)| == |a| && |Units(b)| == |b| && Units(a)[i] == Units(b)[i];
    }
    assert |a| == |Units(a)| == |Units(b)| == |b|;
  }

  lemma HexDigit(n: int)
    requires 0 <= n < 16
    ensures HexValue(HEX[n]) == Some(n)
  {
    assert n in {0, 1, 2, 3, 4, 5, 6, 7, 8, 9, 10, 11, 12, 13, 14, 15};
  }

  predicate HasShort(c: char) { c == '"' || c == '\\' || c == '\n' || c == '\r' || c == '\t' }

  /** The \u00XX escape of a control byte, read four hex digits at a time. */
  lemma {:induction false} ControlRoundTrip(c: char, u: string)
    requires c < ' ' && !HasShort(c)
    ensures ReadChar(EscapeChar(c) + u) == Got(c as int, u)
  {
    var hi, lo := HEX[c as int / 16], HEX[c as int % 16];
    HexDigit(c as int / 16);
    HexDigit(c as int % 16);
    HexDigit(0);
    assert EscapeChar(c) == ['\\', 'u', '0', '0', hi, lo];
    ReadsHex(['\\', 'u', '0', '0', hi, lo], u);
  }

  lemma {:induction false} ReadsHex(e: string, u: string)
    requires |e| == 6 && e[0] == '\\' && e[1] == 'u' && forall i :: 2 <= i < 6 ==> HexValue(e[i]).Some?
    ensures ReadChar(e + u)
         == Got(((HexValue(e[2]).value * 16 + HexValue(e[3]).value) * 16 + HexValue(e[4]).value) * 16 + HexValue(e[5]).value, u)
  {
    hide HexValue;
    assert (e + u)[6..] == u;
  }

  /** Every byte is read back from its escape. */
  lemma {:induction false} CharRoundTrip(c: char, u: string)
    ensures ReadChar(EscapeChar(c) + u) == Got(c as int, u)
  {
    hide HexValue;
    var t := EscapeChar(c) + u;
    if IsPlain(c) {
      assert t[1..] == u;
    } else if HasShort(c) {
      assert t[2..] == u;
    } else {
      ControlRoundTrip(c, u);
    }
  }

  lemma {:induction false} EscapeAppend(a: string, b: string)
    ensures EscapeAll(a + b) == EscapeAll(a) + EscapeAll(b)
  {
    hide EscapeAll, EscapeChar;
    if b == "" {
      NothingEscaped(b);
      assert a + b == a && EscapeAll(a) + "" == EscapeAll(a);
    } else {
      var n := |b| - 1;
      EscapeAppend(a, b[..n]);
      EscapeSnoc(b[..n], b[n]);
      EscapeSnoc(a + b[..n], b[n]);
      assert a + b == (a + b[..n]) + [b[n]] && b == b[..n] + [b[n]];
    }
  }

  lemma {:induction false} FirstEscape(s: string)
    requires s != ""
    ensures EscapeAll(s) == EscapeChar(s[0]) + EscapeAll(s[1..])
  {
    hide EscapeAll, EscapeChar;
    EscapeAppend([s[0]], s[1..]);
    assert [s[0]] + s[1..] == s;
    EscapeSnoc("", s[0]);
    NothingEscaped("");
    assert "" + [s[0]] == [s[0]] && "" + EscapeChar(s[0]) == EscapeChar(s[0]);
  }

  /** STRING ROUND TRIP. Reading the escaped text up to the closing quote gives
      back exactly the bytes, whatever follows. */
  lemma {:induction false} StringRoundTrip(s: string, u: string)
    ensures ReadString(EscapeAll(s) + "\"" + u) == Got(Units(s), u)
    decreases |s|
  {
    var t := EscapeAll(s) + "\"" + u;
    if s == "" {
      assert t[0] == '"' && t[1..] == u;
    } else {
      var tail := EscapeAll(s[1..]) + "\"" + u;
      FirstEscape(s);
      assert t == EscapeChar(s[0]) + tail;
      CharRoundTrip(s[0], tail);
      StringRoundTrip(s[1..], u);
      NotClosed(s[0], tail);
      assert [s[0] as int] + Units(s[1..]) == Units(s);
    }
  }

  lemma NotClosed(c: char, u: string)
    ensures (EscapeChar(c) + u)[0] != '"'
  {}

  /** No raw control byte and no unescaped quote. */
  predicate Inside(t: string) {
    || t == ""
    || (t[0] == '\\' && |t| >= 2 && t[1] >= ' ' && Inside(t[2..]))
    || (IsPlain(t[0]) && Inside(t[1..]))
  }

  lemma {:induction false} EscapedStaysInside(s: string)
    ensures Inside(EscapeAll(s))
    ensures forall i :: 0 <= i < |EscapeAll(s)| ==> EscapeAll(s)[i] >= ' '
    decreases |s|
  {
    if s != "" {
      FirstEscape(s);
      EscapedStaysInside(s[1..]);
      InsideAfter(s[0], EscapeAll(s[1..]));
    }
  }

  lemma InsideAfter(c: char, u: string)
    requires Inside(u)
    ensures Inside(EscapeChar(c) + u)
    ensures forall i :: 0 <= i < |EscapeChar(c)| ==> EscapeChar(c)[i] >= ' '
  {
    var t := EscapeChar(c) + u;
    if IsPlain(c) {
      assert t[1..] == u;
    } else if HasShort(c) {
      assert t[2..] == u;
    } else {
      var digits := ['0', '0', HEX[c as int / 16], HEX[c as int % 16]];
      PlainHex(c as int / 16);
      PlainHex(c as int % 16);
      assert t == ['\\', 'u'] + (digits + u);
      PlainInside(digits, u);
      assert t[2..] == digits + u;
    }
  }

  lemma PlainHex(n: int)
    requires 0 <= n < 16
    ensures IsPlain(HEX[n])
  {
    HexDigit(n);
  }

  lemma {:induction false} PlainInside(p: string, u: string)
    requires Inside(u) && forall i :: 0 <= i < |p| ==> IsPlain(p[i])
    ensures Inside(p + u)
  {
    if p == "" {
      assert p + u == u;
    } else {
      PlainInside(p[1..], u);
      assert (p + u)[1..] == p[1..] + u;
    }
  }
}
