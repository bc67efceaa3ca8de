/** pkg/serialize/json.go: the JSON envelope of an event. */
module Envelope {
  import opened Prelude
  import opened Events
  import opened Text
  import opened JsonText
  import opened Json

  /** Base64 of section 4 of RFC 4648, kept abstract: an injective encoding
      into text without quotes, backslashes or control bytes. */
  ghost predicate IsArmor(b64: string -> string) {
    && (forall b, i :: 0 <= i < |b64(b)| ==> IsPlain(b64(b)[i]))
    && (forall a, b :: b64(a) == b64(b) ==> a == b)
  }

  /** A Raw value holds a JSON text, or nothing. */
  predicate ValueOk(v: Value) {
    v.Raw? && v.text != "" ==> ReadValue(v.text).Got? && ReadValue(v.text).rest == ""
  }

  ghost predicate RowOk(m: Option<Row>) { m.Some? ==> forall k :: k in m.value ==> ValueOk(m.value[k]) }

  ghost predicate EventOk(e: Event) { RowOk(e.before) && RowOk(e.after) }

  // ---- The intended trees ----

  function ValueTree(b64: string -> string, v: Value): Json {
    match v
    case Null => JNull
    case Str(s) => JStr(Units(s))
    case Bytes(b) => JStr(Units(b64(b)))
    case Raw(text) => if text == "" || ReadValue(text).Fail? then JNull else ReadValue(text).value
    case Int(n) => JNum(Dec(n))
    case Bool(f) => JBool(f)
  }

  function ValueText(b64: string -> string, v: Value): string {
    match v
    case Null => "null"
    case Str(s) => Quoted(s)
    case Bytes(b) => "\"" + b64(b) + "\""
    case Raw(text) => if text == "" then "null" else text
    case Int(n) => Dec(n)
    case Bool(f) => if f then "true" else "false"
  }

  /** The columns of a row in byte order of their names. */
  function RowFields(b64: string -> string, m: Row, names: seq<string>): seq<Field>
    requires forall i :: 0 <= i < |names| ==> names[i] in m
  {
    seq(|names|, i requires 0 <= i < |names| =>
      Field(names[i], ValueText(b64, m[names[i]]), ValueTree(b64, m[names[i]])))
  }

  lemma SortedNames(m: Row)
    ensures forall i :: 0 <= i < |Sorted(m.Keys)| ==> Sorted(m.Keys)[i] in m
  {
    SortedIsAscending(m.Keys);
    forall i | 0 <= i < |Sorted(m.Keys)| ensures Sorted(m.Keys)[i] in m {
      assert Sorted(m.Keys)[i] in Elements(Sorted(m.Keys));
    }
  }

  function ColumnsOf(b64: string -> string, m: Row): seq<Field> {
    SortedNames(m);
    RowFields(b64, m, Sorted(m.Keys))
  }

  function RowText(b64: string -> string, m: Option<Row>): string {
    if m.None? then "null" else RenderObject(ColumnsOf(b64, m.value))
  }

  function RowTree(b64: string -> string, m: Option<Row>): Json {
    if m.None? then JNull else JObj(TreeOf(ColumnsOf(b64, m.value)))
  }

  function StrField(name: string, s: string): Field { Field(name, Quoted(s), JStr(Units(s))) }
  function NumField(name: string, n: int): Field { Field(name, Dec(n), JNum(Dec(n))) }

  function If(c: bool, f: Field): seq<Field> { if c then [f] else [] }

  /** Zero fields are omitted. */
  function SourceFields(m: SourceMeta): seq<Field> {
    [StrField("connector", m.connector)] + If(m.serverId != 0, NumField("server_id", m.serverId))
    + [StrField("db", m.db), StrField("table", m.table)]
    + If(m.gtid != "", StrField("gtid", m.gtid)) + If(m.file != "", StrField("file", m.file))
    + If(m.pos != 0, NumField("pos", m.pos)) + If(m.txOrder != 0, NumField("tx_order", m.txOrder))
  }

  function OpText(op: Op): string {
    match op case Insert => "c" case Update => "u" case Delete => "d"
  }

  function EventFields(b64: string -> string, e: Event): seq<Field> {
    [StrField("id", e.id), StrField("op", OpText(e.op)),
     Field("before", RowText(b64, e.before), RowTree(b64, e.before)),
     Field("after", RowText(b64, e.after), RowTree(b64, e.after)),
     Field("source", RenderObject(SourceFields(e.meta)), JObj(TreeOf(SourceFields(e.meta)))),
     NumField("ts_ms", e.occurredMs)]
  }

  // ---- Round trip ----

  lemma ArmorIsQuoted(b64: string -> string, b: string)
    requires IsArmor(b64)
    ensures "\"" + b64(b) + "\"" == Quoted(b64(b))
  {
    NothingEscaped("");
    PlainRun("", b64(b));
    assert "" + b64(b) == b64(b);
  }

  /** The text of every value reads as a tree that means the value. */
  lemma ValueReads(b64: string -> string, v: Value)
    requires IsArmor(b64) && ValueOk(v)
    ensures Reads(ValueText(b64, v), ValueTree(b64, v)) && MeansValue(b64, v, ValueTree(b64, v))
  {
    hide ReadValue, Quoted, Units, Dec, IsArmor, MeansValue;
    WordsRead();
    TreeMeansValue(b64, v);
    match v
    case Null =>
    case Str(s) => QuotedReads(s);
    case Bytes(b) => ArmorIsQuoted(b64, b); QuotedReads(b64(b));
    case Raw(text) =>
    case Int(n) => DecReads(n);
    case Bool(_) =>
  }

  /** The text of an image reads as null, or as an object of exactly its
      columns. */
  lemma RowReads(b64: string -> string, m: Option<Row>)
    requires IsArmor(b64) && RowOk(m)
    ensures Reads(RowText(b64, m), RowTree(b64, m)) && MeansRow(b64, m, RowTree(b64, m))
  {
    hide ReadValue, ValueText, ValueTree, IsArmor, ValueOk, RenderObject, TreeOf, Sorted, MeansRow, MeansValue;
    WordsRead();
    TreeMeansRow(b64, m);
    if m.Some? {
      SortedNames(m.value);
      var names, fs := Sorted(m.value.Keys), ColumnsOf(b64, m.value);
      forall i | 0 <= i < |fs| ensures Reads(fs[i].text, fs[i].tree) {
        ValueReads(b64, m.value[names[i]]);
      }
      ObjectReads(fs);
    }
  }

  lemma StrFieldReads(name: string, s: string)
    ensures Reads(StrField(name, s).text, StrField(name, s).tree)
  {
    QuotedReads(s);
  }

  lemma NumFieldReads(name: string, n: int)
    ensures Reads(NumField(name, n).text, NumField(name, n).tree)
  {
    DecReads(n);
  }

  /** The text of a source object, with zero fields left out. */
  lemma SourceReads(m: SourceMeta)
    ensures Reads(RenderObject(SourceFields(m)), JObj(TreeOf(SourceFields(m)))) && MeansSource(m, JObj(TreeOf(SourceFields(m))))
  {
    hide MeansSource, Reads, StrField, NumField, RenderObject, TreeOf;
    StrFieldReads("connector", m.connector);
    NumFieldReads("server_id", m.serverId);
    StrFieldReads("db", m.db);
    StrFieldReads("table", m.table);
    StrFieldReads("gtid", m.gtid);
    StrFieldReads("file", m.file);
    NumFieldReads("pos", m.pos);
    NumFieldReads("tx_order", m.txOrder);
    ObjectReads(SourceFields(m));
    SourceDecodes(m);
  }

  /** ENVELOPE ROUND TRIP. A parser of RFC 8259 reads from the envelope
      exactly the intended tree. */
  lemma EnvelopeReads(b64: string -> string, e: Event)
    requires IsArmor(b64) && EventOk(e)
    ensures Reads(RenderObject(EventFields(b64, e)), JObj(TreeOf(EventFields(b64, e))))
  {
    hide Reads, StrField, NumField, RenderObject, TreeOf, RowText, RowTree, SourceFields, IsArmor;
    StrFieldReads("id", e.id);
    StrFieldReads("op", OpText(e.op));
    RowReads(b64, e.before);
    RowReads(b64, e.after);
    SourceReads(e.meta);
    NumFieldReads("ts_ms", e.occurredMs);
    ObjectReads(EventFields(b64, e));
  }

  // ---- Decoding fields ----

  function Lookup(ms: seq<Member>, name: seq<int>): Option<Json> {
    if ms == [] then None else if ms[0].name == name then Some(ms[0].value) else Lookup(ms[1..], name)
  }

  /** A member of an object; absent members decode to null. */
  function Get(tree: Json, name: string): Json {
    if tree.JObj? && Lookup(tree.members, Units(name)).Some? then Lookup(tree.members, Units(name)).value else JNull
  }

  /** Absent strings and numbers decode to their zero values. */
  function StrOf(tree: Json): seq<int> { if tree.JStr? then tree.units else [] }
  function NumOf(tree: Json): int { if tree.JNum? then DecValue(tree.lexeme) else 0 }

  // ---- What a message means, read off its tree ----

  ghost predicate MeansValue(b64: string -> string, v: Value, t: Json) {
    match v
    case Null => t == JNull
    case Str(s) => t == JStr(Units(s))
    case Bytes(b) => t == JStr(Units(b64(b)))
    case Raw(text) => if text == "" then t == JNull else ReadValue(text) == Got(t, "")
    case Int(n) => t.JNum? && DecValue(t.lexeme) == n
    case Bool(f) => t == JBool(f)
  }

  ghost predicate MeansColumn(b64: string -> string, m: Row, ms: seq<Member>, name: string) {
    var t := Lookup(ms, Units(name));
    if name in m then t.Some? && MeansValue(b64, m[name], t.value) else t == None
  }

  ghost predicate MeansRow(b64: string -> string, m: Option<Row>, t: Json) {
    if m.None? then t == JNull else t.JObj? && forall name :: MeansColumn(b64, m.value, t.members, name)
  }

  /** A string or number that is left out when it is zero. */
  ghost predicate MeansText(ms: seq<Member>, name: string, s: string) {
    Lookup(ms, Units(name)) == if s == "" then None else Some(JStr(Units(s)))
  }

  ghost predicate MeansNumber(ms: seq<Member>, name: string, n: int) {
    var t := Lookup(ms, Units(name));
    if n == 0 then t == None else t.Some? && t.value.JNum? && DecValue(t.value.lexeme) == n
  }

  ghost predicate MeansSource(m: SourceMeta, t: Json) {
    && t.JObj?
    && Lookup(t.members, Units("connector")) == Some(JStr(Units(m.connector)))
    && Lookup(t.members, Units("db")) == Some(JStr(Units(m.db)))
    && Lookup(t.members, Units("table")) == Some(JStr(Units(m.table)))
    && MeansNumber(t.members, "server_id", m.serverId) && MeansNumber(t.members, "pos", m.pos)
    && MeansNumber(t.members, "tx_order", m.txOrder)
    && MeansText(t.members, "gtid", m.gtid) && MeansText(t.members, "file", m.file)
  }

  /** The operation is one of the letters c, u and d. */
  ghost predicate MeansOp(op: Op, t: Json) {
    t == JStr([match op case Insert => 'c' as int case Update => 'u' as int case Delete => 'd' as int])
  }

  ghost predicate MeansEvent(b64: string -> string, e: Event, t: Json) {
    && t.JObj?
    && Lookup(t.members, Units("id")) == Some(JStr(Units(e.id)))
    && Lookup(t.members, Units("op")).Some? && MeansOp(e.op, Get(t, "op"))
    && Lookup(t.members, Units("before")).Some? && MeansRow(b64, e.before, Get(t, "before"))
    && Lookup(t.members, Units("after")).Some? && MeansRow(b64, e.after, Get(t, "after"))
    && Lookup(t.members, Units("source")).Some? && MeansSource(e.meta, Get(t, "source"))
    && Get(t, "ts_ms").JNum? && DecValue(Get(t, "ts_ms").lexeme) == e.occurredMs
  }

  function Find(fs: seq<Field>, name: string): Option<Json> {
    if fs == [] then None else if fs[0].name == name then Some(fs[0].tree) else Find(fs[1..], name)
  }

  lemma {:induction false} LookupFinds(fs: seq<Field>, name: string)
    ensures Lookup(TreeOf(fs), Units(name)) == Find(fs, name)
  {
    hide Units;
    if fs != [] {
      LookupFinds(fs[1..], name);
      assert TreeOf(fs)[1..] == TreeOf(fs[1..]);
      if Units(fs[0].name) == Units(name) { UnitsInjective(fs[0].name, name); }
    }
  }

  lemma {:induction false} FindAppend(a: seq<Field>, b: seq<Field>, name: string)
    ensures Find(a + b, name) == if Find(a, name).Some? then Find(a, name) else Find(b, name)
  {
    if a == [] {
      assert a + b == b;
    } else {
      assert (a + b)[1..] == a[1..] + b;
      FindAppend(a[1..], b, name);
    }
  }

  lemma FindIf(c: bool, f: Field, name: string)
    ensures Find(If(c, f), name) == if c && f.name == name then Some(f.tree) else None
  {}

  lemma FindOne(f: Field, name: string)
    ensures Find([f], name) == if f.name == name then Some(f.tree) else None
  {}

  lemma FindTwo(f: Field, g: Field, name: string)
    ensures Find([f, g], name) == if f.name == name then Some(f.tree) else if g.name == name then Some(g.tree) else None
  {
    FindOne(g, name);
    assert [f, g][1..] == [g];
  }

  /** Which source field carries a name. */
  lemma FindSource(m: SourceMeta, name: string)
    ensures Find(SourceFields(m), name) ==
              if name == "connector" then Some(StrField(name, m.connector).tree)
              else if name == "server_id" && m.serverId != 0 then Some(NumField(name, m.serverId).tree)
              else if name == "db" then Some(StrField(name, m.db).tree)
              else if name == "table" then Some(StrField(name, m.table).tree)
              else if name == "gtid" && m.gtid != "" then Some(StrField(name, m.gtid).tree)
              else if name == "file" && m.file != "" then Some(StrField(name, m.file).tree)
              else if name == "pos" && m.pos != 0 then Some(NumField(name, m.pos).tree)
              else if name == "tx_order" && m.txOrder != 0 then Some(NumField(name, m.txOrder).tree)
              else None
  {
    hide Quoted, Units, Dec, If, Find;
    var a := [StrField("connector", m.connector)];
    var b := If(m.serverId != 0, NumField("server_id", m.serverId));
    var c := [StrField("db", m.db), StrField("table", m.table)];
    var d := If(m.gtid != "", StrField("gtid", m.gtid));
    var e := If(m.file != "", StrField("file", m.file));
    var f := If(m.pos != 0, NumField("pos", m.pos));
    var g := If(m.txOrder != 0, NumField("tx_order", m.txOrder));
    FindOne(StrField("connector", m.connector), name);
    FindTwo(StrField("db", m.db), StrField("table", m.table), name);
    FindAppend(a, b, name);
    FindAppend(a + b, c, name);
    FindAppend(a + b + c, d, name);
    FindAppend(a + b + c + d, e, name);
    FindAppend(a + b + c + d + e, f, name);
    FindAppend(a + b + c + d + e + f, g, name);
    FindIf(m.serverId != 0, NumField("server_id", m.serverId), name);
    FindIf(m.gtid != "", StrField("gtid", m.gtid), name);
    FindIf(m.file != "", StrField("file", m.file), name);
    FindIf(m.pos != 0, NumField("pos", m.pos), name);
    FindIf(m.txOrder != 0, NumField("tx_order", m.txOrder), name);
  }

  /** The tree of every value means the value. */
  lemma TreeMeansValue(b64: string -> string, v: Value)
    requires ValueOk(v)
    ensures MeansValue(b64, v, ValueTree(b64, v))
  {
    hide ReadValue, Units, Dec, DecValue;
    match v
    case Int(n) => DecRoundTrip(n);
    case Raw(text) =>
    case _ =>
  }

  lemma TreeMeansRow(b64: string -> string, m: Option<Row>)
    requires RowOk(m)
    ensures MeansRow(b64, m, RowTree(b64, m))
  {
    hide ValueTree, ValueOk, MeansValue, ColumnsOf, TreeOf, Lookup, Units;
    if m.Some? {
      forall name ensures MeansColumn(b64, m.value, TreeOf(ColumnsOf(b64, m.value)), name) {
        RowDecodes(b64, m.value, name);
        if name in m.value { TreeMeansValue(b64, m.value[name]); }
      }
    }
  }

  /** Zero fields of the source are left out, the others mean their values. */
  lemma SourceDecodes(m: SourceMeta)
    ensures MeansSource(m, JObj(TreeOf(SourceFields(m))))
  {
    hide Quoted, Dec, DecValue, Units, Lookup, Find, TreeOf, SourceFields, Get;
    SourceLooks(m, "connector");
    SourceLooks(m, "server_id");
    SourceLooks(m, "db");
    SourceLooks(m, "table");
    SourceLooks(m, "gtid");
    SourceLooks(m, "file");
    SourceLooks(m, "pos");
    SourceLooks(m, "tx_order");
    DecRoundTrip(m.serverId);
    DecRoundTrip(m.pos);
    DecRoundTrip(m.txOrder);
  }

  lemma SourceLooks(m: SourceMeta, name: string)
    ensures Lookup(TreeOf(SourceFields(m)), Units(name)) ==
              if name == "connector" then Some(JStr(Units(m.connector)))
              else if name == "server_id" && m.serverId != 0 then Some(JNum(Dec(m.serverId)))
              else if name == "db" then Some(JStr(Units(m.db)))
              else if name == "table" then Some(JStr(Units(m.table)))
              else if name == "gtid" && m.gtid != "" then Some(JStr(Units(m.gtid)))
              else if name == "file" && m.file != "" then Some(JStr(Units(m.file)))
              else if name == "pos" && m.pos != 0 then Some(JNum(Dec(m.pos)))
              else if name == "tx_order" && m.txOrder != 0 then Some(JNum(Dec(m.txOrder)))
              else None
  {
    hide Quoted, Dec, Units, Lookup, Find, TreeOf, SourceFields;
    LookupFinds(SourceFields(m), name);
    FindSource(m, name);
  }

  /** What the text of an envelope says, read back field by field. */
  lemma EnvelopeFields(b64: string -> string, e: Event)
    requires IsArmor(b64) && EventOk(e)
    ensures var r := ReadValue(RenderObject(EventFields(b64, e)));
            && r.Got? && r.rest == "" && r.value.JObj?
            && Lookup(r.value.members, Units("id")) == Some(JStr(Units(e.id)))
            && Lookup(r.value.members, Units("op")) == Some(JStr(Units(OpText(e.op))))
            && Lookup(r.value.members, Units("before")) == Some(RowTree(b64, e.before))
            && Lookup(r.value.members, Units("after")) == Some(RowTree(b64, e.after))
            && Lookup(r.value.members, Units("source")) == Some(JObj(TreeOf(SourceFields(e.meta))))
            && Lookup(r.value.members, Units("ts_ms")) == Some(JNum(Dec(e.occurredMs)))
  {
    hide Quoted, Units, Dec, RowText, RowTree, SourceFields, ReadValue, IsArmor, RenderObject, TreeOf, Lookup;
    var fs := EventFields(b64, e);
    EnvelopeReads(b64, e);
    LookupFinds(fs, "id");
    LookupFinds(fs, "op");
    LookupFinds(fs, "before");
    LookupFinds(fs, "after");
    LookupFinds(fs, "source");
    LookupFinds(fs, "ts_ms");
    FindEvent(b64, e);
  }

  lemma OpLetter(op: Op)
    ensures MeansOp(op, JStr(Units(OpText(op))))
  {
    var letter := match op case Insert => 'c' case Update => 'u' case Delete => 'd';
    assert OpText(op) == [letter];
    assert Units([letter]) == [letter as int];
  }

  /** ENVELOPE. What an RFC 8259 parser reads from the text of an envelope
      means the event, field by field: the operation as c, u or d, each image
      as null or an object of exactly its columns, the source's fields with
      zeros left out. */
  lemma EnvelopeDecodes(b64: string -> string, e: Event)
    requires IsArmor(b64) && EventOk(e)
    ensures var r := ReadValue(RenderObject(EventFields(b64, e)));
            r.Got? && r.rest == "" && MeansEvent(b64, e, r.value)
  {
    hide Units, Dec, DecValue, RowTree, SourceFields, ReadValue, IsArmor, RenderObject, TreeOf, Lookup, EventFields,
         MeansRow, MeansSource, MeansOp, OpText, RowOk;
    EnvelopeFields(b64, e);
    OpLetter(e.op);
    TreeMeansRow(b64, e.before);
    TreeMeansRow(b64, e.after);
    SourceDecodes(e.meta);
    DecRoundTrip(e.occurredMs);
  }

  lemma FindEvent(b64: string -> string, e: Event)
    ensures var fs := EventFields(b64, e);
            && Find(fs, "id") == Some(fs[0].tree) && Find(fs, "op") == Some(fs[1].tree)
            && Find(fs, "before") == Some(fs[2].tree) && Find(fs, "after") == Some(fs[3].tree)
            && Find(fs, "source") == Some(fs[4].tree) && Find(fs, "ts_ms") == Some(fs[5].tree)
  {
    hide Quoted, Units, Dec, RowText, RowTree, SourceFields, RenderObject, TreeOf, Find;
    var fs := EventFields(b64, e);
    FindAt(fs, 0);
    FindAt(fs, 1);
    FindAt(fs, 2);
    FindAt(fs, 3);
    FindAt(fs, 4);
    FindAt(fs, 5);
  }

  lemma {:induction false} FindAt(fs: seq<Field>, i: nat)
    requires i < |fs| && forall j :: 0 <= j < i ==> fs[j].name != fs[i].name
    ensures Find(fs, fs[i].name) == Some(fs[i].tree)
  {
    if i > 0 { FindAt(fs[1..], i - 1); }
  }

  /** Columns of a row: present ones decode to their values, others are absent. */
  lemma RowDecodes(b64: string -> string, m: Row, name: string)
    ensures Lookup(TreeOf(ColumnsOf(b64, m)), Units(name)) == if name in m then Some(ValueTree(b64, m[name])) else None
  {
    hide ValueTree, ValueText, Sorted, Units, TreeOf, Lookup, Find, Less;
    var fs, names := ColumnsOf(b64, m), Sorted(m.Keys);
    SortedNames(m);
    LookupFinds(fs, name);
    SortedIsAscending(m.Keys);
    if name in m {
      assert name in Elements(names);
      var i :| 0 <= i < |names| && names[i] == name;
      forall j | 0 <= j < i ensures fs[j].name != fs[i].name {
        assert Less(names[j], names[i]);
        LessTotal(names[j], names[i]);
      }
      FindAt(fs, i);
    } else {
      FindNothing(fs, name);
    }
  }

  lemma {:induction false} FindNothing(fs: seq<Field>, name: string)
    requires forall i :: 0 <= i < |fs| ==> fs[i].name != name
    ensures Find(fs, name) == None
  {
    if fs != [] { FindNothing(fs[1..], name); }
  }

  // ---- Envelopes determine events ----

  /** Two values of one column: NULL, or of the column's one type, which is
      not embedded JSON. */
  predicate SameKind(v: Value, w: Value) {
    match v
    case Null => !w.Raw?
    case Str(_) => w.Str? || w.Null?
    case Bytes(_) => w.Bytes? || w.Null?
    case Raw(_) => false
    case Int(_) => w.Int? || w.Null?
    case Bool(_) => w.Bool? || w.Null?
  }

  lemma ValueTreeInjective(b64: string -> string, v: Value, w: Value)
    requires IsArmor(b64) && SameKind(v, w) && ValueTree(b64, v) == ValueTree(b64, w)
    ensures v == w
  {
    hide ReadValue, Units, Dec;
    match v
    case Null =>
    case Str(s) => if w.Str? { UnitsInjective(s, w.s); }
    case Bytes(b) => if w.Bytes? { UnitsInjective(b64(b), b64(w.b)); }
    case Int(n) => if w.Int? { DecRoundTrip(n); DecRoundTrip(w.n); }
    case Bool(_) =>
  }

  /** Two images: both absent, or rows with the same columns, equal wherever
      the column's values are of one type; embedded documents have the same
      tree. */
  ghost predicate SameImage(b64: string -> string, m: Option<Row>, n: Option<Row>) {
    && (m.None? <==> n.None?)
    && (m.Some? ==> m.value.Keys == n.value.Keys && forall c :: c in m.value ==> SameColumn(b64, m.value[c], n.value[c]))
  }

  ghost predicate SameColumn(b64: string -> string, v: Value, w: Value) {
    ValueTree(b64, v) == ValueTree(b64, w) && (SameKind(v, w) ==> v == w)
  }

  lemma SameTreeSameImage(b64: string -> string, m: Option<Row>, n: Option<Row>)
    requires IsArmor(b64) && RowTree(b64, m) == RowTree(b64, n)
    ensures SameImage(b64, m, n)
  {
    hide ValueTree, ColumnsOf, TreeOf, Lookup, Units, IsArmor, SameKind;
    if m.Some? {
      forall c ensures c in m.value <==> c in n.value {
        RowDecodes(b64, m.value, c);
        RowDecodes(b64, n.value, c);
      }
      forall c | c in m.value ensures SameColumn(b64, m.value[c], n.value[c]) {
        RowDecodes(b64, m.value, c);
        RowDecodes(b64, n.value, c);
        if SameKind(m.value[c], n.value[c]) { ValueTreeInjective(b64, m.value[c], n.value[c]); }
      }
    }
  }

  /** Two events with the same envelope have the same ID, operation, source
      metadata and time, and the same images. */
  lemma EnvelopeDetermines(b64: string -> string, d: Event, e: Event)
    requires IsArmor(b64) && EventOk(d) && EventOk(e)
    requires RenderObject(EventFields(b64, d)) == RenderObject(EventFields(b64, e))
    ensures d.id == e.id && d.op == e.op && d.meta == e.meta && d.occurredMs == e.occurredMs
    ensures SameImage(b64, d.before, e.before) && SameImage(b64, d.after, e.after)
  {
    hide Units, Dec, RowTree, SourceFields, ReadValue, IsArmor, RenderObject, TreeOf, EventFields, Lookup, OpText, SameImage,
         MeansSource;
    EnvelopeFields(b64, d);
    EnvelopeFields(b64, e);
    DecRoundTrip(d.occurredMs);
    DecRoundTrip(e.occurredMs);
    UnitsInjective(d.id, e.id);
    UnitsInjective(OpText(d.op), OpText(e.op));
    OpDecodes(d.op, e.op);
    SourceDecodes(d.meta);
    SourceDecodes(e.meta);
    SourceDetermines(d.meta, e.meta, JObj(TreeOf(SourceFields(d.meta))));
    SameTreeSameImage(b64, d.before, e.before);
    SameTreeSameImage(b64, d.after, e.after);
  }

  lemma SourceDetermines(m: SourceMeta, n: SourceMeta, t: Json)
    requires MeansSource(m, t) && MeansSource(n, t)
    ensures m == n
  {
    hide Units, Lookup, DecValue;
    UnitsInjective(m.connector, n.connector);
    UnitsInjective(m.db, n.db);
    UnitsInjective(m.table, n.table);
    if m.gtid != "" && n.gtid != "" { UnitsInjective(m.gtid, n.gtid); }
    if m.file != "" && n.file != "" { UnitsInjective(m.file, n.file); }
  }

  lemma OpDecodes(a: Op, b: Op)
    requires OpText(a) == OpText(b)
    ensures a == b
  {
    assert OpText(a)[0] == OpText(b)[0];
  }
}
