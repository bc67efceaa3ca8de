/** From the log to the topic: what a consumer reads from the message of any
    event of any run, told from the log alone. */
module Messages {
  import opened Prelude
  import opened Events
  import opened Source
  import opened Binlog
  import opened Resume
  import opened Stamping
  import opened Content
  import opened Json
  import opened JsonText
  import opened Envelope
  import EventIds
  import Keys
  import Text

  /** Embedded documents among these images are JSON texts. */
  ghost predicate ImagesOk(c: Change) {
    forall i, k :: 0 <= i < |c.images| && k in c.images[i] ==> ValueOk(c.images[i][k])
  }

  lemma ContentIsOk(e: Event, c: Change, ch: nat)
    requires Says(e, c, ch) && ImagesOk(c)
    ensures EventOk(e)
  {
    hide ValueOk;
  }

  /** What a message says of row change `ch`: c, u or d by the kind of the
      rows event, its images, its table and server. */
  ghost predicate MessageSays(b64: string -> string, t: Json, c: Change, ch: nat) {
    && Exists(c, ch)
    && Get(t, "op") ==
         JStr([if c.kind == WriteRows then 'c' as int else if c.kind == UpdateRows then 'u' as int else 'd' as int])
    && MeansRow(b64, BeforeOf(c, ch), Get(t, "before")) && MeansRow(b64, AfterOf(c, ch), Get(t, "after"))
    && Get(Get(t, "source"), "db") == JStr(Units(c.table.db)) && Get(Get(t, "source"), "table") == JStr(Units(c.table.name))
    && NumOf(Get(Get(t, "source"), "server_id")) == c.serverId && NumOf(Get(t, "ts_ms")) == c.ms
  }

  lemma SaysMeans(b64: string -> string, e: Event, t: Json, c: Change, ch: nat)
    requires Says(e, c, ch) && MeansEvent(b64, e, t)
    ensures MessageSays(b64, t, c, ch)
  {
    hide MeansRow, Lookup, Units, Text.DecValue;
  }

  /** No row means null, and a row an object. */
  lemma NullMeansNone(b64: string -> string, m: Option<Row>, t: Json)
    requires MeansRow(b64, m, t)
    ensures t == JNull <==> m == None
  {
    hide MeansColumn;
  }

  /** MESSAGES. For every event of every run, the text that is published reads
      back as the row change in the log: it is created ("c") exactly when there
      is no old image to read, deleted ("d") exactly when there is no new one,
      and both images read as the log's; so do the GTID and the coordinates,
      left out when empty. */
  lemma MessageSaysItsRow(cfg: Config, txns: seq<Txn>, log: Log, from: Position, x: nat, b64: string -> string)
      returns (m: nat)
    requires RunOk(cfg, txns, log, from) && x < |RunStream(cfg, txns, log, from)| && IsArmor(b64)
    requires forall t, i :: 0 <= t < |txns| && 0 <= i < |txns[t].body| ==> ImagesOk(txns[t].body[i])
    ensures var e := RunStream(cfg, txns, log, from)[x];
            var r := ReadValue(RenderObject(EventFields(b64, e)));
            && e.row.tid < |txns| && e.row.ev < |txns[e.row.tid].body|
            && r.Got? && r.rest == "" && MessageSays(b64, r.value, txns[e.row.tid].body[e.row.ev], e.row.change)
            && (Get(r.value, "op") == JStr(['c' as int]) <==> Get(r.value, "before") == JNull)
            && (Get(r.value, "op") == JStr(['d' as int]) <==> Get(r.value, "after") == JNull)
            && EventIds.LiesAt(log, e.row.tid, m) && e.row.ev < |log.items[m].at|
            && StrOf(Get(Get(r.value, "source"), "gtid")) == Units(txns[e.row.tid].gtid)
            && StrOf(Get(Get(r.value, "source"), "file")) == Units(FileAt(log, m))
            && NumOf(Get(Get(r.value, "source"), "pos")) == log.items[m].at[e.row.ev]
  {
    hide RunStream, RunOk, IsArmor, ReadValue, RenderObject, EventFields, EventOk, ImagesOk, MeansEvent, Says, Get,
         EventIds.LiesAt, Keys.KeyFromColumns, ImageOf, Units, MeansRow;
    m := EventSaysItsRow(cfg, txns, log, from, x);
    var e := RunStream(cfg, txns, log, from)[x];
    var c := txns[e.row.tid].body[e.row.ev];
    ContentIsOk(e, c, e.row.change);
    EnvelopeDecodes(b64, e);
    var t := ReadValue(RenderObject(EventFields(b64, e))).value;
    SaysMeans(b64, e, t, c, e.row.change);
    NullMeansNone(b64, BeforeOf(c, e.row.change), Get(t, "before"));
    NullMeansNone(b64, AfterOf(c, e.row.change), Get(t, "after"));
    WhereFrom(b64, e, t);
  }

  lemma WhereFrom(b64: string -> string, e: Event, t: Json)
    requires MeansEvent(b64, e, t)
    ensures var s := Get(t, "source");
            && StrOf(Get(s, "gtid")) == Units(e.meta.gtid) && StrOf(Get(s, "file")) == Units(e.meta.file)
            && NumOf(Get(s, "pos")) == e.meta.pos
  {
    hide MeansRow, Lookup, Text.DecValue;
  }
}
