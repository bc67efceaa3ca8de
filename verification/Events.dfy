/** The values that travel through the pipeline: NomiosEvent, its source
    metadata and its resume position (pkg/event, pkg/state/position.go). */
module Events {
  import opened Prelude

  datatype Op = Insert | Update | Delete

  /** The column values of the modelled domain. `Raw` is a JSON document that
      is embedded as it stands; byte strings are strings of char. */
  datatype Value = Null | Str(s: string) | Bytes(b: string) | Raw(text: string) | Int(n: int) | Bool(f: bool)

  type Row = map<string, Value>

  /** A GTID set is its set of GTIDs; its serialized form is "" exactly when
      the set is empty. */
  datatype Position = Position(gtids: set<string>, file: string, offset: nat, seqNo: nat)

  const ZERO: Position := Position({}, "", 0, 0)

  predicate IsZero(p: Position) {
    p.gtids == {} && p.file == "" && p.offset == 0
  }

  datatype SourceMeta = SourceMeta(connector: string, serverId: nat, db: string, table: string,
                                   gtid: string, file: string, pos: nat, txOrder: int)

  function Fqtn(m: SourceMeta): string { m.db + "." + m.table }

  /** Names one row change of the log: the transaction, its rows event and
      the change inside it. The code never reads it; it is how the model
      recognises the same change in two runs. */
  datatype RowRef = RowRef(tid: nat, ev: nat, change: nat)

  datatype Event = Event(id: string, op: Op, before: Option<Row>, after: Option<Row>, occurredMs: int,
                         meta: SourceMeta, key: string, pos: Position, row: RowRef)

  /** The current image: Before for deletes, After otherwise. A nil map reads
      as an empty one. */
  function CurrentRow(e: Event): Row {
    var image := if e.op.Delete? then e.before else e.after;
    if image.Some? then image.value else map[]
  }
}
