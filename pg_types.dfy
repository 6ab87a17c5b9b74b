/** The shapes the `pg` driver hands back, as the query executor and the
    column guard see them: rows, column descriptors and the result object. */
module PgTypes {

  datatype Option<+T> = None | Some(value: T)

  /** A column value as the driver decodes it. JavaScript's `undefined` and
      `null` are kept apart because an own column may hold either. */
  datatype Value = Undefined | Null | Bool(b: bool) | Num(n: int) | Text(s: string)

  /** A plain result row: column name to value. Its keys are exactly the
      columns the query returned. */
  type Row = map<string, Value>

  /** A property key: a string or a symbol (symbols are told apart by an id). */
  datatype PropKey = Str(s: string) | Sym(id: nat)

  /** The outcome of reading one property of a row. `Default` is whatever the
      ordinary JavaScript lookup yields for a name the row does not own (an
      inherited method, `undefined`); it is left uninterpreted. */
  datatype Access = Found(v: Value) | Default | MissingColumn(msg: string)

  /** A row as a caller holds it: the driver's plain record, or a guarded
      view wrapping another view (the guard may be applied more than once). */
  datatype RowView = Plain(row: Row) | Guarded(qryName: string, target: RowView)

  /** The record underneath any number of guards: what `hasOwnProperty`
      consults, since a guard forwards it to its target. */
  function Data(v: RowView): Row
  {
    match v
    case Plain(r) => r
    case Guarded(_, t) => Data(t)
  }

  /** An ordinary (unguarded) property read on a plain record. */
  function ReadPlain(r: Row, prop: PropKey): (a: Access)
    ensures !a.MissingColumn?
    ensures a.Found? <==> prop.Str? && prop.s in r
    ensures a.Found? ==> a.v == r[prop.s]
  {
    match prop
    case Str(s) => if s in r then Found(r[s]) else Default
    case Sym(_) => Default
  }

  /** A column descriptor (`FieldDef`), reduced to what identifies it. */
  datatype FieldDesc = FieldDesc(name: string, dataTypeId: int)

  /** The value of a query result at one moment. */
  datatype ResultData = ResultData(
    oid: int,
    command: string,
    rowCount: int,
    rows: seq<RowView>,
    fields: seq<FieldDesc>)

  /** The result object callers receive; its `rows` field is reassigned in
      place by the column guard. */
  class QueryResult {
    var oid: int
    var command: string
    var rowCount: int
    var rows: seq<RowView>
    var fields: seq<FieldDesc>

    constructor (d: ResultData)
      ensures Snapshot() == d
    {
      oid := d.oid;
      command := d.command;
      rowCount := d.rowCount;
      rows := d.rows;
      fields := d.fields;
    }

    /** The current contents of the object as a value. */
    function Snapshot(): ResultData
      reads this
    {
      ResultData(oid, command, rowCount, rows, fields)
    }
  }
}
