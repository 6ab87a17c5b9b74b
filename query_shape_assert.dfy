/** The development-time column guard (`assertColumns`): outside production
    every row of a result is replaced by a view that fails on the first read
    of a column the query did not return. */
module QueryShapeAssert {
  import opened PgTypes

  /** The id standing for the well-known symbol `Symbol.toStringTag`. */
  const ToStringTag: nat := 0

  /** The harmless probes, as `assertColumns` builds the set: six names and,
      cast to a string only in the type system, the `Symbol.toStringTag` key. */
  const Harmless: set<PropKey> :=
    {Str("toJSON"), Str("toString"), Str("valueOf"), Str("then"), Str("catch"), Str("finally"),
     Sym(ToStringTag)}

  /** The names among the harmless probes that a string key can match. */
  const HarmlessNames: set<string> :=
    {"toJSON", "toString", "valueOf", "then", "catch", "finally"}

  /** The symbol entry of the harmless set is never consulted for a string
      key: for string keys the allow-list is exactly the six names. */
  lemma HarmlessStringKeys(s: string)
    ensures Str(s) in Harmless <==> s in HarmlessNames
  {
  }

  /** The error text for a read of a column the query did not return. */
  function MissingColumnMessage(qryName: string, prop: string): (m: string)
    ensures |m| == |qryName| + |prop| + 33
    ensures m[..7] == "Query \""
    ensures m[7..7 + |qryName|] == qryName
    ensures m[7 + |qryName|..32 + |qryName|] == "\" did not return column \""
    ensures m[32 + |qryName|..|m| - 1] == prop
    ensures m[|m| - 1] == '"'
  {
    "Query \"" + qryName + "\" did not return column \"" + prop + "\""
  }

  /** What the `get` trap does with one key. */
  datatype Decision = PassThrough | Raise

  /** The trap's decision rule: symbols, own columns and harmless probes
      pass through to the target; every other key raises. */
  function Decide(own: set<string>, prop: PropKey): (d: Decision)
    ensures d == Raise <==> prop.Str? && prop.s !in own && prop.s !in HarmlessNames
  {
    if prop.Sym? then PassThrough
    else if prop.s in own then PassThrough
    else if prop in Harmless then PassThrough
    else Raise
  }

  /** Reading `prop` on a row view. A guard consults the columns of its
      target and either forwards the read to the target or raises. */
  function Read(v: RowView, prop: PropKey): (a: Access)
    ensures a.Found? <==> prop.Str? && prop.s in Data(v)
    ensures a.Found? ==> a.v == Data(v)[prop.s]
  {
    match v
    case Plain(r) => ReadPlain(r, prop)
    case Guarded(q, t) =>
      match Decide(Data(t).Keys, prop)
      case PassThrough => Read(t, prop)
      case Raise => MissingColumn(MissingColumnMessage(q, prop.s))
  }

  /** Reading a symbol-keyed property never raises: it is the default lookup. */
  lemma {:induction false} ReadSymbol(v: RowView, id: nat)
    ensures Read(v, Sym(id)) == Default
  {
    match v
    case Plain(_) =>
    case Guarded(_, t) => ReadSymbol(t, id);
  }

  /** Reading a harmless probe that is not an own column never raises: it is
      the default lookup. */
  lemma {:induction false} ReadHarmless(v: RowView, s: string)
    requires s in HarmlessNames && s !in Data(v)
    ensures Read(v, Str(s)) == Default
  {
    match v
    case Plain(_) =>
    case Guarded(_, t) => ReadHarmless(t, s);
  }

  /** A read raises exactly when the row is guarded and the key is a string
      that is neither an own column nor a harmless name; the message then
      names the outermost guard's query and the key. */
  lemma {:induction false} ReadRaises(v: RowView, prop: PropKey)
    ensures Read(v, prop).MissingColumn? <==>
      v.Guarded? && prop.Str? && prop.s !in Data(v) && prop.s !in HarmlessNames
    ensures Read(v, prop).MissingColumn? ==>
      Read(v, prop).msg == MissingColumnMessage(v.qryName, prop.s)
  {
    match v
    case Plain(_) =>
    case Guarded(_, t) =>
      if Decide(Data(t).Keys, prop) == PassThrough {
        ReadRaises(t, prop);
      }
  }

  /** The guard never alters the data: every read that does not raise gives
      what an ordinary read of the underlying record gives. */
  lemma ReadAnswersFromTarget(v: RowView, prop: PropKey)
    ensures !Read(v, prop).MissingColumn? ==> Read(v, prop) == ReadPlain(Data(v), prop)
  {
  }

  /** The rows with each one wrapped in a guard for `qryName`, in order. */
  function GuardRows(qryName: string, rows: seq<RowView>): (r: seq<RowView>)
    ensures |r| == |rows|
    ensures forall i :: 0 <= i < |r| ==> r[i] == Guarded(qryName, rows[i])
  {
    if rows == [] then [] else [Guarded(qryName, rows[0])] + GuardRows(qryName, rows[1..])
  }

  /** The rows `assertColumns` leaves behind: unchanged in production,
      guarded otherwise. */
  function AssertedRows(qryName: string, rows: seq<RowView>, production: bool): (r: seq<RowView>)
    ensures production ==> r == rows
    ensures !production ==> r == GuardRows(qryName, rows)
    ensures |r| == |rows| && forall i :: 0 <= i < |r| ==> Data(r[i]) == Data(rows[i])
  {
    if production then rows else GuardRows(qryName, rows)
  }

  /** Each asserted row keeps the record of the row at the same index, and
      every read of it that does not raise answers as that record would. */
  lemma AssertedRowsKeepData(qryName: string, rows: seq<RowView>, production: bool, i: nat, prop: PropKey)
    requires i < |rows|
    ensures |AssertedRows(qryName, rows, production)| == |rows|
    ensures Data(AssertedRows(qryName, rows, production)[i]) == Data(rows[i])
    ensures var a := Read(AssertedRows(qryName, rows, production)[i], prop);
      a.MissingColumn? || a == ReadPlain(Data(rows[i]), prop)
  {
  }

  /** `assertColumns(qryName, result)`: outside production, replaces
      `result.rows` in place with guarded views; in production, changes
      nothing. */
  method AssertColumns(qryName: string, result: QueryResult, production: bool)
    modifies result`rows
    ensures result.rows == AssertedRows(qryName, old(result.rows), production)
  {
    if !production {
      result.rows := GuardRows(qryName, result.rows);
    }
  }
}
