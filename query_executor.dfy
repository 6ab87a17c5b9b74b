/** `QueryExecutor.queryByName`: run a query whose SQL text is stored under a
    name, short-circuiting to an empty result when there is no text. */
module Pg {
  import opened PgTypes
  import opened QueryShapeAssert

  /** The query config handed to the driver: `{ name, text, values }`.
      `values` is optional, as in `queryByName`. */
  datatype QueryConfig = QueryConfig(name: string, text: string, values: Option<seq<Value>>)

  /** A failure raised by the database (connection, syntax, constraint). */
  datatype DbError = DbError(message: string)

  /** How the database answers one query config, fixed in advance. */
  datatype DbAnswer = Rows(data: ResultData) | Fails(error: DbError)

  /** The outcome of a call that may raise a database error. */
  datatype Reply = Done(result: QueryResult) | Failed(error: DbError)

  /** The database connection (a pool or a single client), as an oracle
      whose answer depends only on the config; `calls` logs every query. */
  class Database {
    const answer: QueryConfig -> DbAnswer
    ghost var calls: seq<QueryConfig>

    constructor (answer: QueryConfig -> DbAnswer)
      ensures this.answer == answer && calls == []
    {
      this.answer := answer;
      calls := [];
    }

    /** `db.query(config)`: one round trip; its error, if any, propagates. */
    method Query(config: QueryConfig) returns (out: Reply)
      modifies this`calls
      ensures calls == old(calls) + [config]
      ensures answer(config).Fails? ==> out == Failed(answer(config).error)
      ensures answer(config).Rows? ==>
        out.Done? && fresh(out.result) && out.result.Snapshot() == answer(config).data
    {
      calls := calls + [config];
      match answer(config)
      case Fails(e) =>
        out := Failed(e);
      case Rows(d) =>
        var r := new QueryResult(d);
        out := Done(r);
    }
  }

  /** The content source: looks SQL text up by query name; `lookups` logs
      every lookup. */
  class FileContentReader {
    const files: string -> Option<string>
    ghost var lookups: seq<string>

    constructor (files: string -> Option<string>)
      ensures this.files == files && lookups == []
    {
      this.files := files;
      lookups := [];
    }

    method Read(name: string) returns (text: Option<string>)
      modifies this`lookups
      ensures lookups == old(lookups) + [name]
      ensures text == files(name)
    {
      lookups := lookups + [name];
      text := files(name);
    }
  }

  /** `text ?? ""`: a missing text reads as the empty string. */
  function NormalizeText(read: Option<string>): (text: string)
    ensures text == "" <==> read == None || read == Some("")
    ensures text != "" ==> read == Some(text)
  {
    match read
    case None => ""
    case Some(t) => t
  }

  /** The result returned when there is no SQL text. */
  const ZeroResult: ResultData := ResultData(0, "", 0, [], [])

  /** What `queryByName` does once the text has been read. */
  datatype Step = ReturnZero | Execute(config: QueryConfig)

  /** The branch taken for a given text: the zero result for a missing or
      empty text, otherwise one query with the name, the text and the values. */
  function Plan(name: string, read: Option<string>, values: Option<seq<Value>>): (step: Step)
    ensures step.ReturnZero? <==> read == None || read == Some("")
    ensures step.Execute? ==>
      Some(step.config.text) == read && step.config.name == name && step.config.values == values
  {
    var text := NormalizeText(read);
    if text == "" then ReturnZero else Execute(QueryConfig(name, text, values))
  }

  /** A missing text and an empty text lead to the same branch. */
  lemma MissingAndEmptyAgree(name: string, values: Option<seq<Value>>)
    ensures Plan(name, None, values) == Plan(name, Some(""), values) == ReturnZero
  {
  }

  /** The value `queryByName` returns for a database answer `d`: the same
      result with only its rows passed through the column guard. */
  function Finish(name: string, d: ResultData, production: bool): (f: ResultData)
    ensures f.oid == d.oid && f.command == d.command
    ensures f.rowCount == d.rowCount && f.fields == d.fields
    ensures production ==> f.rows == d.rows
    ensures !production ==>
      |f.rows| == |d.rows| && forall i :: 0 <= i < |f.rows| ==> f.rows[i] == Guarded(name, d.rows[i])
  {
    d.(rows := AssertedRows(name, d.rows, production))
  }

  /** Outside production, a row of a finished result lets every own column
      through unchanged and rejects any other non-harmless column, naming
      the query; in production every read is the read of the row the
      database returned. */
  lemma FinishedRowReads(name: string, d: ResultData, production: bool, i: nat, s: string)
    requires i < |d.rows|
    ensures var row := Finish(name, d, production).rows[i];
      && (s in Data(d.rows[i]) ==> Read(row, Str(s)) == Found(Data(d.rows[i])[s]))
      && (production ==> Read(row, Str(s)) == Read(d.rows[i], Str(s)))
      && (!production && s !in Data(d.rows[i]) && s !in HarmlessNames ==>
            Read(row, Str(s)) == MissingColumn(MissingColumnMessage(name, s)))
  {
  }

  /** Runs named queries against `db`, reading their SQL text from `reader`. */
  class QueryExecutor {
    const db: Database
    const reader: FileContentReader

    constructor (db: Database, reader: FileContentReader)
      ensures this.db == db && this.reader == reader
    {
      this.db := db;
      this.reader := reader;
    }

    /** `queryByName(name, values)`. The text is read once; without text the
        zero result comes back and the database is not called; with text the
        database is called exactly once and its result comes back with the
        guard applied to its rows, or its error propagates. */
    method QueryByName(name: string, values: Option<seq<Value>>, production: bool) returns (out: Reply)
      modifies db`calls, reader`lookups
      ensures reader.lookups == old(reader.lookups) + [name]
      ensures var step := Plan(name, reader.files(name), values);
        && (step.ReturnZero? ==>
              db.calls == old(db.calls) && out.Done? && fresh(out.result)
              && out.result.Snapshot() == ZeroResult)
        && (step.Execute? ==> db.calls == old(db.calls) + [step.config])
        && (step.Execute? && db.answer(step.config).Fails? ==>
              out == Failed(db.answer(step.config).error))
        && (step.Execute? && db.answer(step.config).Rows? ==>
              out.Done? && fresh(out.result)
              && out.result.Snapshot() == Finish(name, db.answer(step.config).data, production))
    {
      var read := reader.Read(name);
      var text := NormalizeText(read);
      if text == "" {
        var zero := new QueryResult(ZeroResult);
        return Done(zero);
      }
      out := db.Query(QueryConfig(name, text, values));
      if out.Done? {
        AssertColumns(name, out.result, production);
      }
    }
  }

  /** A client: `queryByName("listOrders", [42])` against a database that
      returns two rows with columns `id` and `total`, outside production. */
  method ListOrdersScenario()
  {
    var sql := "SELECT id, total FROM orders WHERE customer_id = $1";
    var reader := new FileContentReader(n => if n == "listOrders" then Some(sql) else None);
    var row1: Row := map["id" := Num(1), "total" := Num(10)];
    var row2: Row := map["id" := Num(2), "total" := Num(20)];
    var reply := ResultData(0, "SELECT", 2, [Plain(row1), Plain(row2)], [FieldDesc("id", 23), FieldDesc("total", 23)]);
    var db := new Database(c => Rows(reply));
    var executor := new QueryExecutor(db, reader);

    var out := executor.QueryByName("listOrders", Some([Num(42)]), false);
    assert db.calls == [QueryConfig("listOrders", sql, Some([Num(42)]))];
    assert out.Done? && out.result.rowCount == 2 && |out.result.rows| == 2;
    var first := out.result.rows[0];
    assert Read(first, Str("id")) == Found(Num(1));
    FinishedRowReads("listOrders", reply, false, 0, "customer_name");
    assert Read(first, Str("customer_name")).MissingColumn?;

    var none := executor.QueryByName("missingQuery", None, false);
    assert db.calls == [QueryConfig("listOrders", sql, Some([Num(42)]))];
    assert none.Done? && none.result.Snapshot() == ZeroResult;
  }
}
