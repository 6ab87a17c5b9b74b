# Named-query execution with shape-checked rows

A model of two pieces of a Shopify merchant app's data layer:

- **`assertColumns`** (`app/utils/queryShapeAssert.ts`), a column guard for
  development builds. Outside production it replaces every row of a `pg`
  query result, in place, with a guarded view. A read of a column the query did
  not return then raises `Query "<name>" did not return column "<prop>"`.
  Symbol keys, the row's own columns and a short allow-list of harmless probes
  (`toJSON`, `toString`, `valueOf`, `then`, `catch`, `finally`) still pass
  through. In production the guard changes nothing.
- **`QueryExecutor.queryByName`** (`app/infrastructure/pg/index.ts`). It reads
  a query's SQL text by name. A missing or empty text returns a zero-valued
  result without touching the database. Otherwise it sends one parameterised
  query and applies the guard to the result.

Files:

- `pg_types.dfy` (module `PgTypes`) holds the driver's shapes. These are values,
  plain rows (`map<string, Value>`), property keys (`Str` / `Sym`), read outcomes
  (`Found` / `Default` / `MissingColumn`) and row views (`Plain` / `Guarded`). It
  also holds the mutable `QueryResult` class.
- `query_shape_assert.dfy` (module `QueryShapeAssert`) holds the guard's
  decision rule, the read semantics of a guarded view and the `AssertColumns`
  method that reassigns `rows`.
- `query_executor.dfy` (module `Pg`) holds the database and the content reader
  as opaque oracles with ghost call logs and the `QueryExecutor` class. It also
  holds `ListOrdersScenario`, a client that runs `queryByName("listOrders", [42])`
  against a database returning two rows with columns `id` and `total`. It shows
  that the contracts alone give the one database call, the row count, the read of
  `id` and the error for `customer_name`, and that a name with no text leaves the
  database untouched.

The environment flag (`NODE_ENV === "production"`) is an explicit `production`
parameter. The database is a fixed function from query config to answer
(rows, or an error that propagates unchanged). The content reader is a fixed
function from name to optional text. Each of them logs its calls in a ghost
sequence, so "not called", "called once" and "called with these arguments"
can be stated.

A guard may wrap a view that is already guarded, since `assertColumns` can be
applied twice to the same result. So `RowView` is recursive. The own-column test
looks through every guard to the record underneath, as the trap's
`Object.prototype.hasOwnProperty.call(target, prop)` does through a proxy
without an own-property trap. A read that passes a guard goes
to the inner view.

## Model

| member | source | states |
|---|---|---|
| `PgTypes.ReadPlain` | app/utils/queryShapeAssert.ts:23-30 | an ordinary read of a plain record (the `Reflect.get` the trap forwards to, and every read of an unguarded row) never raises; it yields a value exactly for a string key naming an own column, and that column's value |
| `QueryShapeAssert.HarmlessStringKeys` | app/utils/queryShapeAssert.ts:9-17 | a string key is in the harmless set exactly when it is one of the six names: the `Symbol.toStringTag` entry never matches a string |
| `QueryShapeAssert.MissingColumnMessage` | app/utils/queryShapeAssert.ts:32-34 | the error text is `Query "`, the query name, `" did not return column "`, the property and a closing quote, at the stated positions |
| `QueryShapeAssert.Decide` | app/utils/queryShapeAssert.ts:21-35 | the trap raises exactly for a string key that is neither an own column nor one of the six harmless names; symbols never raise |
| `QueryShapeAssert.Read` | app/utils/queryShapeAssert.ts:26-28 | a read yields a value exactly when the key is a string naming an own column of the underlying record, and the value is that record's, unchanged (also when it is `undefined` or `null`) |
| `QueryShapeAssert.ReadSymbol` | app/utils/queryShapeAssert.ts:22-24 | every symbol-keyed read, through any number of guards, is the default lookup and never raises |
| `QueryShapeAssert.ReadHarmless` | app/utils/queryShapeAssert.ts:29-31 | reading one of the six harmless names that is not an own column is the default lookup and never raises |
| `QueryShapeAssert.ReadRaises` | app/utils/queryShapeAssert.ts:21-35 | a read raises if and only if the view is guarded and the key is a string that is neither an own column nor a harmless name; the message is exactly the one built from the outermost guard's query name and the key |
| `QueryShapeAssert.ReadAnswersFromTarget` | app/utils/queryShapeAssert.ts:22-31 | every read that does not raise equals an ordinary read of the original record: the guard never alters data |
| `QueryShapeAssert.GuardRows` | app/utils/queryShapeAssert.ts:18-37 | the new rows have the old length and order, and row i is a guard for the query name wrapping old row i |
| `QueryShapeAssert.AssertedRows` | app/utils/queryShapeAssert.ts:8-37 | the rows `assertColumns` leaves: the same sequence in production, the guarded rows otherwise; in both modes the same length, with row i keeping the record of old row i |
| `QueryShapeAssert.AssertedRowsKeepData` | app/utils/queryShapeAssert.ts:8-37 | in either mode, row i after the guard keeps the record of row i before it, and each of its non-raising reads answers as that record would |
| `QueryShapeAssert.AssertColumns` | app/utils/queryShapeAssert.ts:3-39 | only `result.rows` may change, and it becomes `AssertedRows` of its old value: the same sequence in production, the guarded rows otherwise |
| `Pg.Database.Query` | app/infrastructure/pg/index.ts:59 | one query appends its config to the call log; the database's error comes back unchanged, or a fresh result holding its answer |
| `Pg.FileContentReader.Read` | app/infrastructure/pg/index.ts:49 | one lookup appends the name to the reader's log and returns the stored text or absence |
| `Pg.NormalizeText` | app/infrastructure/pg/index.ts:49 | the text is empty exactly when the reader gave nothing or the empty string; a non-empty text is the one read |
| `Pg.Plan` | app/infrastructure/pg/index.ts:49-59 | the zero-result branch is taken exactly for an absent or empty text; otherwise the query config carries the name, the text read and the values unchanged |
| `Pg.MissingAndEmptyAgree` | app/infrastructure/pg/index.ts:49-50 | an absent text and an empty text select the same branch, the zero result |
| `Pg.Finish` | app/infrastructure/pg/index.ts:59-61 | the returned result keeps the database's `oid`, `command`, `rowCount` and `fields`; its rows are unchanged in production and guarded index by index otherwise |
| `Pg.FinishedRowReads` | app/infrastructure/pg/index.ts:59-61 | in a returned row, own columns read back unchanged; in production reads are those of the database's row; outside production any other non-harmless column raises the message naming the query |
| `Pg.QueryExecutor.constructor` | app/infrastructure/pg/index.ts:8-11 | the executor keeps the given database and reader |
| `Pg.QueryExecutor.QueryByName` | app/infrastructure/pg/index.ts:45-62 | the reader is consulted once with the name. With no text, the database log is unchanged and a fresh zero result (`oid` 0, `command` "", `rowCount` 0, no rows, no fields) comes back, unguarded. With text, the database is called exactly once with (name, text, values). Its error propagates unchanged, or its result comes back with only the rows guarded |

## Left out

- Asynchrony: `await` on the reader and on the database is modelled as sequential calls.
- Errors from the content reader (I/O failures) are not modelled. `FileContentReader` is not part of this model beyond its name-to-text lookup.
- The `pg` driver (`Pool`, `ClientBase.query`), connection and pool lifecycle. The database is an oracle whose answer depends only on the query config, so state the database keeps between calls is not modelled.
- JavaScript `Proxy`/`Reflect` beyond the `get` trap. Writes, `in`, key enumeration, `Object.hasOwn(row, k)` and `Object.prototype.hasOwnProperty.call(row, k)` on a guarded row go to the record unchanged; the model only has reads. A method-style probe is itself a read through the trap: `row.hasOwnProperty(k)`, `row.constructor` or `row.toLocaleString` on a guarded row raises the missing-column error for that name, and `Read` gives exactly that (`ReadRaises`), since none of them is an own column or a harmless name. What the default lookup returns for a name the row does not own (an inherited `toString`, `undefined` for `then`) is the uninterpreted outcome `Default`.
- Column values are a small datatype (`undefined`, `null`, booleans, integers, strings) rather than arbitrary JavaScript values. Column descriptors keep only a name and a type id.
- `rowCount` is an integer; the driver's `null` row count is not modelled.
- The TypeScript overload signatures of `queryByName` (app/infrastructure/pg/index.ts:20-36) exist only at type level.
- `app/adapters/ServiceManager.ts` (lazy getters over data managers), `app/root.tsx` (UI rendering) and `eslint.config.mjs` (lint settings) are not part of this model.
