# mysql-easier, modelled in Dafny

mysql-easier is a thin layer over the Node.js `mysql` driver. This project models its core:

- **`SqlUtil`** (src/sql-util.js) builds SQL text with `?` placeholders for single-table statements on tables whose primary key is `id`. The statements are delete-all, delete-by-id, get-all, get-by-id, insert, update-by-id and upsert.
- **`MySqlConnection`** (src/mysql-connection.js) wraps one driver session. It runs that SQL with the matching parameter lists. `done()` gives the session up in the right way for its kind. `transaction(fn)` commits or rolls back around a unit of work.
- **`MySqlPool`** (src/mysql-pool.js) wraps a driver pool. It hands out wrapped connections. Unless two `end()` calls overlap, it ends its driver pool at most once. A pool may also never be ended.
- **`MySqlEasier`** (src/index.js) is the shared registry holding one global pool, plus factories for extra pools and standalone connections.
- **The older `MySqlConnection` of index.js** runs every statement on a pool directly, with numbered `$1 … $n` placeholders.

## Layout

- `text.dfy`, module `Text`:
  - `Array.prototype.join`, which the builders use;
  - splitting on one character and counting a character, which are not in the source: the lemmas use them to read statement text back and to count its placeholders;
  - lemmas such as *split undoes join*, and *a list written with `join(', ')` reads back as its items*.
- `records.dfy`, module `Records`:
  - field objects as ordered key/value lists with distinct keys, in `Object.keys` order;
  - decimal rendering of integers, with its read-back;
  - how a template string writes a value: strings are quoted, other values are written bare.
- `sql_util.dfy`, module `SqlUtil`: the `?` builders as pure functions, with lemmas on placeholder counts, column order and read-back.
- `legacy_sql.dfy`, module `LegacySql`: the statement text that index.js builds inline (`$n` placeholders, `returning id`).
- `driver.dfy`, module `Driver`: what the wrappers see of the driver.
  - Sessions (which termination methods they have), pools, query replies, call logs.
  - Promise outcomes (`Result`) and rejection reasons (`Error`).
- `connection.dfy`, `pool.dfy`, `registry.dfy`, `legacy.dfy`: the four classes, as Dafny classes with the source's fields.
  - Each method does its own checks and hands the rest to the driver.
  - Each method takes what the driver reports as a parameter: the query reply, the error reported by an end/release/destroy, the session handed out, or the outcome of the unit of work.
  - A ghost call log records every call issued to the driver.
  - The invariant (`Valid`) of each wrapper class says that its session or pool is given up at most once and used no more afterwards. This holds only because operations never overlap in the model (see "## Left out"). Each wrapper proves from it that its log holds at most one termination. The registry's invariant is that of its global pool.
  - After each class comes a short method that exercises it, for example "a second `done()` resolves and issues nothing" or "configure works again after `endPool`".

Where the code and its description disagree, the model follows the code:

- `insert` and `upsert` accept an empty object. `insert` then produces `insert into T () values()`. `upsert` produces the same text followed by ` on duplicate key update id = last_insert_id(id), `, with no assignments after it.
- `upsert` returns one SQL string. The statement in `src/sql-util.test.js` that expects a pair with `select last_insert_id()` does not match the code.
- The source ignores the `id` argument of the `?` by-id builders, so the Dafny builders do not take one.
- The source's `debug` flag only switches logging on or off, so the Dafny builders have no such parameter. Their text therefore cannot depend on it.

## Model

| member | source | states |
|---|---|---|
| `SqlUtil.DeleteAll` | src/sql-util.js:13-17 | the text is `delete from ` followed by exactly the table name |
| `SqlUtil.DeleteById` | src/sql-util.js:23-27 | starts with `delete from <table>`, ends with ` where id=?`, and has exactly one `?` when the table name has none |
| `SqlUtil.GetAll` | src/sql-util.js:32-36 | the text is `select * from ` followed by exactly the table name |
| `SqlUtil.GetById` | src/sql-util.js:42-46 | starts with `select * from <table>`, ends with ` where id=?`, and has exactly one `?` when the table name has none |
| `SqlUtil.ColumnListReadBack` | src/sql-util.js:54-56 | with non-empty, comma-free keys, the column list reads back as exactly the keys in key order |
| `SqlUtil.PlaceholderList` | src/sql-util.js:57 | holds exactly n placeholders, and is empty for no values |
| `SqlUtil.QuestionMarks` | src/sql-util.js:57 | `values.map(() => '?')`: one `?` per value, n in all |
| `SqlUtil.ColumnList` | src/sql-util.js:56 | `keys.join(', ')`: empty for no fields, the one key for one field; `SqlUtil.ColumnListReadBack` reads it back as the keys |
| `SqlUtil.PlaceholderListReadBack` | src/sql-util.js:57 | the placeholder list reads back as n separate `?` items |
| `SqlUtil.Insert` | src/sql-util.js:53-62 | an empty object gives `insert into <table> () values()` |
| `SqlUtil.InsertPlaceholders` | src/sql-util.js:53-62 | with no `?` in the table name or the keys, an insert has exactly one placeholder per field |
| `SqlUtil.Upsert` | src/sql-util.js:83-97 | the upsert is the insert text, a space, `on duplicate key update id = last_insert_id(id), `, then the `k = ?` assignments joined by `, ` |
| `SqlUtil.UpsertAssignmentsInOrder` | src/sql-util.js:90-92 | the conflict clause assigns every key once, in key order |
| `SqlUtil.Assignments` | src/sql-util.js:90 | `key + ' = ?'` for every key, in key order |
| `SqlUtil.UpsertPlaceholders` | src/sql-util.js:83-97 | with no `?` in the table name or the keys, an upsert has exactly two placeholders per field |
| `SqlUtil.SetListReadBack` | src/sql-util.js:69-74 | the `key=value` pairs are joined by `,` with no space; without commas in keys and string values they split back into exactly the pairs, in key order |
| `SqlUtil.SetList` | src/sql-util.js:69-74 | `${sets}`: empty for no fields, the one `key=value` pair for one field; `SqlUtil.SetListReadBack` splits it back into the pairs |
| `SqlUtil.UpdateById` | src/sql-util.js:68-77 | starts with `update <table> set ` and the pair list, and ends with ` where id=?` |
| `SqlUtil.UpdateByIdPlaceholders` | src/sql-util.js:68-77 | values are written inline, so with no `?` in the table name, the keys or the string values, the only placeholder is the id's |
| `Records.Keys` | src/sql-util.js:54 | the keys of the field list, in order |
| `Records.Values` | src/mysql-connection.js:143-144 | the values of the field list, in key order |
| `Records.Literal` | src/sql-util.js:70-72 | a value is quoted exactly when it is a string, as `'<text>'`; any other value is written in digits, `-` and the letters of `true`/`false`/`null` |
| `Records.Sets` | src/sql-util.js:69-73 | one `key=value` pair per field, in key order, the value written as `Records.Literal` writes it |
| `Records.IntDecimal` | src/sql-util.js:71-72 | `${v}` for an integer: non-empty, digits after a leading `-`, which is there exactly when the number is negative |
| `Records.ParseIntDecimal` | src/sql-util.js:72 | the decimal text a number is written as reads back as that number |
| `Records.ParseNatDecimal` | src/sql-util.js:72 | the digits of a natural number read back as that number |
| `Records.NatDecimal` | src/sql-util.js:72 | a number's digits are non-empty decimal digits with no leading zero |
| `Text.SplitJoin` | src/sql-util.js:74 | splitting at the separator undoes joining with it, for parts without the separator |
| `Text.ParseListJoin` | src/sql-util.js:56 | a list of non-empty, comma-free items written with `join(', ')` reads back as exactly those items |
| `Text.OccurrencesJoin` | src/sql-util.js:57 | joining with a separator that lacks a character adds no occurrence of it |
| `Text.OccurrencesPresent` | src/sql-util.js:57 | a character occurs in a string exactly when its count there is positive |
| `Connection.Termination` | src/mysql-connection.js:82-112 | `release` when the session has it; otherwise `end`; otherwise `destroy`; nothing when it has none; the call chosen always gives the session up |
| `Connection.FirstRow` | src/mysql-connection.js:131-132 | some row exactly when the reply is a non-empty row list, and then its first row |
| `Connection.InsertId` | src/mysql-connection.js:145-147 | the generated id exactly when the reply is a write packet |
| `Connection.UpsertParams` | src/mysql-connection.js:221-223 | the values in key order, twice: 2n parameters, the i-th and the (n+i)-th being the i-th value |
| `Connection.UpsertBindsEveryPlaceholder` | src/mysql-connection.js:218-226 | the doubled values are exactly as many as the upsert's placeholders |
| `Connection.ByIdBindsEveryPlaceholder` | src/mysql-connection.js:50-53 | the single id parameter matches the one placeholder of the by-id delete, get and update texts |
| `Connection.MySqlConnection.constructor` | src/mysql-connection.js:32-36 | holds the session; `debug` is `config && config.debug`; nothing issued yet |
| `Connection.MySqlConnection.TerminatedAtMostOnce` | src/mysql-connection.js:74-115 | a wrapper that keeps its invariant has given its session up at most once |
| `Connection.MySqlConnection.Destroy` | src/mysql-connection.js:60-65 | destroys and drops a held session; returns with nothing held; a session without `destroy` throws and leaves the wrapper as it was |
| `Connection.MySqlConnection.Done` | src/mysql-connection.js:74-115 | always drops the session; without one, resolves and issues nothing; otherwise issues the one `Termination` call and rejects with that call's error; rejects with `Unrecognizable connection type.` when the session has no termination method |
| `Connection.MySqlConnection.Query` | src/mysql-connection.js:156-168 | rejects with `Connection not available.` and issues nothing without a session; otherwise issues the query with exactly these parameters and passes the reply or error on |
| `Connection.MySqlConnection.DeleteAll` | src/mysql-connection.js:41-44 | issues the delete-all text with no parameters |
| `Connection.MySqlConnection.DeleteById` | src/mysql-connection.js:50-53 | issues the delete-by-id text with the id as the only parameter |
| `Connection.MySqlConnection.GetAll` | src/mysql-connection.js:120-123 | issues the get-all text with no parameters |
| `Connection.MySqlConnection.GetById` | src/mysql-connection.js:129-133 | issues the get-by-id text with the id and resolves with the first row, if any; a failed query's error is passed on |
| `Connection.MySqlConnection.Insert` | src/mysql-connection.js:140-148 | issues the insert text with the values in key order and resolves with the generated id |
| `Connection.MySqlConnection.UpdateById` | src/mysql-connection.js:207-210 | issues the update text with the id as the only parameter |
| `Connection.MySqlConnection.Upsert` | src/mysql-connection.js:218-226 | issues the upsert text with the values twice and resolves with the generated id |
| `Connection.MySqlConnection.Transaction` | src/mysql-connection.js:181-201 | rejects without a session; otherwise begins, then commits and resolves with the work's value, or rolls back and rejects with the work's own error |
| `Connection.DoneTwice` | src/mysql-connection.js:74-80 | a second `done()` resolves, and the session was given up once (or never, when it has no termination method) |
| `Connection.QueryAfterDone` | src/mysql-connection.js:157 | after `done()`, queries reject with `Connection not available.` |
| `Connection.FailedTransaction` | src/mysql-connection.js:196-197 | a failing unit of work is rolled back and its error is what the transaction rejects with |
| `Pool.MySqlPool.constructor` | src/mysql-pool.js:30-33 | keeps the configuration and a driver pool made from it |
| `Pool.MySqlPool.EndedAtMostOnce` | src/mysql-pool.js:39-51 | a pool wrapper that keeps its invariant has ended its driver pool at most once |
| `Pool.MySqlPool.End` | src/mysql-pool.js:39-51 | resolves and issues nothing when already ended; otherwise ends the driver pool once, drops it even when the driver reports an error, and passes that error on |
| `Pool.MySqlPool.GetConnection` | src/mysql-pool.js:59-73 | rejects with `Pool has ended. Connections are not available.` once ended; passes a driver error on; wraps the session handed out, with this pool's `debug` |
| `Pool.EndTwice` | src/mysql-pool.js:40 | a second `end()` resolves, even after a failed first one, and the driver pool was ended once |
| `Pool.GetConnectionAfterEnd` | src/mysql-pool.js:61-62 | an ended pool, even one whose ending failed, hands out no connections |
| `Pool.PooledDone` | src/mysql-connection.js:82-89 | a pooled connection's `done()` releases it and nothing else |
| `Registry.MySqlEasier.constructor` | src/index.js:41-43 | a new registry has no global pool |
| `Registry.MySqlEasier.Configure` | src/index.js:48-51 | throws `Pool has already been configured.` and keeps the pool when one exists; otherwise installs a new pool made from the configuration |
| `Registry.MySqlEasier.CreatePool` | src/index.js:77-79 | a new pool made from the configuration; the global pool is untouched |
| `Registry.MySqlEasier.CreateConnection` | src/index.js:63-65 | a wrapper around a new standalone session with the configuration's `debug`; the global pool is untouched |
| `Registry.MySqlEasier.EndPool` | src/index.js:91-96 | rejects with `Pool not configured` without a pool; otherwise drops the global pool at once and resolves or rejects as the pool's `end` does |
| `Registry.MySqlEasier.GetConnection` | src/index.js:104-107 | rejects with `Pool not configured` without a pool; otherwise behaves as the global pool's `getConnection` and leaves that pool open |
| `Registry.Reconfigure` | src/index.js:48-51 | configuring twice throws; after `endPool`, even a failed one, configuring works again |
| `Registry.GetConnectionTwice` | src/index.js:104-107 | getting a connection leaves the global pool open, so a second request also gets a wrapped connection, each holding the session the driver handed out |
| `Registry.Unconfigured` | src/index.js:41-43 | a fresh registry rejects both `getConnection` and `endPool` with `Pool not configured` |
| `Registry.EndPoolTwice` | src/index.js:91-96 | a second `endPool` rejects with `Pool not configured` |
| `LegacySql.Dollars` | index.js:105 | the i-th placeholder is `$` followed by the decimal digits of i+1 |
| `LegacySql.DollarsNumbered` | index.js:105 | the placeholders are numbered 1 to n, in order |
| `LegacySql.DollarListReadBack` | index.js:105 | the comma-joined placeholders split back into `$1 … $n` |
| `LegacySql.ColumnsReadBack` | index.js:104 | with comma-free keys, the `,`-joined columns split back into the keys in key order |
| `LegacySql.Columns` | index.js:104 | `keys.join(',')`: empty for no fields, the one key for one field |
| `LegacySql.DollarList` | index.js:105 | `placeholders.join(',')`: empty for no values, `$1` for one value |
| `LegacySql.DeleteById` | index.js:61 | starts with `delete from <table>`, ends with ` where id=$1`, and has exactly one `$` when the table name has none |
| `LegacySql.GetById` | index.js:91 | starts with `select * from <table>`, ends with ` where id=$1`, and has exactly one `$` when the table name has none |
| `LegacySql.Insert` | index.js:101-109 | ends with `) returning id`; an empty object gives `insert into <table> () values() returning id` |
| `LegacySql.InsertPlaceholders` | index.js:101-109 | with no `$` in the table name or the keys, one `$` placeholder per field |
| `LegacySql.UpdateById` | index.js:129-138 | starts with `update <table> set ` and the same pair list as `SqlUtil.SetList`, and ends with ` where id=$1` |
| `LegacySql.UpdateByIdPlaceholders` | index.js:129-138 | with no `$` in the table name, the keys or the string values, the only placeholder is `$1` |
| `Legacy.MySqlConnection.constructor` | index.js:38-41 | owns a driver pool made from the configuration, with its `debug` |
| `Legacy.MySqlConnection.EndedAtMostOnce` | index.js:69-75 | the pool is ended at most once |
| `Legacy.MySqlConnection.Disconnect` | index.js:69-75 | ends a held pool once, without looking at the outcome, and drops it; does nothing otherwise |
| `Legacy.MySqlConnection.Query` | index.js:116-123 | rejects with `pool not configured` and issues nothing without a pool; otherwise runs the query on the pool with these parameters and passes the reply on |
| `Legacy.MySqlConnection.DeleteAll` | index.js:50-54 | runs `delete from <table>` with no parameters |
| `Legacy.MySqlConnection.DeleteById` | index.js:60-64 | runs the `$1` delete text with the id as the only parameter |
| `Legacy.MySqlConnection.GetAll` | index.js:80-84 | runs `select * from <table>` with no parameters |
| `Legacy.MySqlConnection.GetById` | index.js:90-94 | runs the `$1` select text with the id and passes the whole reply on |
| `Legacy.MySqlConnection.Insert` | index.js:101-109 | runs the `returning id` insert text with the values in key order |
| `Legacy.MySqlConnection.UpdateById` | index.js:129-138 | runs the `$1` update text with the id as the only parameter |
| `Legacy.DisconnectTwice` | index.js:69-75 | disconnecting twice ends the pool once and leaves it dropped |
| `Legacy.QueryAfterDisconnect` | index.js:118 | after `disconnect()`, queries reject with `pool not configured` |

## Left out

- The `mysql` driver itself is not modelled: connecting, running SQL, pooling, and escaping parameters. What it reports becomes a method parameter. An error it reports is any `Error` value, passed on unchanged.
- Promises, callbacks and the event loop are not modelled. An operation is modelled from start until its promise settles. So two operations on one object never overlap in the model.
- Because they never overlap, each wrapper's invariant that nothing is issued after its session or pool is given up holds only for operations that do not overlap. The source breaks it when they do. For example:
  - a second `MySqlPool.end()` called before the first one's callback has run calls the driver's `end` again (src/mysql-pool.js:40-43);
  - a `MySqlPool.getConnection()` called while `end()` is pending passes the guard, because `this.pool` is cleared only in the `end` callback (src/mysql-pool.js:43, 61). It then calls the driver pool's `getConnection` after its `end` (src/mysql-pool.js:64);
  - a `done()` or `destroy()` called while `transaction(fn)` is pending clears `this.connection`, so the later `commit` or `rollback` is called on `null` (src/mysql-connection.js:192, 197).
- The SQL builders' `log` methods, the `debug` logging in every class and `console.log` are left out. They only produce output.
- `Connection.MySqlConnection.Transaction`: the driver is taken to begin and commit without error. In the source, a `beginTransaction` error rejects but then still runs the unit of work, and a `commit` error is thrown inside a callback where nothing can catch it. Neither path is modelled.
- `Connection.MySqlConnection.Transaction`: the calls the unit of work itself issues between begin and commit/rollback are not recorded in the log. The work is represented only by its outcome.
- `Connection.MySqlConnection.Destroy`: the driver's `destroy` is taken to return normally. If it threw, the source would leave `this.connection` set.
- Only the driver's `release`, `end` and `destroy` are modelled as possibly missing from a session (the `done()` checks, src/mysql-connection.js:82, 91, 105). `query`, `beginTransaction`, `commit` and `rollback` are assumed present.
- Records.Literal: an `Int` stands for a safe JavaScript integer (less than 2^53 in magnitude) and is always written in plain decimal. JavaScript writes a number of magnitude 10^21 or more in exponent form (`1e+21`), and cannot hold larger integers exactly. Neither is modelled.
- Values are strings, integers, booleans and `null`. Floating-point numbers and their renderings (exponents, `NaN`) are left out, as are `undefined`, nested objects and arrays, `Date` and `Buffer`.
- Field objects are taken in their enumeration order. JavaScript's rule that integer-like keys enumerate first, in ascending order, is left out. So is the inherited or symbol-keyed property.
- The demo scripts (demo.js, src/demo.js, src/transaction-demo.js) and src/sql-util.test.js are not part of this model.
