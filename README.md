# QueryMaster in Dafny

QueryMaster is a single PHP class that wraps MySQL (mysqli), PostgreSQL and SQLite
(both through PDO) behind one set of CRUD operations. At construction it checks the
database type against `mysql`, `pgsql` and `sqlite`. Each connection setting keeps its
default unless the argument for it is truthy. Then it opens one connection. Every
operation builds its SQL text by splicing the caller's table, column and condition text
into a fixed shape. Only record values, and the id of `getById`, are sent separately as
bound parameters.

This project models that logic and proves properties of it:

- `php.dfy`, module `Php`: the PHP runtime behaviour the class relies on. This covers
  scalar values, truthiness, the decimal text that interpolation writes for an int,
  `implode` and `rtrim`.
- `sql.dfy`, module `Sql`: the exact SQL text of insert, update, delete, select,
  getById, findByMany, findByOne and paginate. The SET-list loop of update is a method
  proved against the intended SET clause.
- `binding.dfy`, module `Binding`: the binding plan of `prepareAndBind`. mysqli binds
  every value with type `'s'`. PDO binds the value at index k at position k + 1.
- `db.dfy`, module `Db`: the class itself (`QueryMaster`). Its fields are the database
  type, the four settings and an abstract connection handle. It has the constructor,
  `connect`, `close`, the DSN strings and the CRUD methods. A driver call is modelled
  by the `Request` value the operation would hand to the driver. A call after `close`
  fails with `NoConnection`.

The constructor fails in two different ways:

- An unsupported database type throws a catchable exception. It does not end the
  process. Only a failed connection attempt calls `die`.
- That check runs after the fields are assigned and before `connect`. `Construct`
  checks first and builds no object, which is the same observable outcome.

## Model

| member | source | states |
|---|---|---|
| `Php.Truthy` | QueryMaster.php:16-19 | PHP's boolean conversion: null, false, 0, "" and "0" are falsy, every other scalar is truthy |
| `Php.Interpolate` | QueryMaster.php:37 | the text a scalar contributes to a double-quoted string: "" for null and false, "1" for true, the decimal text of an int, a string itself |
| `Php.TruthyIffTextTruthy` | QueryMaster.php:16-19 | a scalar is truthy (the test of `if ($host)`, `if ($limit)`) exactly when its interpolated text is neither "" nor "0" |
| `Php.NatToString` | QueryMaster.php:128 | the decimal text of a non-negative int is non-empty, all digits, and starts with '0' only for zero |
| `Php.DigitsValueOfNatToString` | QueryMaster.php:128 | reading the decimal text of a natural number back gives the number |
| `Php.IntToString` | QueryMaster.php:128 | the text an int becomes when interpolated, as `"$limit"` and `"$offset"` do: a minus sign for a negative int, then the decimal digits; never empty |
| `Php.IntToStringRoundTrip` | QueryMaster.php:128 | the text interpolation writes for any int (sign included) parses back to that int |
| `Php.IntToStringInjective` | QueryMaster.php:128 | distinct limits or offsets are written as distinct text |
| `Php.Implode` | QueryMaster.php:51-52 | `implode`: the parts in order with the separator between neighbours |
| `Php.ImplodeSnoc` | QueryMaster.php:51-52 | implode of parts plus one more part is the old result, one separator and the new part |
| `Php.CountAppend` | QueryMaster.php:52 | a character count over a concatenation is the sum of the counts |
| `Php.CountZeroIff` | QueryMaster.php:52 | a text has no occurrence of a character exactly when its count of that character is zero |
| `Php.ImplodeCount` | QueryMaster.php:51-52 | the occurrences of a character in an implode are those in the parts plus those in one separator per pair of neighbours |
| `Php.RTrim` | QueryMaster.php:65 | rtrim returns a prefix of its input that does not end in a listed character, and everything cut off is made of listed characters |
| `Php.RTrimStopsAt` | QueryMaster.php:65 | rtrim of s followed by listed characters is s, when s does not itself end in a listed character |
| `Sql.Keys` | QueryMaster.php:51 | `array_keys($data)`: the column names of the record in its iteration order |
| `Sql.Values` | QueryMaster.php:55 | `array_values($data)`: the values of the record in the same order as its keys |
| `Sql.Placeholders` | QueryMaster.php:52 | `implode(", ", array_fill(0, n, "?"))`: n question marks joined by ", " |
| `Sql.PlaceholdersShape` | QueryMaster.php:52 | the placeholder list for n values has length 3n-2 (0 for n = 0), reads "?, ?, ..., ?" position by position, and holds exactly n '?' |
| `Sql.InsertQuery` | QueryMaster.php:54 | the text `INSERT INTO t (c1, ..., cn) VALUES (?, ..., ?)` that insert prepares |
| `Sql.InsertArity` | QueryMaster.php:51-55 | the '?' of the insert query are the caller's own in the table and column names plus one per bound value, and the VALUES list has as many placeholders as there are columns and values |
| `Sql.Assignment` | QueryMaster.php:63 | one segment `"<column> = ?"` of the SET list |
| `Sql.Accumulated` | QueryMaster.php:61-64 | the text the update loop holds after the given columns, before rtrim: each column's segment followed by ", " |
| `Sql.AssignmentCount` | QueryMaster.php:62 | each "<column> = ?" segment adds one placeholder to the column name |
| `Sql.SetClauseCount` | QueryMaster.php:61-65 | the SET clause holds one placeholder per column, besides any '?' in the column names |
| `Sql.AccumulatedIsSetClause` | QueryMaster.php:61-64 | the text the update loop accumulates is the SET clause followed by one ", " (empty for no columns) |
| `Sql.TrimRemovesOnlyFinalSeparator` | QueryMaster.php:63-65 | since every segment ends in "?", rtrim with ", " removes exactly the last two characters and leaves the SET clause |
| `Sql.SetValues` | QueryMaster.php:61-65 | the loop plus rtrim yields the columns in order, each followed by " = ?", joined by ", " |
| `Sql.UpdateQuery` | QueryMaster.php:67 | the text `UPDATE t SET <set clause> WHERE cond` that update prepares |
| `Sql.UpdateArity` | QueryMaster.php:61-68 | the '?' of the update query are the caller's own in the table, column names and condition plus one per bound value |
| `Sql.UpdateWithoutColumns` | QueryMaster.php:61-67 | empty data gives `UPDATE t SET  WHERE c` |
| `Sql.SetClauseOfColumns` | QueryMaster.php:61-65 | the SET clause is empty exactly for no columns, and adding a column appends ", <column> = ?" |
| `Sql.DeleteQuery` | QueryMaster.php:74 | the text `DELETE FROM t WHERE cond` that delete executes |
| `Sql.DeleteArity` | QueryMaster.php:74-75 | the delete text adds no placeholder of its own, matching the absence of bound parameters |
| `Sql.FindByManyQuery` | QueryMaster.php:97 | the text `SELECT cols FROM t WHERE cond` that findByMany runs |
| `Sql.FindByManyArity` | QueryMaster.php:97-98 | the findByMany text adds no placeholder of its own, matching the absence of bound parameters |
| `Sql.SelectQuery` | QueryMaster.php:79-81 | the select query is the `SELECT cols FROM t WHERE cond` text with " LIMIT <limit>" appended if and only if the limit is truthy |
| `Sql.FindByOneQuery` | QueryMaster.php:103-104 | findByOne's query is findByMany's query plus " LIMIT 1" whatever the condition holds, and equals select with limit 1 |
| `Sql.ZeroLimitMeansNoLimit` | QueryMaster.php:81 | a limit of 0 or "0" is dropped: select then has no LIMIT at all |
| `Sql.GetByIdQuery` | QueryMaster.php:89 | the text `SELECT * FROM t WHERE id = ?` that getById prepares |
| `Sql.GetByIdArity` | QueryMaster.php:89 | the getById text adds exactly one placeholder to the table name |
| `Sql.Offset` | QueryMaster.php:127 | the rows paginate skips, `(page - 1) * limit` |
| `Sql.PagesTile` | QueryMaster.php:127 | page 1 has offset 0, page 3 with limit 10 has offset 20, and each page starts where the previous one ends |
| `Sql.PaginateLimit` | QueryMaster.php:127-128 | the limit text paginate passes is always truthy |
| `Sql.PaginateAlwaysLimits` | QueryMaster.php:126-128 | the paginate query always ends in "LIMIT <limit> OFFSET <(page-1)*limit>", and both numbers read back exactly |
| `Binding.BindingFor` | QueryMaster.php:114-119 | the single binding call for the parameter at index k: `bind_param('s', value)` on mysql, `bindValue(k + 1, value)` otherwise |
| `Binding.Plan` | QueryMaster.php:113-120 | the binding plan: ('s', value) per parameter on mysql, (k + 1, value) for the parameter at index k otherwise |
| `Binding.BindParams` | QueryMaster.php:110-122 | the binding loops produce one binding per parameter in order: ('s', value) on mysql, (k+1, value) otherwise |
| `Binding.PlanBindsParamsInOrder` | QueryMaster.php:113-120 | the plan binds every parameter and its bound values are the parameters in their order |
| `Binding.MysqlBindsStrings` | QueryMaster.php:111-115 | on mysql every value is bound with type 's' |
| `Binding.PdoPositionsBoundOnce` | QueryMaster.php:116-120 | on PDO every binding is positional, positions lie in 1..n, no position is bound twice, and every position 1..n is bound |
| `Db.Setting` | QueryMaster.php:16-19 | a setting is its argument when that is truthy, and its default otherwise |
| `Db.SettingKeepsDefaultUnlessTruthy` | QueryMaster.php:5-8 | a setting takes its argument exactly when the argument is truthy (or equals the default); null and "0" keep the default |
| `Db.DsnDriver` | QueryMaster.php:37-41 | the driver part of a DSN is the prefix before its first colon |
| `Db.DsnOf` | QueryMaster.php:37-41 | a DSN written as driver ":" body splits back into that driver and body |
| `Db.PgsqlDsn` | QueryMaster.php:37 | the DSN `pgsql:host=<host>;dbname=<dbname>` with both settings interpolated |
| `Db.SqliteDsn` | QueryMaster.php:41 | the DSN `sqlite:<dbname>` with the database name interpolated |
| `Db.PgsqlDsnSelectsPgsql` | QueryMaster.php:37 | the pgsql DSN names the pgsql driver and carries "host=<host>;dbname=<dbname>" |
| `Db.SqliteDsnSelectsSqlite` | QueryMaster.php:41 | the sqlite DSN names the sqlite driver and carries the database name as its path |
| `Db.Opened` | QueryMaster.php:29-43 | the handle connect opens: mysqli on the four settings for mysql, PDO on the pgsql DSN with username and password, PDO on the sqlite DSN alone, none otherwise |
| `Db.OpenedHandleMatchesType` | QueryMaster.php:29-43 | a handle is opened exactly for the three supported types, it is mysqli exactly for mysql, and a PDO handle's DSN names the database type as its driver |
| `Db.QueryMaster.Valid` | QueryMaster.php:13-43 | the states the object can reach: a supported database type, and either the handle connect opened on the current settings or none after close |
| `Db.QueryMaster.Construct` | QueryMaster.php:13-25 | an unsupported type fails with UnsupportedDatabaseType and builds nothing; otherwise a fresh object with each setting defaulted unless its argument is truthy, holding exactly the handle connect opens for those settings, in a valid state |
| `Db.QueryMaster.constructor` | QueryMaster.php:13-25 | fields set step by step under truthy overrides, then exactly the handle connect opens for the resulting settings, in a valid state |
| `Db.QueryMaster.Connect` | QueryMaster.php:29-43 | mysql opens mysqli on the four settings; pgsql opens PDO on its DSN with username and password; sqlite opens PDO on its DSN alone |
| `Db.QueryMaster.Close` | QueryMaster.php:132-134 | close clears the handle, keeps the object valid, and leaves the database type and every setting unchanged |
| `Db.QueryMaster.PrepareAndBind` | QueryMaster.php:110-123 | on an open handle the statement carries the query and the binding plan; on the null handle the call fails |
| `Db.QueryMaster.Insert` | QueryMaster.php:50-57 | prepares the insert query with the record's values bound in column order |
| `Db.QueryMaster.Update` | QueryMaster.php:60-70 | prepares the update query with the record's values bound in SET-clause order |
| `Db.QueryMaster.Delete` | QueryMaster.php:73-76 | on a PDO handle executes the delete text with no parameters; on a mysqli handle fails, since mysqli has no `exec`, and sends nothing; on an open handle it fails exactly when the type is mysql |
| `Db.QueryMaster.Select` | QueryMaster.php:79-85 | runs the select text with no parameters; columns default to "*", condition to "1", limit to null |
| `Db.QueryMaster.GetById` | QueryMaster.php:88-93 | prepares `SELECT * FROM t WHERE id = ?` and binds the id as its only parameter |
| `Db.QueryMaster.FindByMany` | QueryMaster.php:96-100 | runs the findByMany text with no parameters |
| `Db.QueryMaster.FindByOne` | QueryMaster.php:103-107 | runs the findByOne text with no parameters |
| `Db.QueryMaster.Paginate` | QueryMaster.php:126-129 | runs select with the text "<limit> OFFSET <offset>", so the query ends in that LIMIT and OFFSET |
| `Db.GetByIdBindsOnlyTheId` | QueryMaster.php:89-90 | getById binds exactly one value, the id, two ids give the same plan only if they are equal, and the query's placeholders beyond the table name's are exactly the bound values |
| `Db.CloseThenInsert` | QueryMaster.php:132-134 | after close an insert fails instead of reaching the driver; only the handle changes, the database type and the four settings stay as they were |

## Left out

- Driver calls are left out: `new mysqli`, `new PDO`, `setAttribute`, `prepare`, `execute`, `exec`, `query`, `fetch` and `fetchAll`. They are foreign calls with database I/O. An operation returns the `Request` it would hand to the driver.
- Results of `execute`, `exec`, `fetch` and `fetchAll` are left out, because they depend on the database contents.
- The connection-failure path (`connect_error` and `die`) is left out. It depends on the network and the driver, and it ends the process.
- The behaviour of mysqli `bind_param` when it is called once per value is left out. Only the intended plan is recorded: one binding of type 's' per value.
- mysqli has no `exec` method, so delete on a mysqli handle fails before any statement is sent. The model returns `UndefinedMethod` for it.
- Db.QueryMaster.Select: on a mysqli handle the query is sent, then `fetchAll` fails because `mysqli_result` has only `fetch_all`. The model returns the request and does not model that failure.
- Db.QueryMaster.FindByMany: on a mysqli handle the query is sent, then `fetchAll` fails in the same way. The model does not model that failure.
- Db.QueryMaster.Paginate: it goes through select, so on a mysqli handle it fails after sending the query in the same way. The model does not model that failure.
- Db.QueryMaster.FindByOne: on a mysqli handle the query is sent, then `fetch(PDO::FETCH_ASSOC)` fails because `mysqli_result` has no `fetch` method. The model does not model that failure.
- Db.QueryMaster.GetById: on a mysqli handle the statement is prepared, bound and executed, then `fetch(PDO::FETCH_ASSOC)` fails because `mysqli_stmt::fetch` takes no argument. The model does not model that failure.
- The SQL meaning of table, column and condition text is left out. This includes injection safety. That text is spliced in verbatim and is treated as opaque.
- Non-string database types are left out. `in_array` and `==` compare loosely, so a value such as `true` would compare equal to "mysql". The model takes the database type as a string.
- Floats, arrays and objects as PHP values are left out. Record keys are strings, so PHP's integer array keys are not modelled.
- Integer overflow is left out. Integers are unbounded, so PHP's switch to float when `(page - 1) * limit` overflows is not modelled. `page` and `limit` are ints, so numeric strings for them are not modelled.
- A call after close is modelled as a failure with `NoConnection`. PHP instead raises an Error for calling a method on null.
