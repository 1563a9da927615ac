# tortoise-orm executor and MySQL client, modelled in Dafny

This project models the database-facing core of tortoise-orm (an asyncio ORM for Python):

- **The backend-independent executor.** It covers:
  - the INSERT path, with its process-wide statement cache (`INSERT_CACHE`) and value coercion through the backend's `TO_DB_OVERRIDE` table;
  - turning SELECT rows into model instances;
  - `fetch_for_list`, which parses relation paths such as `"author__books"` into `prefetch_map`;
  - the prefetch engine, which fills each relation of a list of instances with one related query per relation. Relations are reverse foreign keys, many-to-many, or direct foreign keys.
- **The two backend executors.**
  - MySQL replaces six text filters with `LIKE` criteria over `CAST(field AS CHAR)` and inserts with `%s` placeholders.
  - SQLite coerces booleans, decimals and datetimes itself and inserts with `?` placeholders.
  - Each sets its own `EXPLAIN` prefix.
- **The MySQL client.** It covers:
  - option filtering and the connection template;
  - the `retry_connection` and `translate_exceptions` wrappers around every statement;
  - `db_create` and `db_delete`;
  - the transaction wrapper, a finalise-once flag plus save/restore of the connection name's current transaction.

Modules:

| module | file | contents |
|---|---|---|
| `Wrappers` | wrappers.dfy | `Option`, `Result` |
| `Models` | models.dfy | values with Python truthiness, field kinds, model metadata, the `Instance` class |
| `Errors` | errors.dfy | pymysql exception classes and ORM exceptions |
| `Paths` | paths.dfy | `str.split("__")` and `"__".join` |
| `Sql` | sql.dfy | LIKE criteria, their matching semantics, INSERT statement structure |
| `MySQLExecutor` | mysql_executor.dfy | the six pattern builders, `FILTER_FUNC_OVERRIDE`, `EXPLAIN_PREFIX`, the insert statement |
| `SqliteExecutor` | sqlite_executor.dfy | `to_db_bool`, `to_db_decimal`, `to_db_datetime`, `TO_DB_OVERRIDE`, the insert statement |
| `Prefetch` | prefetch.dfy | the grouping half of prefetching, as values |
| `BaseExecutor` | base_executor.dfy | dialect dispatch, insert plan and cache, `fetch_for_list`, `execute_select`, the `Executor` class |
| `MySQLClient` | mysql_client.dfy | options, wrappers, the `Client` and `TransactionWrapper` classes |

Each executor class (base, MySQL, SQLite) is a `Dialect` that selects its class attributes. Instances, the insert cache, the executor, the client and the transaction wrapper are classes whose methods update their fields as the Python code does.

I/O is replaced by inputs:

- a related query is `related: string -> seq<Record>`, the rows it would return before the `__in` filter;
- every driver round trip is an outcome `Result` given as a parameter;
- the clock (`datetime.utcnow()`) is a parameter `now`;
- a field's own `to_db_value` is a parameter `conv`. Given the field, the value passed in and the field's own current attribute, it yields the value to bind or the exception raised, and an optional write-back to that attribute.

The client records what it does in a ghost event trace (statements sent, lock acquired/released, connections closed/opened).

Three behaviours of the code are easy to misread:

- **`db_delete`.** `execute_script` translates exceptions before `db_delete` sees them. A pymysql `OperationalError` from the DROP therefore reaches `db_delete` as the ORM's `OperationalError` and is not caught. Only a bare pymysql `DatabaseError` is swallowed (`MySQLClient.SwallowedAfterTranslation`, `MySQLClient.Client.DbDelete`).
- **Failed reconnect.** `_close` never clears `_connection`. After a failed reconnect the client keeps a reference to the closed connection (`MySQLClient.Client.RetryConnection`).
- **Reconnect in `db_create`.** The reconnect inside `db_create`'s retry uses `with_db=True`, the database about to be created (`MySQLClient.Client.DbCreate`, through `Execute`).

## Model

| member | source | states |
|---|---|---|
| BaseExecutor.ExplainSql | tortoise/backends/base/executor.py:23-25 | the EXPLAIN statement is the class's prefix, one space, then the query text |
| BaseExecutor.GetOverriddenFilterFunc | tortoise/backends/base/executor.py:255-257 | an override exists exactly on the MySQL executor for the six contains/starts/ends filters, and it is the MySQL table's entry |
| BaseExecutor.ToDbOverride | tortoise/backends/base/executor.py:48-52 | a serialisation override exists exactly on the SQLite executor for boolean, decimal and datetime fields |
| BaseExecutor.InsertStatement | tortoise/backends/base/executor.py:62-66 | the base class raises NotImplementedError; the subclasses build a statement over the given table and columns with one placeholder per column |
| BaseExecutor.RegularColumnsExact | tortoise/backends/base/executor.py:39-44 | the regular columns are exactly the projection's non-generated fields, each once, in projection order |
| BaseExecutor.RegularColumnsMembers | tortoise/backends/base/executor.py:41-44 | a name is regular for a projection prefix iff a prefix entry has it and its field is not generated |
| BaseExecutor.RegularColumnsInOrder | tortoise/backends/base/executor.py:41-44 | regular columns keep the projection's order |
| BaseExecutor.DbColumnIsProjected | tortoise/backends/base/executor.py:45 | each field is paired with the column its first projection entry gives it |
| BaseExecutor.PlanColumnsDeclared | tortoise/backends/base/executor.py:42 | every field of an insert plan is declared in `fields_map` |
| BaseExecutor.PlanShape | tortoise/backends/base/executor.py:68-73 | building a plan fails iff the executor is the base class; otherwise the i-th column is the projected column of the i-th regular field and there is one placeholder per column |
| BaseExecutor.Coerce | tortoise/backends/base/executor.py:48-52 | without an override the outcome is exactly that of the field's own `to_db_value`; with an override, only the SQLite datetime override writes back and only the SQLite decimal override can fail |
| BaseExecutor.InsertValuesUseOriginalAttributes | tortoise/backends/base/executor.py:54-60 | every insert value is the coercion of the attribute as it was before the call, although earlier columns may write back |
| BaseExecutor.InsertValuesErrors | tortoise/backends/base/executor.py:54-60 | preparing insert values fails only with what one of the columns can raise: `KeyError` for an undeclared column, an unconvertible SQLite decimal, or an exception of the field's own `to_db_value` where no override applies |
| BaseExecutor.InsertValuesFailOnlyOnDecimal | tortoise/backends/base/executor.py:54-60 | with declared columns and serialisers that never raise, preparing insert values fails only on SQLite with a decimal column |
| BaseExecutor.CacheKeyInjective | tortoise/backends/base/executor.py:69 | with colon-free connection names, different (connection, table) pairs have different cache keys |
| BaseExecutor.CacheKeyCollision | tortoise/backends/base/executor.py:69 | a colon in a connection name lets two pairs share a key |
| BaseExecutor.InsertCache.constructor | tortoise/backends/base/executor.py:9 | the cache starts empty |
| BaseExecutor.Executor.constructor | tortoise/backends/base/executor.py:17-21 | the executor keeps its model, dialect and the given prefetch map and queries |
| BaseExecutor.Executor.PrepareInsertColumns | tortoise/backends/base/executor.py:39-46 | the loop returns the regular fields and their columns (whose properties are `RegularColumnsExact` and `PlanShape`) |
| BaseExecutor.Executor.FieldToDb | tortoise/backends/base/executor.py:48-52 | the value bound and the instance's new attributes are those of `Coerce`; relation attributes are untouched |
| BaseExecutor.Executor.PrepareInsertValues | tortoise/backends/base/executor.py:54-60 | the loop yields the coerced values in column order or the first error (`KeyError` for a column missing from `fields_map`), and leaves the instance with the write-backs made so far |
| BaseExecutor.Executor.ExecuteInsert | tortoise/backends/base/executor.py:68-79 | the plan is built only when `connection:table` has no cache entry (`built`), and stored only if its statement could be built; otherwise the cache is unchanged and the cached entry is used as it is, whoever stored it; the insert is called with the used plan's statement and the coerced values; on success the instance's id is the returned id |
| BaseExecutor.CachedPlanReused | tortoise/backends/base/executor.py:69-76 | once a plan is stored under a key, every later insert under that key uses that plan, whatever its executor would build |
| BaseExecutor.MergeQueries | tortoise/backends/base/executor.py:211-221 | every relation of either map has a query, carrying its existing forwarded prefetches plus those of `prefetch_map` |
| BaseExecutor.MergeForwarded | tortoise/backends/base/executor.py:212-221 | the loop over `prefetch_map`, in any order, yields `MergeQueries` |
| BaseExecutor.Executor.MakePrefetchQueries | tortoise/backends/base/executor.py:211-221 | `_prefetch_queries` becomes the merge; `prefetch_map` is unchanged |
| BaseExecutor.PrefetchMapOfContents | tortoise/backends/base/executor.py:239-251 | the prefetch map has an entry for each first segment, holding exactly the non-empty remainders of the paths with that segment |
| BaseExecutor.PlainRelationForwardsNothing | tortoise/backends/base/executor.py:241-251 | a path without `__` adds itself with nothing forwarded |
| BaseExecutor.FirstUnknown | tortoise/backends/base/executor.py:240-246 | locates the first path whose first segment is not a fetch field; every earlier one is |
| BaseExecutor.ParseRelations | tortoise/backends/base/executor.py:239-251 | the loop stops at the first relation whose first segment is not a fetch field, and the map it returns is `PrefetchMapOf` of the relations before it (of all of them when none is unknown) |
| BaseExecutor.Executor.FetchForList | tortoise/backends/base/executor.py:238-253 | an unknown first segment raises "relation … for … not found", leaving the map built so far and no prefetch; otherwise the map is rebuilt from the paths and every relation is prefetched as `PrefetchApplied` says |
| BaseExecutor.FirstAbsent | tortoise/backends/base/executor.py:33-34 | the position returned is that of a custom field the row lacks, and every custom field before it is in the row |
| BaseExecutor.FirstMissing | tortoise/backends/base/executor.py:30-35 | no custom field is missing iff every row has every custom field; the one reported is a custom field |
| BaseExecutor.FirstMissingAt | tortoise/backends/base/executor.py:30-34 | the `KeyError` is for the first absent custom field of the first row that lacks one |
| BaseExecutor.FirstMissingNone | tortoise/backends/base/executor.py:30-35 | when every row holds every custom field, no lookup raises |
| BaseExecutor.RowValuesContents | tortoise/backends/base/executor.py:31-34 | an instance built from a row holds the row's declared fields and its custom fields, with the row's values |
| BaseExecutor.BuildInstance | tortoise/backends/base/executor.py:31-34 | one row gives a fresh instance with `RowValues`, or the `KeyError` of its first absent custom field |
| BaseExecutor.BuildInstances | tortoise/backends/base/executor.py:29-35 | one fresh instance per row, in row order, or the first `KeyError` |
| BaseExecutor.Executor.ExecuteSelect | tortoise/backends/base/executor.py:27-37 | a missing custom field raises `KeyError` before any prefetch; otherwise the new instances are prefetched into as `PrefetchApplied` says |
| BaseExecutor.CollectIds | tortoise/backends/base/executor.py:103-105 | the loop collects exactly the instances' ids |
| BaseExecutor.CollectTruthyFks | tortoise/backends/base/executor.py:197-201 | the loop collects exactly the truthy `<field>_id` values |
| BaseExecutor.AttachAll | tortoise/backends/base/executor.py:120-122 | every instance, even one listed twice, gets the attachment computed from its key; nothing else changes |
| BaseExecutor.GroupBy | tortoise/backends/base/executor.py:113-119 | the map built by the loop gives each key its rows in result order, and an absent key none |
| BaseExecutor.RelationMap | tortoise/backends/base/executor.py:181-187 | the map built over the pair set lists each owner's related objects once each |
| BaseExecutor.Executor.PrefetchReverse | tortoise/backends/base/executor.py:100-123 | every instance gets the related rows whose relation field is its id, in result order; an unsaved instance gets none |
| BaseExecutor.Executor.PrefetchManyToMany | tortoise/backends/base/executor.py:176-191 | every instance gets, once each, the related objects paired with its id by the join rows |
| BaseExecutor.Executor.PrefetchDirect | tortoise/backends/base/executor.py:194-209 | with some truthy foreign key, every instance gets the fetched object with its key as id, or `None`; with none, nothing is queried or changed |
| BaseExecutor.Executor.DoPrefetch | tortoise/backends/base/executor.py:223-229 | the strategy follows the relation's kind; only that relation attribute changes |
| BaseExecutor.Executor.PrefetchAll | tortoise/backends/base/executor.py:234-235 | every relation of the set is prefetched as `FieldPrefetched` says; other relation attributes are unchanged |
| BaseExecutor.PrefetchOneMore | tortoise/backends/base/executor.py:234-235 | prefetching one more relation extends the prefetched set without disturbing the others |
| BaseExecutor.Executor.ExecutePrefetchQueries | tortoise/backends/base/executor.py:231-236 | with no instances, or nothing to prefetch, nothing happens; otherwise the queries are merged and every merged relation is prefetched |
| Prefetch.InFilter | tortoise/backends/base/executor.py:109-111 | the `__in` filter keeps exactly the rows whose column is a non-NULL key |
| Prefetch.GroupContents | tortoise/backends/base/executor.py:113-119 | a group holds exactly the rows with that key |
| Prefetch.GroupOfFiltered | tortoise/backends/base/executor.py:109-122 | grouping the filtered rows gives an id of the list all its rows, and any other key nothing |
| Prefetch.GroupAppend | tortoise/backends/base/executor.py:114-119 | grouping distributes over concatenation of result rows |
| Prefetch.IndexById | tortoise/backends/base/executor.py:181 | the id index has exactly the rows' ids as keys, each mapped to a row with that id |
| Prefetch.IndexByIdLastWins | tortoise/backends/base/executor.py:181 | a row with no later row of the same id is the one its id maps to: the last row wins |
| Prefetch.EnumeratesOnceLength | tortoise/backends/base/executor.py:184-187 | an owner's list is as long as its set of related ids |
| Prefetch.FilterKeepsOwnPairs | tortoise/backends/base/executor.py:140 | the backward-key filter keeps all pairs of every owner in the list |
| Prefetch.AddPair | tortoise/backends/base/executor.py:184-187 | appending a new pair's object keeps the owner's list a once-each enumeration and leaves other owners alone |
| Prefetch.PairIdIndexed | tortoise/backends/base/executor.py:187 | every related id of a pair is in the object index, so the lookup cannot fail |
| Prefetch.DirectTarget | tortoise/backends/base/executor.py:203-208 | a direct relation gets the fetched row whose id is the instance's key, or `None` iff the key was not fetched or no row has it |
| Prefetch.FalsyForeignKeyGetsNone | tortoise/backends/base/executor.py:200 | a falsy key, `0` included, gets `None` |
| Paths.JoinSplit | tortoise/backends/base/executor.py:241-249 | joining the split pieces with `__` gives the path back |
| Paths.SplitPiecesHaveNoSep | tortoise/backends/base/executor.py:241 | no split piece contains `__` |
| Paths.PathDecomposes | tortoise/backends/base/executor.py:241-249 | a path is its first segment, then `__` and the forwarded remainder when there is one |
| Sql.ContainsPattern | tortoise/backends/mysql/executor.py:17-18 | `%v%` matches exactly the texts containing `v`, when `v` has no `%`, `_` or `\` |
| Sql.StartsWithPattern | tortoise/backends/mysql/executor.py:21-22 | `v%` matches exactly the texts starting with `v`, when `v` has no `%`, `_` or `\` |
| Sql.EndsWithPattern | tortoise/backends/mysql/executor.py:25-26 | `%v` matches exactly the texts ending with `v`, when `v` has no `%`, `_` or `\` |
| Sql.LiteralPattern | tortoise/backends/mysql/executor.py:17-26 | a pattern without `%`, `_` or `\` matches exactly itself |
| Sql.UpperKeepsWildcards | tortoise/backends/mysql/executor.py:29-44 | upper-casing neither adds nor removes LIKE wildcards or the escape character |
| Sql.UpperConcat | tortoise/backends/mysql/executor.py:29-44 | upper-casing the pattern distributes over its pieces |
| MySQLExecutor.OverrideMeaning | tortoise/backends/mysql/executor.py:17-55 | the table maps exactly the six filters; each override selects exactly the rows its filter describes (case-insensitively for the insensitive ones) when the value has no wildcard and no backslash |
| MySQLExecutor.ValueIsNotEscaped | tortoise/backends/mysql/executor.py:17-22 | the value is spliced unescaped: `%` makes contains match every row, `_` makes starts-with match every non-empty text |
| MySQLExecutor.PrepareInsertStatement | tortoise/backends/mysql/executor.py:58-63 | the statement has the table, the columns in order and one `%s` per column |
| SqliteExecutor.ToDbBool | tortoise/backends/sqlite/executor.py:11-14 | `None` stays `None`; anything else is 1 iff truthy, else 0 |
| SqliteExecutor.RoundHalfEven | tortoise/backends/sqlite/executor.py:24 | the quotient is within half a unit, strictly unless it is a tie, and a tie rounds to even |
| SqliteExecutor.Quantize | tortoise/backends/sqlite/executor.py:20-24 | the result has exponent `-decimal_places`; a value that fits is rescaled exactly |
| SqliteExecutor.Normalize | tortoise/backends/sqlite/executor.py:24 | normalising strips trailing zeros without changing the value; zero becomes `0` |
| SqliteExecutor.ToDbDecimal | tortoise/backends/sqlite/executor.py:17-24 | `None` stays `None`; an unconvertible value raises; a result has at most `decimal_places` fractional digits |
| SqliteExecutor.DecimalKeptWhenItFits | tortoise/backends/sqlite/executor.py:17-24 | a decimal that already fits the scale keeps its value |
| SqliteExecutor.DatetimeCoercion | tortoise/backends/sqlite/executor.py:27-38 | the current time is written back iff `auto_now`, or `auto_now_add` with the attribute unset, and is then what is returned; otherwise a datetime gives its text and anything else `None` |
| SqliteExecutor.AutoNowIgnoresValue | tortoise/backends/sqlite/executor.py:28-31 | with `auto_now` the given value and the current attribute are ignored |
| SqliteExecutor.ToDbDatetime | tortoise/backends/sqlite/executor.py:27-38 | the returned text and the instance's new attribute are those of `DatetimeCoercion` |
| SqliteExecutor.ToDbOverride | tortoise/backends/sqlite/executor.py:42-46 | exactly boolean, decimal and datetime fields have an override |
| SqliteExecutor.PrepareInsertStatement | tortoise/backends/sqlite/executor.py:49-54 | the statement has the table, the columns in order and one `?` per column |
| MySQLClient.ExtraOptions | tortoise/backends/mysql/client.py:91-95 | the extra options are the keyword arguments minus exactly the four reserved keys, values unchanged |
| MySQLClient.TemplateOfFilteredOptions | tortoise/backends/mysql/client.py:91-113 | the template never holds the password; `db` is the database iff `with_db`, else `None`; `autocommit` is on; every extra option is passed through |
| MySQLClient.Retried | tortoise/backends/mysql/client.py:27-53 | a success or a non-retryable failure is returned as is; after a retryable failure (`RuntimeError` or its subclass `NotImplementedError`, pymysql `OperationalError`, `InternalError`, `InterfaceError`) the second call's outcome is returned, whatever it is |
| MySQLClient.Translate | tortoise/backends/mysql/client.py:56-72 | the five listed pymysql errors become `OperationalError` carrying the cause, `IntegrityError` becomes `IntegrityError`, anything else passes unchanged |
| MySQLClient.TranslateIdempotent | tortoise/backends/mysql/client.py:56-72 | translating a translated error changes nothing |
| MySQLClient.TranslatedDriverErrors | tortoise/backends/mysql/client.py:61-70 | after translation the only pymysql errors left are `DatabaseError` and `InterfaceError` |
| MySQLClient.SwallowedAfterTranslation | tortoise/backends/mysql/client.py:139-145 | the DROP failure `db_delete` swallows is only a bare `DatabaseError`; an `OperationalError` escapes translated |
| MySQLClient.RetryTraceCalls | tortoise/backends/mysql/client.py:40-51 | a retry sends exactly two statements: the failed first call and the single repeat |
| MySQLClient.RetryTraceLock | tortoise/backends/mysql/client.py:40-51 | a retry takes and releases the lock once, balanced, with close and reconnect inside it |
| MySQLClient.Client.constructor | tortoise/backends/mysql/client.py:81-99 | the client keeps its parameters and filtered options, with an empty template and no connection |
| MySQLClient.Client.CreateConnection | tortoise/backends/mysql/client.py:105-122 | the template is rebuilt before connecting; a pymysql `OperationalError` becomes `DBConnectionError` carrying the template; other failures propagate and keep the old connection |
| MySQLClient.Client.Close_ | tortoise/backends/mysql/client.py:124-128 | an existing connection is closed and only then is the template cleared; the reference stays |
| MySQLClient.Client.Close | tortoise/backends/mysql/client.py:130-132 | `_close`, then no connection |
| MySQLClient.Client.RetryConnection | tortoise/backends/mysql/client.py:27-53 | returns `Retried`; after a retryable failure it closes, reconnects with the database once (a failure is swallowed and keeps the closed connection), releases the lock and calls once more |
| MySQLClient.Client.Execute | tortoise/backends/mysql/client.py:153-178 | every statement primitive returns the translation of the retried outcome |
| MySQLClient.Client.DbCreate | tortoise/backends/mysql/client.py:134-137 | connect without a database, CREATE, close. A failed connect propagates with the connection as it was; a failed CREATE propagates and leaves the client connected to the connection made (or the reconnected one after a retry), with the event trace of the call; success closes it |
| MySQLClient.Client.DbDelete | tortoise/backends/mysql/client.py:139-145 | connect without a database, DROP swallowing only `Swallowed` failures of the translated outcome, close; a failure that is not swallowed propagates and leaves the client connected, as for `DbCreate` |
| MySQLClient.Client.InTransaction | tortoise/backends/mysql/client.py:150-151 | a fresh, unfinalised wrapper sharing the client's connection name and connection |
| MySQLClient.TransactionWrapper.constructor | tortoise/backends/mysql/client.py:182-189 | a wrapper starts unfinalised with no saved context |
| MySQLClient.TransactionWrapper.Begin | tortoise/backends/mysql/client.py:27-53 | the BEGIN outcome `start` proceeds with is `Retried` of the two attempts; one BEGIN is sent, or two after a retryable failure, which also closes the shared connection; the finalise-once invariant is kept |
| MySQLClient.TransactionWrapper.Start | tortoise/backends/mysql/client.py:191-196 | after BEGIN succeeds, on the first attempt or on the retry, the previous current transaction is saved and this one installed; an unknown name raises `KeyError`; a retryable BEGIN failure closes the shared connection and sends BEGIN again; a failure that stands changes no context |
| MySQLClient.TransactionWrapper.Finish | tortoise/backends/mysql/client.py:198-210 | a finalised transaction is refused; otherwise it is marked finalised before the statement is sent, and the saved context is restored only on success; at most one COMMIT/ROLLBACK is ever sent |
| MySQLClient.TransactionWrapper.Commit | tortoise/backends/mysql/client.py:198-203 | `Finish` with COMMIT: refused once finalised; otherwise finalised before sending; on success the saved transaction is restored, or `KeyError` for an unknown name |
| MySQLClient.TransactionWrapper.Rollback | tortoise/backends/mysql/client.py:205-210 | `Finish` with ROLLBACK: refused once finalised; otherwise finalised before sending; on success the saved transaction is restored, or `KeyError` for an unknown name |
| MySQLClient.StartCommitRollback | tortoise/backends/mysql/client.py:192-210 | start then commit restores the displaced current transaction, and a later rollback is refused |

## Left out

- SQL text: query rendering, `Table`, joins and `get_sql` belong to the pypika query builder and are not modelled. Queries and statements are structured values.
- The many-to-many subquery and join shape, and the extra filters and joins of the related query's Q objects, are not modelled (tortoise/backends/base/executor.py:132-175). The join's result rows are the input.
- Nested prefetching is not modelled:
  - the forwarded prefetches are kept as sets of paths on each relation's query, but the recursive `fetch_for_list` on related objects is not run;
  - `related_query.filter` / `prefetch_related` / `using_db` are the query layer's and not part of this model.
- `self.model(**row)`: a new instance keeps the row's entries for declared fields. Model construction is not part of this model.
- `_make_prefetch_queries` for a relation name missing from `fields_map`: Python would fail on `None.type`. The model does not give that path an error; the related query's base is not represented.
- Network I/O, cursors, `ConnectionWrapper` and aiomysql/pymysql are replaced by outcome parameters. `execute_insert`, `execute_query` and `execute_script` share one model, `Execute`, because they differ only in what the cursor returns.
- The asyncio lock is a flag plus the event trace; other tasks are not modelled.
- Context variables are a map from connection name to the current transaction's identity (`TransactionContext`).
- Logging, `schema_generator`, `Capabilities` and the DDL text of `db_create`/`db_delete` carry no behaviour.
- `execute_update` and `execute_delete` are pure query building over pypika and are not modelled.
- `MySQLClient.TransactionWrapper.Start`: the retry's acquire and release of the lock shared with the client are not modelled. The rest of the retry is: `_close` runs `close()` on the shared connection before it fails on the wrapper's missing `_template`, the failure is swallowed, no reconnect happens, and BEGIN is sent a second time on the closed connection. Its outcome is the parameter `again`.
- `MySQLClient.Client.constructor`: `int(port)` is taken as already done (the port is an `int` parameter). `super().__init__` is reduced to the connection name.
- `SqliteExecutor.ToDbDecimal`: string input is parsed only in plain `digits[.digits]` form with an optional sign. Surrounding whitespace, underscores, exponents, `NaN`/`Infinity`, float input and the context's precision limit are not modelled. The rendering of the result (`str(...normalize())`, e.g. `1E+2`) is not modelled either: the result is the normalised decimal, not its text.
- `datetime.utcnow()` is the parameter `now`, read once per coercion. `str(datetime)` is modelled as the ISO text with microseconds when non-zero.
- `UPPER()` is ASCII upper-casing. Collation and Unicode case mapping are not modelled.
- Iteration order over Python sets and dicts is arbitrary in the model. Every spec is stated for any order, so results agree with Python only up to the order of a many-to-many list.
- Concurrent first population of `INSERT_CACHE` is not modelled: each `ExecuteInsert` runs to completion on its own.
- `BaseExecutor.Coerce`: a field's own `to_db_value` receives the whole instance in the code. The model passes it only the field's own attribute and lets it write back only that attribute. Reads of other attributes and writes to them are not modelled, so `BaseExecutor.InsertValuesUseOriginalAttributes` holds for serialisers of that kind.
- `MySQLExecutor.OverrideMeaning`: a search value containing `\` is not covered. MySQL reads `\` in a LIKE pattern as an escape, and the LIKE model does not interpret escapes.
