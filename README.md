# Bot & Database API — session registry and schema introspection, in Dafny

This project models the core of the FastAPI service in `main_bot.py`. A
caller posts database credentials to `/connectDB`. The service lowercases and
trims `dbtype` and picks one of three connectors: PostgreSQL, MySQL or
MongoDB. The connector reads the catalogue and normalises every column into
one descriptor, `{column_name, data_type, is_nullable, default_value,
max_length}`. Only after the whole read succeeds does the service store the
request and the schema in two in-memory dictionaries, `db_connections` and
`session_schemas`, under the session id `host:port:schema`. Later requests can
replace a session's schema (`/setsessionSchema`), list sessions, read one
session's schema, delete a session, or ask for the health counts.

Modules, leaf to root:

- `values.dfy` (`Values`): `Option`, the `HttpError` every failure becomes, the
  endpoint `Result`, a JSON-like `Value`, and Python dictionaries as ordered
  entry lists. `Assign` is `d[k] = v`: an existing key keeps its place.
- `decimal.dfy` (`Decimal`): `str()` of an integer, used for the port in the
  session id and for the index in validation messages.
- `text.dfy` (`Text`): `str.lower()` and `str.strip()`.
- `columns.dfy` (`Columns`): the column descriptor, the relational row
  normalisation and the MongoDB sample normalisation.
- `schemacheck.dfy` (`SchemaCheck`): the shape check of `set_session_schema`,
  as a method with the source's nested early-return loops and the recursive
  function it is proved against.
- `backends.dfy` (`Backends`): the three connectors. The driver is a server
  value that answers each query with rows or with an exception. `Gather` is
  the loop that fills `table_info`. Each connector is a method with loops,
  proved equal to its specification function.
- `dispatch.dfy` (`Dispatch`): the request, `dbtype` selection, mapping of
  exceptions to HTTP errors, and the session id.
- `registry.dfy` (`Registry`): the class `SessionRegistry`. It has the two
  dictionaries as `map` fields, plus `order`, the key order of
  `db_connections` that `/sessions` lists. Its methods are the mutating
  endpoints; its functions are the read-only ones.

Three consequences of the code are worth stating:

- `is_nullable` is the catalogue's `YES`/`NO` text, copied as it is
  (main_bot.py:185, 259). MongoDB samples always get `"YES"`
  (main_bot.py:316).
- Only the driver's own exception type gets the backend prefix
  (main_bot.py:203-206, 277-280). Any other exception from the PostgreSQL or
  MySQL connector reaches `connect_database` and becomes `Database connection
  failed: …` (main_bot.py:122-124). A refused socket under asyncpg is one
  example. MongoDB reports every exception as `MongoDB connection error: …`
  (main_bot.py:338-341).
- The PostgreSQL result is nested one level deeper than the other two:
  `table_info[schema_name][table_name]` (main_bot.py:164, 181). The value
  under each schema is a dictionary, not a list, so the handler of
  `/setsessionSchema` refuses it at its list check (main_bot.py:357-358;
  `PostgresInfoRejectedAsOverride`). MySQL and MongoDB results pass
  (`MysqlInfoIsValidOverride`, `MongoInfoIsValidOverride`). In the running
  service, FastAPI first validates the body against its declared type
  `Dict[str, List[Dict[str, Any]]]` (main_bot.py:348). A table value that is
  not a list, or an entry that is not a dictionary, is answered with 422
  before the handler runs. So the handler's 400s for those two cases
  (main_bot.py:358, 362), the PostgreSQL refusal among them, are never sent
  by the running service. A dictionary entry without `column_name` does pass
  that check, so the 400 of main_bot.py:364 is the one the service can send.
  The model states what the handler itself does.

## Model

| member | source | states |
|---|---|---|
| `Values.Assign` | main_bot.py:322-326 | `d[k] = v` on a dict: the keys stay the same if `k` was present, else `k` is appended; `k` now maps to `v`; every other key keeps its value |
| `Decimal.NatToString` | main_bot.py:193 | the port's spelling is a non-empty run of decimal digits, with at least two digits from 10 on, and it starts with `0` only for zero (no leading zeros) |
| `Decimal.NatToStringValue` | main_bot.py:193 | the digits spell the number: read back left to right, they give `n` |
| `Decimal.IntToString` | main_bot.py:193 | definition of `str()` of an integer, with a `-` for a negative one; its properties are proved in `Decimal.IntToStringInjective` and `Decimal.IntToStringAlphabet` |
| `Decimal.IntToStringInjective` | main_bot.py:193 | different ports have different spellings in the session id |
| `Text.Lower` | main_bot.py:105 | `lower()` keeps the length, turns each upper-case ASCII letter into the letter 32 code points on (its lower-case form), and changes no other character |
| `Text.Strip` | main_bot.py:105 | definition of `strip()`; its properties are proved in `Text.StripSpec` and `Text.StripIgnoresPadding` |
| `Text.IsSpace` | main_bot.py:105 | definition of the characters Python's `str.strip()` removes (`str.isspace`); its properties are proved in `Text.StripSpec` and `Text.StripIgnoresPadding` |
| `Text.StripSpec` | main_bot.py:105 | `strip()` returns the part of its input between a leading and a trailing run of white space, and that part neither starts nor ends with white space |
| `Text.StripIgnoresPadding` | main_bot.py:105 | white space added on either side does not change what `strip()` returns |
| `Dispatch.NormalizeDbType` | main_bot.py:105 | definition of `dbtype.lower().strip()`; its properties are proved in `Dispatch.SelectIgnoresCase`, `Dispatch.SelectIgnoresLetterCase` and `Dispatch.SelectIgnoresPadding` |
| `Dispatch.SelectDbType` | main_bot.py:105-113 | a connector is selected exactly when the lowercased, trimmed `dbtype` is its name; no name means no connector |
| `Dispatch.Introspect` | main_bot.py:104-124 | definition of the schema `connect_database` obtains, or its error; its properties are proved in `Dispatch.UnsupportedTypeRejected`, `Dispatch.IntrospectStatus` and `Dispatch.RunConnector` |
| `Dispatch.PostgresFailure` | main_bot.py:203-206 | definition of the error a PostgreSQL exception becomes: `PostgreSQL error: …` for a driver error, otherwise `connect_database`'s fallback of main_bot.py:122-124; its status is proved in `Dispatch.IntrospectStatus` |
| `Dispatch.MysqlFailure` | main_bot.py:277-280 | definition of the error a MySQL exception becomes: `MySQL error: …` for a driver error, otherwise `connect_database`'s fallback of main_bot.py:122-124; its status is proved in `Dispatch.IntrospectStatus` |
| `Dispatch.MongoFailure` | main_bot.py:338-341 | definition of the error every MongoDB exception becomes, `MongoDB connection error: …`; its status is proved in `Dispatch.IntrospectStatus` |
| `Dispatch.UnsupportedType` | main_bot.py:116-119 | definition of the 400 for an unknown `dbtype`, quoting the type as sent; its properties are proved in `Dispatch.UnsupportedTypeRejected` and `Dispatch.IntrospectStatus` |
| `Dispatch.RunConnector` | main_bot.py:104-124 | running the selected connector ends in exactly the introspection outcome: the uncased, trimmed type picks the connector, an unknown type is that 400, and a connector's exception becomes its backend's 500 |
| `Dispatch.SelectsByName` | main_bot.py:108-113 | `postgresql`, `mysql` and `mongodb` each select their own connector |
| `Dispatch.SelectIgnoresCase` | main_bot.py:105 | lowercasing `dbtype` first never changes the selection |
| `Dispatch.SelectIgnoresLetterCase` | main_bot.py:105 | two types that differ only in the case of their ASCII letters select the same connector |
| `Dispatch.SelectIgnoresPadding` | main_bot.py:105 | white space around `dbtype` never changes the selection |
| `Dispatch.UnsupportedTypeRejected` | main_bot.py:114-119 | an unsupported type is a 400 whose text names the type as sent and lists the three supported ones; the outcome is the same whatever the servers would answer, so no connector runs |
| `Dispatch.IntrospectStatus` | main_bot.py:114-124 | a failed connect is a 400 exactly when the type is unsupported, and a 500 otherwise |
| `Dispatch.SessionId` | main_bot.py:193 | definition of the session id `host:port:schema`, the same in all three connectors (main_bot.py:267, 328); its properties are proved in `Dispatch.SessionIdInjective` and `Dispatch.SessionIdCollision` |
| `Dispatch.SessionIdInjective` | main_bot.py:193 | when the host has no colon, two requests get the same session id exactly when host, port and schema agree, whatever their credentials |
| `Dispatch.SessionIdCollision` | main_bot.py:193 | a colon in the host lets two different (host, port, schema) triples share a session id |
| `Columns.NormalizeRow` | main_bot.py:182-188 | definition of one row's descriptor; its properties are proved in `Columns.NormalizeRowFields` and `Columns.NormalizeRowForgetsOnlyFalsyDefaults` |
| `Columns.NormalizeDefault` | main_bot.py:186 | definition of `str(default) if default else None`, the same in the MySQL connector (main_bot.py:260); its properties are proved in `Columns.NormalizeRowFields` and `Columns.NormalizeRowForgetsOnlyFalsyDefaults` |
| `Columns.NormalizeRows` | main_bot.py:181-190 | one descriptor per fetched row, same count and same order |
| `Columns.NormalizeRowFields` | main_bot.py:255-264 | name, type, nullability and length are copied; the default is kept exactly when it is truthy, and is then unchanged |
| `Columns.NormalizeRowForgetsOnlyFalsyDefaults` | main_bot.py:186 | two rows give the same descriptor exactly when they agree on everything except a default that is falsy in both |
| `Columns.FieldColumn` | main_bot.py:313-319 | definition of the column of one sampled document key; its properties are proved in `Columns.FieldColumns` and `Columns.SampleColumns` |
| `Columns.FieldColumns` | main_bot.py:312-321 | one column per document key, in document order, each with the key, the value's type name, `YES`, and no default or length |
| `Columns.SampleColumns` | main_bot.py:309-326 | no sample gives `[]`; a sample gives one column per key in order, typed by its value's type name, nullable `YES`, no default, no length |
| `Columns.ColumnValue` | main_bot.py:182-188 | definition of the five-key dictionary a descriptor is stored and returned as; its properties are proved in `Columns.ColumnValueRoundTrip` and `SchemaCheck.ColumnsValueIsValidTable` |
| `Columns.ColumnsValue` | main_bot.py:181-190 | definition of a table's column list as a JSON list of descriptor dictionaries; its properties are proved in `SchemaCheck.ColumnsValueIsValidTable` and the `Backends.…Shape` lemmas |
| `Columns.ColumnValueRoundTrip` | main_bot.py:182-188 | the five-key dictionary a descriptor is returned as decodes back to the same descriptor |
| `SchemaCheck.SchemaError` | main_bot.py:356-364 | definition of the first error of a payload, in iteration order, from a given table on; its properties are proved in `SchemaCheck.SchemaErrorSpec` |
| `SchemaCheck.NotAList` | main_bot.py:358 | definition of the 400 for a table value that is not a list; its use is proved in `SchemaCheck.TableErrorSpec` and `Registry.PostgresInfoRejectedAsOverride` |
| `SchemaCheck.NotADict` | main_bot.py:362 | definition of the 400 for a column entry that is not a dictionary, naming its index and table; its use is proved in `SchemaCheck.TableErrorSpec` |
| `SchemaCheck.NoColumnName` | main_bot.py:364 | definition of the 400 for a dictionary entry without `column_name`, naming its index and table; its use is proved in `SchemaCheck.TableErrorSpec` |
| `SchemaCheck.ColumnError` | main_bot.py:361-364 | definition of the error of one column entry; its properties are proved in `SchemaCheck.TableErrorSpec` |
| `SchemaCheck.ItemsError` | main_bot.py:360-364 | definition of the first error among a table's entries from a given index on; its properties are proved in `SchemaCheck.TableErrorSpec` |
| `SchemaCheck.TableError` | main_bot.py:357-364 | definition of the error of one table value; its properties are proved in `SchemaCheck.TableErrorSpec` |
| `SchemaCheck.ValidateSchema` | main_bot.py:356-364 | the nested loops that stop at the first offending entry return exactly the error of the first malformed entry, or none |
| `SchemaCheck.TableErrorSpec` | main_bot.py:357-364 | a table value passes exactly when it is a list of dictionaries that all have `column_name`; a non-list is a 400 naming the table; otherwise the first bad entry decides a 400 naming the table and that index |
| `SchemaCheck.SchemaErrorSpec` | main_bot.py:356-364 | a payload passes exactly when every table passes; otherwise the first offending table, in iteration order, decides the error, which is a 400 |
| `SchemaCheck.ColumnsValueIsValidTable` | main_bot.py:356-364 | every column list a connector produces passes the table check |
| `Backends.UserSchemas` | main_bot.py:142-148 | the schema list holds exactly the fetched names other than `pg_catalog` and `information_schema`, and is never longer |
| `Backends.UserSchemasSingle` | main_bot.py:145 | one name survives the filter exactly when it is not a system schema |
| `Backends.UserSchemasAppend` | main_bot.py:142-148 | the filter works name by name: filtering a concatenation concatenates the filtered parts, so the kept names keep the order they were fetched in |
| `Backends.Gather` | main_bot.py:151-190 | definition of a catalogue walk that assigns `table_info[name]` for each name in order and stops at the first exception; its properties are proved in the `Backends.Gather…` lemmas |
| `Backends.ColumnsStep` | main_bot.py:165-190 | definition of the per-table loop body of both relational connectors: fetch the table's rows and normalise them (also main_bot.py:241-264); its properties are proved in `Backends.PostgresShape` and `Backends.MysqlShape` |
| `Backends.PgSchemaStep` | main_bot.py:153-190 | definition of the per-schema loop body of `connect_postgresql`: list the schema's tables, then walk them; its properties are proved in `Backends.PostgresShape` |
| `Backends.SampleStep` | main_bot.py:305-326 | definition of the per-collection loop body of `connect_mongodb`: sample one document and derive its columns; its properties are proved in `Backends.MongoShape` |
| `Backends.GatherSucceeds` | main_bot.py:305-326 | a catalogue walk succeeds exactly when every per-object fetch succeeds |
| `Backends.GatherStopsAt` | main_bot.py:236-280 | the first fetch that raises decides the walk's exception, and nothing fetched before it survives |
| `Backends.GatherFailurePersists` | main_bot.py:153-206 | an exception raised partway is the exception of the whole walk |
| `Backends.GatherExtends` | main_bot.py:255-264 | one more successful fetch assigns its value under its name |
| `Backends.GatherContents` | main_bot.py:236-265 | a successful walk holds each visited name once, each with its fetch's value, and nothing else |
| `Backends.GatherKeysInOrder` | main_bot.py:153-164 | when no name repeats, the result's keys are the visited names in visiting order |
| `Backends.GatherEntries` | main_bot.py:305-322 | every entry of a successful walk is a visited name with its fetch's value |
| `Backends.GatherTables` | main_bot.py:165-191 | the column loop of a relational connector returns exactly the walk's specified outcome |
| `Backends.IntrospectPostgres` | main_bot.py:126-201 | `connect_postgresql`'s loops, up to the registry write, return exactly `PostgresMetadata` |
| `Backends.IntrospectMysql` | main_bot.py:212-275 | `connect_mysql`'s loops, up to the registry write, return exactly `MysqlMetadata` |
| `Backends.IntrospectMongo` | main_bot.py:286-336 | `connect_mongodb`'s loop, up to the registry write, returns exactly `MongoMetadata` |
| `Backends.PostgresMetadata` | main_bot.py:131-190 | definition of what `connect_postgresql` obtains from a server; its properties are proved in `Backends.PostgresShape` and `Backends.IntrospectPostgres` |
| `Backends.MysqlMetadata` | main_bot.py:217-264 | definition of what `connect_mysql` obtains from a server; its properties are proved in `Backends.MysqlShape`, `Backends.MysqlFails` and `Backends.IntrospectMysql` |
| `Backends.MongoMetadata` | main_bot.py:291-326 | definition of what `connect_mongodb` obtains from a server; its properties are proved in `Backends.MongoShape` and `Backends.IntrospectMongo` |
| `Backends.PostgresShape` | main_bot.py:151-190 | a successful PostgreSQL result nests schema, table, columns; it holds exactly the non-catalogue schemas and, under each, exactly its tables with their rows normalised in order; with no repeated names, the keys follow the fetch order |
| `Backends.MysqlShape` | main_bot.py:227-265 | a successful MySQL result holds exactly the tables `SHOW TABLES` listed (in its order when no name repeats), each with its rows normalised in order |
| `Backends.MongoShape` | main_bot.py:300-326 | a successful MongoDB result holds exactly the listed collections, each with the columns of its sample document |
| `Backends.MysqlFails` | main_bot.py:217-253 | a MySQL connect fails exactly when the connection, the table listing or one table's column query raises |
| `Registry.Without` | main_bot.py:423 | deleting a key removes exactly that key from the key order and keeps the order free of duplicates |
| `Registry.WithoutAppend` | main_bot.py:423 | deletion works key by key: deleting from a concatenation concatenates what is left of each part, so the remaining keys keep their insertion order |
| `Registry.WithoutSingle` | main_bot.py:423 | one key is dropped exactly when it is the deleted one |
| `Registry.WithoutAbsent` | main_bot.py:423 | deleting a key that is not there leaves the key order unchanged |
| `Registry.WithoutMiddle` | main_bot.py:423 | deleting a key that occurs once leaves the keys before it followed by the keys after it, in their order |
| `Registry.MysqlInfoIsValidOverride` | main_bot.py:255-264 | a MySQL `schema_info` posted back to `/setsessionSchema` passes its validation |
| `Registry.MongoInfoIsValidOverride` | main_bot.py:312-326 | a MongoDB `schema_info` posted back to `/setsessionSchema` passes its validation |
| `Registry.PostgresInfoRejectedAsOverride` | main_bot.py:164 | a PostgreSQL `schema_info` that holds a schema is refused with a 400 naming the first schema |
| `Registry.ConnectOutcome` | main_bot.py:193-201 | definition of the response of `POST /connectDB`: the introspected schema with status and session id, or its error; the registry update it goes with is stated by `Registry.SessionRegistry.Connect` |
| `Registry.SessionRegistry.constructor` | main_bot.py:45-47 | the registry starts with both dictionaries empty, so the registry invariant holds: the key order lists each session once and both dictionaries have the same keys |
| `Registry.SessionRegistry.Connect` | main_bot.py:102-124 | the outcome is the selected connector's; on failure nothing changes; on success both dictionaries are upserted under `host:port:schema` (overwriting, the key keeping its place) and every other session reads as before; the two dictionaries keep the same keys |
| `Registry.SessionRegistry.SetSessionSchema` | main_bot.py:347-374 | unknown id gives 404; malformed payload gives the first offender's 400; in both cases nothing changes; otherwise the schema becomes exactly the payload, with no merge, no other session changes, and `tables` lists the payload's keys |
| `Registry.SessionRegistry.ActiveSessions` | main_bot.py:383-398 | lists every session once, in insertion order, one detail per session taken from its stored request; every `has_schema_defined` is true |
| `Registry.SessionRegistry.GetSessionSchema` | main_bot.py:400-416 | 404 when the session or its schema is missing; otherwise the stored schema with `dbtype`, `host` and `schema` and no credentials; when the registry invariant holds, it succeeds exactly for known sessions |
| `Registry.SessionRegistry.DeleteSession` | main_bot.py:418-432 | unknown id gives 404 and nothing changes; otherwise the id leaves both dictionaries and the key order; afterwards getting its schema is a 404, and every other session reads as before |
| `Registry.SessionRegistry.Health` | main_bot.py:434-441 | `active_sessions` and `configured_schemas` are the sizes of the two dictionaries, `supported_databases` lists the three names, and the two counts are equal |

## Left out

- Database access. `asyncpg.connect`, `aiomysql.connect`, `AsyncIOMotorClient`, the SQL and `SHOW TABLES` queries, `find_one` and `server_info` are network calls into foreign libraries. Each one is a field of a server value that gives the fetched rows or the exception.
- Closing the connection in the `finally` blocks (main_bot.py:207-210, 281-284, 342-345). This is resource handling on foreign objects. It runs on every exit path once `conn` or `client` has been set (`if conn:`). It changes no response unless the close itself raises. Then the session has already been stored (main_bot.py:194-195, 268-269, 329-330), but the exception replaces the return value and the caller gets a 500 `Database connection failed: …` (main_bot.py:122-124). The model assumes a close never raises, so `Registry.SessionRegistry.Connect` stores a session exactly when its response is a success.
- `async`/`await` and concurrent requests. The registry is single-threaded.
- FastAPI routing, request-body validation by pydantic, CORS, the JSON error envelopes (main_bot.py:50-63), logging and uvicorn startup. The handler of `/setsessionSchema` is modelled with its own checks on a dynamically shaped payload. FastAPI's declared body type rejects ill-shaped payloads with a 422 before the handler runs (main_bot.py:348).
- `get_bots_info`, `root`, `example_connect_db` and `example_set_session_schema`. They return constants and contain no logic.
- `type(value).__name__`. Each sampled value is a type-name string.
- `Text.Lower`: the model lowercases only the ASCII letters, not all of Unicode. No non-ASCII character lowercases into one of the three supported names, so the selection stays the same.
- Floating-point JSON numbers are not part of `Value`.
- The generic `except Exception` of `set_session_schema` (main_bot.py:378-381). Nothing in the modelled handler raises, so that path cannot happen in the model.
- `list(table.values())[0]` of each `SHOW TABLES` row. The server gives the table names directly.
- The `default_value` stringification `str(d)`. The catalogue's default is text, so `str` is the identity, and the model treats a default as an optional string.
