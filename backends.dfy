/**
 * The three connectors, with the database driver left abstract: each query a
 * connector sends is answered by a server value with what the driver would
 * return, or with the exception it would raise. A connector walks the
 * catalogue in order, normalises what it fetches into the `table_info`
 * dictionary, and gives up at the first exception; nothing it fetched before
 * that survives.
 */
module Backends {
  import opened Values
  import opened Columns

  /**
   * An exception from a driver call. `DriverError` is the driver's own error
   * class (`asyncpg.PostgresError`, `aiomysql.Error`); `OtherError` is any
   * other exception, such as a refused socket.
   */
  datatype BackendError = DriverError(message: string) | OtherError(message: string)

  /** The outcome of one driver call. */
  datatype Fetch<+T> = Fetched(value: T) | Raised(error: BackendError)

  /** The answers of a PostgreSQL server to the queries of `connect_postgresql`. */
  datatype PgServer = PgServer(
    connect: Fetch<()>,                                  // asyncpg.connect
    schemata: Fetch<seq<string>>,                        // every row of information_schema.schemata
    tables: string -> Fetch<seq<string>>,                // base tables of one schema
    columns: (string, string) -> Fetch<seq<ColumnRow>>)  // columns of (schema, table)

  /** The answers of a MySQL server to the queries of `connect_mysql`. */
  datatype MysqlServer = MysqlServer(
    connect: Fetch<()>,                                  // aiomysql.connect
    showTables: Fetch<seq<string>>,                      // first value of each SHOW TABLES row
    columns: (string, string) -> Fetch<seq<ColumnRow>>)  // columns of (database, table)

  /** The answers of a MongoDB server to the calls of `connect_mongodb`. */
  datatype MongoServer = MongoServer(
    serverInfo: Fetch<()>,                               // client creation and server_info()
    collections: Fetch<seq<string>>,                     // list_collection_names()
    findOne: string -> Fetch<Option<seq<Field>>>)        // find_one() on a collection

  /** The two catalogue namespaces the schema query excludes. */
  predicate IsSystemSchema(name: string)
  {
    name == "pg_catalog" || name == "information_schema"
  }

  /** `WHERE schema_name NOT IN ('pg_catalog', 'information_schema')`. */
  function UserSchemas(names: seq<string>): (r: seq<string>)
    ensures |r| <= |names|
    ensures forall x :: x in r <==> x in names && !IsSystemSchema(x)
  {
    if names == [] then []
    else (if IsSystemSchema(names[0]) then [] else [names[0]]) + UserSchemas(names[1..])
  }

  /** A catalogue name survives the filter on its own exactly when it is not a system schema. */
  lemma UserSchemasSingle(x: string)
    ensures UserSchemas([x]) == if IsSystemSchema(x) then [] else [x]
  {
    assert [x][1..] == [];
  }

  /** The filter works name by name and keeps the fetch order. */
  lemma {:induction false} UserSchemasAppend(a: seq<string>, b: seq<string>)
    ensures UserSchemas(a + b) == UserSchemas(a) + UserSchemas(b)
    decreases |a|
  {
    if a != [] {
      assert (a + b)[0] == a[0] && (a + b)[1..] == a[1..] + b;
      UserSchemasAppend(a[1..], b);
    } else {
      assert a + b == b;
    }
  }

  /**
   * The loop that visits `names` in order, runs `step` on each and assigns
   * `table_info[name]` from its result; the first exception ends it.
   */
  function Gather(names: seq<string>, step: string -> Fetch<Value>): Fetch<seq<(string, Value)>>
    decreases |names|
  {
    if names == [] then Fetched([])
    else
      var prev := Gather(names[..|names| - 1], step);
      var last := names[|names| - 1];
      if prev.Raised? then prev
      else if step(last).Raised? then Raised(step(last).error)
      else Fetched(Assign(prev.value, last, step(last).value))
  }

  /** The per-table step of both relational connectors: fetch the rows, normalise them. */
  function ColumnsStep(columns: (string, string) -> Fetch<seq<ColumnRow>>, schema: string): string -> Fetch<Value>
  {
    table =>
      match columns(schema, table)
      case Raised(e) => Raised(e)
      case Fetched(rows) => Fetched(ColumnsValue(NormalizeRows(rows)))
  }

  /** The per-schema step of PostgreSQL: list the schema's tables, then gather their columns. */
  function PgSchemaStep(srv: PgServer): string -> Fetch<Value>
  {
    schema =>
      match srv.tables(schema)
      case Raised(e) => Raised(e)
      case Fetched(names) =>
        match Gather(names, ColumnsStep(srv.columns, schema))
        case Raised(e) => Raised(e)
        case Fetched(d) => Fetched(Dict(d))
  }

  /** The per-collection step of MongoDB: sample one document, derive its columns. */
  function SampleStep(findOne: string -> Fetch<Option<seq<Field>>>): string -> Fetch<Value>
  {
    collection =>
      match findOne(collection)
      case Raised(e) => Raised(e)
      case Fetched(sample) => Fetched(ColumnsValue(SampleColumns(sample)))
  }

  function AsDict(f: Fetch<seq<(string, Value)>>): Fetch<Value>
  {
    match f
    case Raised(e) => Raised(e)
    case Fetched(d) => Fetched(Dict(d))
  }

  /** What `connect_postgresql` builds: schema -> table -> columns. */
  function PostgresMetadata(srv: PgServer): Fetch<Value>
  {
    if srv.connect.Raised? then Raised(srv.connect.error)
    else if srv.schemata.Raised? then Raised(srv.schemata.error)
    else AsDict(Gather(UserSchemas(srv.schemata.value), PgSchemaStep(srv)))
  }

  /** What `connect_mysql` builds for database `schema`: table -> columns. */
  function MysqlMetadata(srv: MysqlServer, schema: string): Fetch<Value>
  {
    if srv.connect.Raised? then Raised(srv.connect.error)
    else if srv.showTables.Raised? then Raised(srv.showTables.error)
    else AsDict(Gather(srv.showTables.value, ColumnsStep(srv.columns, schema)))
  }

  /** What `connect_mongodb` builds: collection -> columns of its sample. */
  function MongoMetadata(srv: MongoServer): Fetch<Value>
  {
    if srv.serverInfo.Raised? then Raised(srv.serverInfo.error)
    else if srv.collections.Raised? then Raised(srv.collections.error)
    else AsDict(Gather(srv.collections.value, SampleStep(srv.findOne)))
  }

  // ---------------------------------------------------------------------
  // Properties of the gathering loop

  /** The loop succeeds exactly when every step does. */
  lemma {:induction false} GatherSucceeds(names: seq<string>, step: string -> Fetch<Value>)
    ensures Gather(names, step).Fetched? <==> forall n :: n in names ==> step(n).Fetched?
    decreases |names|
  {
    if names != [] {
      var front, last := names[..|names| - 1], names[|names| - 1];
      assert names == front + [last];
      GatherSucceeds(front, step);
      assert forall n :: n in names <==> n in front || n == last;
    }
  }

  /** A failure reported by a shorter run is the failure of the whole run. */
  lemma {:induction false} GatherFailurePersists(names: seq<string>, n: nat, step: string -> Fetch<Value>)
    requires n <= |names| && Gather(names[..n], step).Raised?
    ensures Gather(names, step) == Gather(names[..n], step)
    decreases |names| - n
  {
    if n < |names| {
      var front := names[..|names| - 1];
      assert front[..n] == names[..n];
      GatherFailurePersists(front, n, step);
    } else {
      assert names[..n] == names;
    }
  }

  /**
   * The first step that raises decides the loop's exception; the steps before
   * it ran, everything they produced is dropped.
   */
  lemma GatherStopsAt(names: seq<string>, i: nat, step: string -> Fetch<Value>)
    requires i < |names| && Gather(names[..i], step).Fetched? && step(names[i]).Raised?
    ensures Gather(names, step) == Raised(step(names[i]).error)
  {
    assert names[..i + 1][..i] == names[..i];
    GatherFailurePersists(names, i + 1, step);
  }

  /** One more successful step assigns its value under its name. */
  lemma GatherExtends(names: seq<string>, i: nat, step: string -> Fetch<Value>)
    requires i < |names| && Gather(names[..i], step).Fetched? && step(names[i]).Fetched?
    ensures Gather(names[..i + 1], step)
         == Fetched(Assign(Gather(names[..i], step).value, names[i], step(names[i]).value))
  {
    assert names[..i + 1][..i] == names[..i];
  }

  /** The names of a walk are those of its shorter run and the last one. */
  lemma FrontMembers(names: seq<string>)
    requires names != []
    ensures forall k :: k in names <==> k in names[..|names| - 1] || k == names[|names| - 1]
  {
    assert names == names[..|names| - 1] + [names[|names| - 1]];
  }

  /**
   * A successful run holds every visited name once, each with its step's
   * value, and nothing else.
   */
  lemma {:induction false} GatherContents(names: seq<string>, step: string -> Fetch<Value>)
    requires Gather(names, step).Fetched?
    ensures var d := Gather(names, step).value;
      && Distinct(Keys(d))
      && (forall k :: k in Keys(d) <==> k in names)
      && (forall k :: k in names ==> step(k).Fetched? && Lookup(d, k) == Some(step(k).value))
    decreases |names|
  {
    if names != [] {
      var front := names[..|names| - 1];
      var last := names[|names| - 1];
      FrontMembers(names);
      var prev := Gather(front, step);
      assert prev.Fetched? && step(last).Fetched?;
      var d := Assign(prev.value, last, step(last).value);
      assert Gather(names, step).value == d;
      GatherContents(front, step);
      AssignKeepsDistinct(prev.value, last, step(last).value);
    }
  }

  /** Every entry of a successful run is a visited name with its step's value. */
  lemma {:induction false} GatherEntries(names: seq<string>, step: string -> Fetch<Value>)
    requires Gather(names, step).Fetched?
    ensures forall e :: e in Gather(names, step).value ==>
      e.0 in names && step(e.0).Fetched? && e.1 == step(e.0).value
    decreases |names|
  {
    if names != [] {
      var front := names[..|names| - 1];
      var last := names[|names| - 1];
      var prev := Gather(front, step);
      assert prev.Fetched? && step(last).Fetched?;
      assert Gather(names, step).value == Assign(prev.value, last, step(last).value);
      GatherEntries(front, step);
      AssignEntries(prev.value, last, step(last).value);
      forall e | e in Gather(names, step).value
        ensures e.0 in names && step(e.0).Fetched? && e.1 == step(e.0).value
      {
        if e in prev.value {
          var k :| 0 <= k < |front| && front[k] == e.0;
          assert names[k] == e.0;
        }
      }
    }
  }

  /** The keys after one more successful step: the name is appended unless already present. */
  lemma GatherLastKeys(names: seq<string>, step: string -> Fetch<Value>)
    requires names != [] && Gather(names, step).Fetched?
    ensures var front, last := names[..|names| - 1], names[|names| - 1];
      && Gather(front, step).Fetched?
      && Keys(Gather(names, step).value)
         == if last in Keys(Gather(front, step).value) then Keys(Gather(front, step).value)
            else Keys(Gather(front, step).value) + [last]
  {
  }

  /** Without repeats, the shorter run has none either and does not contain the last name. */
  lemma DistinctFront(names: seq<string>)
    requires names != [] && Distinct(names)
    ensures Distinct(names[..|names| - 1]) && names[|names| - 1] !in names[..|names| - 1]
  {
    var front, last := names[..|names| - 1], names[|names| - 1];
    forall i, j | 0 <= i < j < |front| ensures front[i] != front[j] {
      assert front[i] == names[i] && front[j] == names[j];
    }
    forall k | 0 <= k < |front| ensures front[k] != last {
      assert front[k] == names[k];
    }
  }

  /** When no name repeats, the dictionary's keys are the names in visiting order. */
  lemma {:induction false} GatherKeysInOrder(names: seq<string>, step: string -> Fetch<Value>)
    requires Gather(names, step).Fetched? && Distinct(names)
    ensures Keys(Gather(names, step).value) == names
    decreases |names|
  {
    if names != [] {
      var front := names[..|names| - 1];
      var last := names[|names| - 1];
      GatherLastKeys(names, step);
      DistinctFront(names);
      GatherKeysInOrder(front, step);
      assert names == front + [last];
    }
  }

  // ---------------------------------------------------------------------
  // What a successful connector run returns

  /**
   * A successful PostgreSQL run is nested schema -> table -> columns: it
   * holds exactly the schemas other than the two catalogue namespaces, each
   * holds exactly its base tables, and each table holds its rows normalised
   * in order.
   */
  lemma PostgresShape(srv: PgServer, schema: string, table: string)
    requires PostgresMetadata(srv).Fetched?
    ensures srv.schemata.Fetched? && PostgresMetadata(srv).value.Dict?
    ensures var top := PostgresMetadata(srv).value.entries;
      && (Lookup(top, schema).Some? <==> schema in srv.schemata.value && !IsSystemSchema(schema))
      && (Distinct(UserSchemas(srv.schemata.value)) ==> Keys(top) == UserSchemas(srv.schemata.value))
    ensures var top := PostgresMetadata(srv).value.entries;
      Lookup(top, schema).Some? ==>
        && srv.tables(schema).Fetched?
        && Lookup(top, schema).value.Dict?
        && var inner := Lookup(top, schema).value.entries;
           && (Lookup(inner, table).Some? <==> table in srv.tables(schema).value)
           && (Distinct(srv.tables(schema).value) ==> Keys(inner) == srv.tables(schema).value)
           && (table in srv.tables(schema).value ==>
                 && srv.columns(schema, table).Fetched?
                 && Lookup(inner, table) == Some(ColumnsValue(NormalizeRows(srv.columns(schema, table).value))))
  {
    var names := UserSchemas(srv.schemata.value);
    var top := Gather(names, PgSchemaStep(srv)).value;
    GatherContents(names, PgSchemaStep(srv));
    LookupFound(top, schema);
    if Distinct(names) {
      GatherKeysInOrder(names, PgSchemaStep(srv));
    }
    if schema in names {
      var tables := srv.tables(schema).value;
      var step := ColumnsStep(srv.columns, schema);
      var inner := Gather(tables, step).value;
      assert Lookup(top, schema) == Some(Dict(inner));
      GatherContents(tables, step);
      LookupFound(inner, table);
      if Distinct(tables) {
        GatherKeysInOrder(tables, step);
      }
    }
  }

  /**
   * A successful MySQL run holds exactly the tables `SHOW TABLES` listed, in
   * its order when no name repeats, each with its rows normalised in order.
   */
  lemma MysqlShape(srv: MysqlServer, schema: string, table: string)
    requires MysqlMetadata(srv, schema).Fetched?
    ensures srv.showTables.Fetched? && MysqlMetadata(srv, schema).value.Dict?
    ensures var d := MysqlMetadata(srv, schema).value.entries;
      && (Lookup(d, table).Some? <==> table in srv.showTables.value)
      && (Distinct(srv.showTables.value) ==> Keys(d) == srv.showTables.value)
      && (table in srv.showTables.value ==>
            && srv.columns(schema, table).Fetched?
            && Lookup(d, table) == Some(ColumnsValue(NormalizeRows(srv.columns(schema, table).value))))
  {
    var step := ColumnsStep(srv.columns, schema);
    var d := Gather(srv.showTables.value, step).value;
    GatherContents(srv.showTables.value, step);
    LookupFound(d, table);
    if Distinct(srv.showTables.value) {
      GatherKeysInOrder(srv.showTables.value, step);
    }
  }

  /**
   * A successful MongoDB run holds exactly the listed collections, each with
   * the columns derived from its sample document (an empty list when it has
   * none).
   */
  lemma MongoShape(srv: MongoServer, collection: string)
    requires MongoMetadata(srv).Fetched?
    ensures srv.collections.Fetched? && MongoMetadata(srv).value.Dict?
    ensures var d := MongoMetadata(srv).value.entries;
      && (Lookup(d, collection).Some? <==> collection in srv.collections.value)
      && (Distinct(srv.collections.value) ==> Keys(d) == srv.collections.value)
      && (collection in srv.collections.value ==>
            && srv.findOne(collection).Fetched?
            && Lookup(d, collection) == Some(ColumnsValue(SampleColumns(srv.findOne(collection).value))))
  {
    var step := SampleStep(srv.findOne);
    var d := Gather(srv.collections.value, step).value;
    GatherContents(srv.collections.value, step);
    LookupFound(d, collection);
    if Distinct(srv.collections.value) {
      GatherKeysInOrder(srv.collections.value, step);
    }
  }

  /**
   * A MySQL run fails exactly when the connection, the table listing or one
   * table's column query raises.
   */
  lemma MysqlFails(srv: MysqlServer, schema: string)
    ensures MysqlMetadata(srv, schema).Raised? <==>
      || srv.connect.Raised? || srv.showTables.Raised?
      || exists t :: t in srv.showTables.value && srv.columns(schema, t).Raised?
  {
    if srv.connect.Fetched? && srv.showTables.Fetched? {
      GatherSucceeds(srv.showTables.value, ColumnsStep(srv.columns, schema));
    }
  }

  // ---------------------------------------------------------------------
  // The connector loops

  method GatherTables(names: seq<string>, columns: (string, string) -> Fetch<seq<ColumnRow>>, schema: string)
    returns (r: Fetch<seq<(string, Value)>>)
    ensures r == Gather(names, ColumnsStep(columns, schema))
  {
    var tableInfo: seq<(string, Value)> := [];
    var i := 0;
    while i < |names|
      invariant 0 <= i <= |names|
      invariant Gather(names[..i], ColumnsStep(columns, schema)) == Fetched(tableInfo)
    {
      var fetched := columns(schema, names[i]);
      if fetched.Raised? {
        GatherStopsAt(names, i, ColumnsStep(columns, schema));
        return Raised(fetched.error);
      }
      GatherExtends(names, i, ColumnsStep(columns, schema));
      tableInfo := Assign(tableInfo, names[i], ColumnsValue(NormalizeRows(fetched.value)));
      i := i + 1;
    }
    assert names[..i] == names;
    return Fetched(tableInfo);
  }

  /** `connect_postgresql` up to the registry update. */
  method IntrospectPostgres(srv: PgServer) returns (r: Fetch<Value>)
    ensures r == PostgresMetadata(srv)
  {
    if srv.connect.Raised? {
      return Raised(srv.connect.error);
    }
    if srv.schemata.Raised? {
      return Raised(srv.schemata.error);
    }
    var schemaNames := UserSchemas(srv.schemata.value);
    var tableInfo: seq<(string, Value)> := [];
    var i := 0;
    while i < |schemaNames|
      invariant 0 <= i <= |schemaNames|
      invariant Gather(schemaNames[..i], PgSchemaStep(srv)) == Fetched(tableInfo)
    {
      var schema := schemaNames[i];
      var tables := srv.tables(schema);
      if tables.Raised? {
        GatherStopsAt(schemaNames, i, PgSchemaStep(srv));
        return Raised(tables.error);
      }
      var inner := GatherTables(tables.value, srv.columns, schema);
      if inner.Raised? {
        GatherStopsAt(schemaNames, i, PgSchemaStep(srv));
        return Raised(inner.error);
      }
      GatherExtends(schemaNames, i, PgSchemaStep(srv));
      tableInfo := Assign(tableInfo, schema, Dict(inner.value));
      i := i + 1;
    }
    assert schemaNames[..i] == schemaNames;
    return Fetched(Dict(tableInfo));
  }

  /** `connect_mysql` up to the registry update. */
  method IntrospectMysql(srv: MysqlServer, schema: string) returns (r: Fetch<Value>)
    ensures r == MysqlMetadata(srv, schema)
  {
    if srv.connect.Raised? {
      return Raised(srv.connect.error);
    }
    if srv.showTables.Raised? {
      return Raised(srv.showTables.error);
    }
    var tableInfo := GatherTables(srv.showTables.value, srv.columns, schema);
    return AsDict(tableInfo);
  }

  /** `connect_mongodb` up to the registry update. */
  method IntrospectMongo(srv: MongoServer) returns (r: Fetch<Value>)
    ensures r == MongoMetadata(srv)
  {
    if srv.serverInfo.Raised? {
      return Raised(srv.serverInfo.error);
    }
    if srv.collections.Raised? {
      return Raised(srv.collections.error);
    }
    var names := srv.collections.value;
    var tableInfo: seq<(string, Value)> := [];
    var i := 0;
    while i < |names|
      invariant 0 <= i <= |names|
      invariant Gather(names[..i], SampleStep(srv.findOne)) == Fetched(tableInfo)
    {
      var sample := srv.findOne(names[i]);
      if sample.Raised? {
        GatherStopsAt(names, i, SampleStep(srv.findOne));
        return Raised(sample.error);
      }
      GatherExtends(names, i, SampleStep(srv.findOne));
      if sample.value.Some? && |sample.value.value| > 0 {
        tableInfo := Assign(tableInfo, names[i], ColumnsValue(FieldColumns(sample.value.value)));
      } else {
        tableInfo := Assign(tableInfo, names[i], ColumnsValue([]));
      }
      i := i + 1;
    }
    assert names[..i] == names;
    return Fetched(Dict(tableInfo));
  }
}
