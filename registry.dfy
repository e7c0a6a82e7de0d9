/**
 * The session registry: the two module-level dictionaries `db_connections`
 * and `session_schemas`, and the endpoints that write and read them.
 */
module Registry {
  import opened Values
  import opened Columns
  import opened Backends
  import opened Dispatch
  import opened SchemaCheck

  const SupportedDatabases: seq<string> := ["postgresql", "mysql", "mongodb"]

  datatype ConnectResponse = ConnectResponse(status: string, sessionId: string, schemaInfo: Value)

  datatype SetSchemaResponse = SetSchemaResponse(status: string, message: string, sessionId: string, tables: seq<string>)

  datatype SessionDetail = SessionDetail(
    sessionId: string, dbtype: string, host: string, port: int, schema: string, hasSchemaDefined: bool)

  datatype SessionsView = SessionsView(activeSessions: seq<string>, sessionDetails: seq<SessionDetail>)

  /** What `get_session_schema` tells of a connection: no credentials. */
  datatype ConnectionInfo = ConnectionInfo(dbtype: string, host: string, schema: string)

  datatype SchemaView = SchemaView(sessionId: string, schema: Value, connectionInfo: ConnectionInfo)

  datatype DeleteResponse = DeleteResponse(status: string, message: string)

  datatype HealthView = HealthView(
    status: string, activeSessions: nat, configuredSchemas: nat, supportedDatabases: seq<string>)

  /** The response of `POST /connectDB` for a request, or its error. */
  function ConnectOutcome(c: ConnectionParams, backend: Backend): Result<ConnectResponse>
  {
    match Introspect(c, backend)
    case Failure(e) => Failure(e)
    case Success(info) => Success(ConnectResponse("success", SessionIdOf(c), info))
  }

  function InfoOf(c: ConnectionParams): ConnectionInfo
  {
    ConnectionInfo(c.dbtype, c.host, c.schema)
  }

  function DetailOf(id: string, c: ConnectionParams, hasSchema: bool): SessionDetail
  {
    SessionDetail(id, c.dbtype, c.host, c.port, c.schema, hasSchema)
  }

  /** `s` with `x` removed, the others in their order (`del` on a dict's keys). */
  function Without(s: seq<string>, x: string): (r: seq<string>)
    ensures forall y :: y in r <==> y in s && y != x
    ensures Distinct(s) ==> Distinct(r)
  {
    if s == [] then []
    else
      var rest := Without(s[1..], x);
      assert Distinct(s) ==> Distinct(s[1..]) && s[0] !in s[1..];
      (if s[0] == x then [] else [s[0]]) + rest
  }

  /** Removing from a concatenation removes from each part, so the survivors keep their order. */
  lemma {:induction false} WithoutAppend(a: seq<string>, b: seq<string>, x: string)
    ensures Without(a + b, x) == Without(a, x) + Without(b, x)
  {
    if a == [] {
      assert a + b == b;
    } else {
      assert (a + b)[0] == a[0] && (a + b)[1..] == a[1..] + b;
      WithoutAppend(a[1..], b, x);
    }
  }

  /** One key is dropped exactly when it is the deleted one. */
  lemma WithoutSingle(y: string, x: string)
    ensures Without([y], x) == if y == x then [] else [y]
  {
    assert [y][1..] == [];
  }

  /** Removing an absent key leaves the order as it was. */
  lemma {:induction false} WithoutAbsent(s: seq<string>, x: string)
    requires x !in s
    ensures Without(s, x) == s
  {
    if s != [] {
      assert s[0] != x && x !in s[1..];
      WithoutAbsent(s[1..], x);
      assert s == [s[0]] + s[1..];
    }
  }

  /** Deleting a key that occurs once closes the gap: the keys before and after it stay in order. */
  lemma WithoutMiddle(a: seq<string>, b: seq<string>, x: string)
    requires x !in a && x !in b
    ensures Without(a + [x] + b, x) == a + b
  {
    WithoutAppend(a, [x], x);
    WithoutSingle(x, x);
    WithoutAbsent(a, x);
    var front := Without(a + [x], x);
    assert front == a + [] == a;
    WithoutAppend(a + [x], b, x);
    WithoutAbsent(b, x);
  }

  lemma {:induction false} DistinctCardinality(s: seq<string>)
    requires Distinct(s)
    ensures |set x | x in s| == |s|
  {
    if s != [] {
      DistinctCardinality(s[1..]);
      assert (set x | x in s) == {s[0]} + (set x | x in s[1..]);
    }
  }

  /**
   * The flat `schema_info` of a MySQL connect is itself a valid payload for
   * `POST /setsessionSchema`.
   */
  lemma MysqlInfoIsValidOverride(srv: MysqlServer, schema: string)
    requires MysqlMetadata(srv, schema).Fetched?
    ensures MysqlMetadata(srv, schema).value.Dict?
    ensures SchemaOk(MysqlMetadata(srv, schema).value.entries)
    ensures SchemaError(MysqlMetadata(srv, schema).value.entries, 0) == None
  {
    var step := ColumnsStep(srv.columns, schema);
    var d := Gather(srv.showTables.value, step).value;
    GatherEntries(srv.showTables.value, step);
    forall i | 0 <= i < |d| ensures TableOk(d[i].1) {
      assert d[i] in d;
      ColumnsValueIsValidTable(d[i].0, NormalizeRows(srv.columns(schema, d[i].0).value));
    }
    SchemaErrorSpec(d);
  }

  /**
   * The flat `schema_info` of a MongoDB connect is itself a valid payload for
   * `POST /setsessionSchema`.
   */
  lemma MongoInfoIsValidOverride(srv: MongoServer)
    requires MongoMetadata(srv).Fetched?
    ensures MongoMetadata(srv).value.Dict?
    ensures SchemaOk(MongoMetadata(srv).value.entries)
    ensures SchemaError(MongoMetadata(srv).value.entries, 0) == None
  {
    var step := SampleStep(srv.findOne);
    var d := Gather(srv.collections.value, step).value;
    GatherEntries(srv.collections.value, step);
    forall i | 0 <= i < |d| ensures TableOk(d[i].1) {
      assert d[i] in d;
      ColumnsValueIsValidTable(d[i].0, SampleColumns(srv.findOne(d[i].0).value));
    }
    SchemaErrorSpec(d);
  }

  /**
   * The nested `schema_info` of a PostgreSQL connect is not: as soon as it
   * holds a schema, posting it back is a 400 naming the first schema, whose
   * value is a dictionary of tables rather than a list of columns.
   */
  lemma PostgresInfoRejectedAsOverride(srv: PgServer)
    requires PostgresMetadata(srv).Fetched?
    requires PostgresMetadata(srv).value.Dict? && PostgresMetadata(srv).value.entries != []
    ensures var d := PostgresMetadata(srv).value.entries;
      SchemaError(d, 0) == Some(NotAList(d[0].0))
  {
    var names := UserSchemas(srv.schemata.value);
    var d := Gather(names, PgSchemaStep(srv)).value;
    GatherEntries(names, PgSchemaStep(srv));
    assert d[0] in d;
  }

  class SessionRegistry {
    /** `db_connections`: the accepted request of every session. */
    var connections: map<string, ConnectionParams>
    /** `session_schemas`: the schema stored for every session. */
    var schemas: map<string, Value>
    /** The iteration order of `db_connections`: its keys in insertion order. */
    var order: seq<string>

    /** Every session has a schema and every schema a session. */
    predicate SameSessions()
      reads this
    {
      connections.Keys == schemas.Keys
    }

    /**
     * The registry invariant: `order` enumerates the keys of `connections`,
     * each once, and both dictionaries hold the same sessions.
     */
    ghost predicate Valid()
      reads this
    {
      Distinct(order) && (forall id :: id in order <==> id in connections) && SameSessions()
    }

    /** The registry at start-up: both dictionaries empty. */
    constructor ()
      ensures Valid()
      ensures connections == map[] && schemas == map[] && order == []
    {
      connections := map[];
      schemas := map[];
      order := [];
    }

    /**
     * `POST /connectDB`: run the selected connector to the end, and only
     * then upsert both dictionaries under the derived session id.
     */
    method Connect(c: ConnectionParams, backend: Backend) returns (r: Result<ConnectResponse>)
      requires Valid()
      modifies this
      ensures Valid()
      ensures r == ConnectOutcome(c, backend)
      ensures r.Failure? ==>
        connections == old(connections) && schemas == old(schemas) && order == old(order)
      ensures r.Success? ==>
        && r.value.sessionId == SessionIdOf(c)
        && connections == old(connections)[SessionIdOf(c) := c]
        && schemas == old(schemas)[SessionIdOf(c) := r.value.schemaInfo]
        && order == if SessionIdOf(c) in old(connections) then old(order) else old(order) + [SessionIdOf(c)]
      ensures r.Success? ==>
        GetSessionSchema(SessionIdOf(c)) == Success(SchemaView(SessionIdOf(c), r.value.schemaInfo, InfoOf(c)))
      ensures forall other :: other != SessionIdOf(c) ==> GetSessionSchema(other) == old(GetSessionSchema(other))
    {
      var fetched := RunConnector(c, backend);
      if fetched.Failure? {
        return Failure(fetched.error);
      }
      var info := fetched.value;
      var id := SessionIdOf(c);
      if id !in connections {
        order := order + [id];
      }
      connections := connections[id := c];
      schemas := schemas[id := info];
      return Success(ConnectResponse("success", id, info));
    }

    /**
     * `POST /setsessionSchema`: for a known session with a well-formed
     * payload, replace its schema by the payload as a whole.
     */
    method SetSessionSchema(id: string, payload: seq<(string, Value)>) returns (r: Result<SetSchemaResponse>)
      requires Valid()
      modifies this
      ensures Valid()
      ensures id !in old(connections) ==>
        r == Failure(HttpError(404, "Session not found. Please connect to database first."))
      ensures id in old(connections) && SchemaError(payload, 0).Some? ==>
        r == Failure(SchemaError(payload, 0).value)
      ensures id in old(connections) && !SchemaOk(payload) ==> r.Failure? && r.error.status == 400
      ensures r.Success? <==> id in old(connections) && SchemaOk(payload)
      ensures r.Failure? ==>
        connections == old(connections) && schemas == old(schemas) && order == old(order)
      ensures r.Success? ==>
        && r.value == SetSchemaResponse("success", "Session schema set successfully", id, Keys(payload))
        && connections == old(connections) && order == old(order)
        && schemas == old(schemas)[id := Dict(payload)]
      ensures r.Success? ==>
        GetSessionSchema(id) == Success(SchemaView(id, Dict(payload), InfoOf(connections[id])))
      ensures forall other :: other != id ==> GetSessionSchema(other) == old(GetSessionSchema(other))
    {
      if id !in connections {
        return Failure(HttpError(404, "Session not found. Please connect to database first."));
      }
      var err := ValidateSchema(payload);
      SchemaErrorSpec(payload);
      if err.Some? {
        return Failure(err.value);
      }
      schemas := schemas[id := Dict(payload)];
      return Success(SetSchemaResponse("success", "Session schema set successfully", id, Keys(payload)));
    }

    /** `GET /sessions`: every session in insertion order, with its details. */
    function ActiveSessions(): (r: SessionsView)
      reads this
      requires Valid()
      ensures r.activeSessions == order
      ensures (forall id :: id in r.activeSessions <==> id in connections) && Distinct(r.activeSessions)
      ensures |r.activeSessions| == |connections|
      ensures |r.sessionDetails| == |r.activeSessions|
      ensures forall i :: 0 <= i < |r.sessionDetails| ==>
        && r.activeSessions[i] in connections
        && r.sessionDetails[i] == DetailOf(r.activeSessions[i], connections[r.activeSessions[i]], r.activeSessions[i] in schemas)
      ensures forall i :: 0 <= i < |r.sessionDetails| ==> r.sessionDetails[i].hasSchemaDefined
    {
      var ids, cs, ss := order, connections, schemas;
      DistinctCardinality(ids);
      assert (set x | x in ids) == cs.Keys;
      SessionsView(ids, seq(|ids|, i requires 0 <= i < |ids| && ids[i] in cs => DetailOf(ids[i], cs[ids[i]], ids[i] in ss)))
    }

    /** `GET /session/{id}/schema`: the stored schema and the connection without its credentials. */
    function GetSessionSchema(id: string): (r: Result<SchemaView>)
      reads this
      ensures id !in connections ==> r == Failure(HttpError(404, "Session not found"))
      ensures id in connections && id !in schemas ==> r == Failure(HttpError(404, "Session schema not defined"))
      ensures r.Success? <==> id in connections && id in schemas
      ensures r.Success? ==> r.value == SchemaView(id, schemas[id], InfoOf(connections[id]))
      ensures Valid() ==> (r.Success? <==> id in connections)
    {
      if id !in connections then Failure(HttpError(404, "Session not found"))
      else if id !in schemas then Failure(HttpError(404, "Session schema not defined"))
      else Success(SchemaView(id, schemas[id], InfoOf(connections[id])))
    }

    /** `DELETE /session/{id}`: remove a known session from both dictionaries. */
    method DeleteSession(id: string) returns (r: Result<DeleteResponse>)
      requires Valid()
      modifies this
      ensures Valid()
      ensures id !in old(connections) ==>
        && r == Failure(HttpError(404, "Session not found"))
        && connections == old(connections) && schemas == old(schemas) && order == old(order)
      ensures id in old(connections) ==>
        && r == Success(DeleteResponse("success", "Session " + id + " deleted successfully"))
        && connections == old(connections) - {id}
        && schemas == old(schemas) - {id}
        && order == Without(old(order), id)
      ensures GetSessionSchema(id) == Failure(HttpError(404, "Session not found"))
      ensures forall other :: other != id ==> GetSessionSchema(other) == old(GetSessionSchema(other))
    {
      if id !in connections {
        return Failure(HttpError(404, "Session not found"));
      }
      connections := connections - {id};
      if id in schemas {
        schemas := schemas - {id};
      }
      order := Without(order, id);
      return Success(DeleteResponse("success", "Session " + id + " deleted successfully"));
    }

    /** `GET /health`: the sizes of both dictionaries, which agree. */
    function Health(): (r: HealthView)
      reads this
      requires Valid()
      ensures r.status == "healthy" && r.supportedDatabases == SupportedDatabases
      ensures r.activeSessions == |connections| && r.configuredSchemas == |schemas|
      ensures r.activeSessions == r.configuredSchemas
    {
      HealthView("healthy", |connections|, |schemas|, SupportedDatabases)
    }
  }
}
