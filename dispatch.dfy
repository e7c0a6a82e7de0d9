/**
 * `connect_database`: the connection request, the normalisation of `dbtype`
 * and the choice of connector, the mapping of a connector's exception to the
 * HTTP error it becomes, and the session id every connector derives.
 */
module Dispatch {
  import opened Values
  import opened Decimal
  import opened Text
  import opened Backends

  /** The `DatabaseConnection` body of `POST /connectDB`. */
  datatype ConnectionParams = ConnectionParams(
    host: string,
    port: int,
    username: string,
    password: string,
    schema: string,
    tableNames: seq<string>,
    dbtype: string)

  datatype DbType = Postgres | Mysql | Mongo

  function DbTypeName(t: DbType): string
  {
    match t
    case Postgres => "postgresql"
    case Mysql => "mysql"
    case Mongo => "mongodb"
  }

  /** `dbtype.lower().strip()`. */
  function NormalizeDbType(raw: string): string
  {
    Strip(Lower(raw))
  }

  /** The connector a `dbtype` selects: the type whose name is the normalised text. */
  function SelectDbType(raw: string): (r: Option<DbType>)
    ensures r.Some? ==> DbTypeName(r.value) == NormalizeDbType(raw)
    ensures r.None? ==> forall t: DbType :: DbTypeName(t) != NormalizeDbType(raw)
  {
    var t := NormalizeDbType(raw);
    if t == "postgresql" then Some(Postgres)
    else if t == "mysql" then Some(Mysql)
    else if t == "mongodb" then Some(Mongo)
    else None
  }

  function UnsupportedType(raw: string): HttpError
  {
    HttpError(400, "Unsupported database type: '" + raw + "'. Supported types are: postgresql, mysql, mongodb")
  }

  /** `host:port:schema`, the id of the session a successful connect stores. */
  function SessionId(host: string, port: int, schema: string): string
  {
    host + ":" + IntToString(port) + ":" + schema
  }

  function SessionIdOf(c: ConnectionParams): string
  {
    SessionId(c.host, c.port, c.schema)
  }

  /** Whatever each database's driver would answer for this request. */
  datatype Backend = Backend(postgres: PgServer, mysql: MysqlServer, mongo: MongoServer)

  /**
   * The error a PostgreSQL exception becomes: the driver's errors are
   * reported by `connect_postgresql`, any other exception by
   * `connect_database`.
   */
  function PostgresFailure(e: BackendError): HttpError
  {
    match e
    case DriverError(m) => HttpError(500, "PostgreSQL error: " + m)
    case OtherError(m) => HttpError(500, "Database connection failed: " + m)
  }

  function MysqlFailure(e: BackendError): HttpError
  {
    match e
    case DriverError(m) => HttpError(500, "MySQL error: " + m)
    case OtherError(m) => HttpError(500, "Database connection failed: " + m)
  }

  /** `connect_mongodb` reports every exception itself. */
  function MongoFailure(e: BackendError): HttpError
  {
    HttpError(500, "MongoDB connection error: " + e.message)
  }

  function Report(f: Fetch<Value>, failure: BackendError -> HttpError): Result<Value>
  {
    match f
    case Fetched(info) => Success(info)
    case Raised(e) => Failure(failure(e))
  }

  /** The schema `connect_database` obtains for a request, or the error it raises. */
  function Introspect(c: ConnectionParams, backend: Backend): Result<Value>
  {
    match SelectDbType(c.dbtype)
    case None => Failure(UnsupportedType(c.dbtype))
    case Some(Postgres) => Report(PostgresMetadata(backend.postgres), PostgresFailure)
    case Some(Mysql) => Report(MysqlMetadata(backend.mysql, c.schema), MysqlFailure)
    case Some(Mongo) => Report(MongoMetadata(backend.mongo), MongoFailure)
  }

  /**
   * The body of `connect_database` up to the registry write: pick the
   * connector by the normalised type and run it, mapping its exception to
   * the HTTP error it becomes.
   */
  method RunConnector(c: ConnectionParams, backend: Backend) returns (r: Result<Value>)
    ensures r == Introspect(c, backend)
  {
    var kind := SelectDbType(c.dbtype);
    if kind.None? {
      return Failure(UnsupportedType(c.dbtype));
    }
    var fetched: Fetch<Value>;
    var failure: BackendError -> HttpError;
    match kind.value {
      case Postgres =>
        fetched := IntrospectPostgres(backend.postgres);
        failure := PostgresFailure;
      case Mysql =>
        fetched := IntrospectMysql(backend.mysql, c.schema);
        failure := MysqlFailure;
      case Mongo =>
        fetched := IntrospectMongo(backend.mongo);
        failure := MongoFailure;
    }
    if fetched.Raised? {
      return Failure(failure(fetched.error));
    }
    return Success(fetched.value);
  }

  // ---------------------------------------------------------------------
  // Properties of the dispatch

  /** Each supported name selects its own connector. */
  lemma SelectsByName(t: DbType)
    ensures SelectDbType(DbTypeName(t)) == Some(t)
  {
    var n := DbTypeName(t);
    assert Lower(n) == n;
    assert LStrip(n) == n && RStrip(n) == n;
  }

  /** Letter case does not matter: the text is lowercased before matching. */
  lemma SelectIgnoresCase(raw: string)
    ensures SelectDbType(Lower(raw)) == SelectDbType(raw)
  {
    assert Lower(Lower(raw)) == Lower(raw);
  }

  /** Two types that differ only in the case of their ASCII letters select the same connector. */
  lemma SelectIgnoresLetterCase(a: string, b: string)
    requires |a| == |b| && forall i :: 0 <= i < |a| ==> LowerChar(a[i]) == LowerChar(b[i])
    ensures SelectDbType(a) == SelectDbType(b)
  {
    assert Lower(a) == Lower(b);
  }

  /** White space around the type does not matter: it is stripped before matching. */
  lemma SelectIgnoresPadding(raw: string, before: string, after: string)
    requires AllSpace(before) && AllSpace(after)
    ensures SelectDbType(before + raw + after) == SelectDbType(raw)
  {
    var l := Lower(before + raw + after);
    assert l == Lower(before) + Lower(raw) + Lower(after);
    assert AllSpace(Lower(before)) && AllSpace(Lower(after));
    StripIgnoresPadding(Lower(raw), Lower(before), Lower(after));
  }

  /**
   * An unsupported type is a 400 naming it as sent, and no connector is
   * asked: the outcome is the same whatever the servers would answer.
   */
  lemma UnsupportedTypeRejected(c: ConnectionParams, b1: Backend, b2: Backend)
    requires SelectDbType(c.dbtype).None?
    ensures Introspect(c, b1) == Introspect(c, b2) == Failure(UnsupportedType(c.dbtype))
    ensures Introspect(c, b1).error.status == 400
  {
  }

  /**
   * A failed introspection is a 400 exactly when the type is unsupported,
   * and a 500 otherwise.
   */
  lemma IntrospectStatus(c: ConnectionParams, backend: Backend)
    requires Introspect(c, backend).Failure?
    ensures Introspect(c, backend).error.status == (if SelectDbType(c.dbtype).None? then 400 else 500)
  {
  }

  /**
   * The session id determines host, port and schema when the host holds no
   * colon: two connects share a session exactly when those three agree,
   * whatever their credentials and types.
   */
  lemma SessionIdInjective(h1: string, p1: int, s1: string, h2: string, p2: int, s2: string)
    requires ':' !in h1 && ':' !in h2
    ensures SessionId(h1, p1, s1) == SessionId(h2, p2, s2) <==> h1 == h2 && p1 == p2 && s1 == s2
  {
    if SessionId(h1, p1, s1) == SessionId(h2, p2, s2) {
      var n1, n2 := IntToString(p1), IntToString(p2);
      assert SessionId(h1, p1, s1) == h1 + ":" + (n1 + ":" + s1);
      assert SessionId(h2, p2, s2) == h2 + ":" + (n2 + ":" + s2);
      SplitAtColon(h1, n1 + ":" + s1, h2, n2 + ":" + s2);
      IntToStringAlphabet(p1, ':');
      IntToStringAlphabet(p2, ':');
      SplitAtColon(n1, s1, n2, s2);
      IntToStringInjective(p1, p2);
    }
  }

  /** A colon in the host lets two different triples share one session id. */
  lemma SessionIdCollision()
    ensures SessionId("db:1", 2, "x") == SessionId("db", 1, "2:x")
  {
    assert IntToString(2) == "2" && IntToString(1) == "1";
  }

  lemma SplitAtColon(a: string, b: string, c: string, d: string)
    requires ':' !in a && ':' !in c && a + ":" + b == c + ":" + d
    ensures a == c && b == d
  {
    var x := a + ":" + b;
    assert x[|a|] == ':' && x[|c|] == ':';
    assert a == x[..|a|] && c == x[..|c|];
    assert b == x[|a| + 1..] && d == x[|c| + 1..];
  }
}
