/**
 * The data-access layer: picks managed (TLS) or local mode from the host
 * name, connects once with a fallback to an "Offline Mode" sentinel, runs the
 * four fixed queries (any failure yields no rows) and closes cursor and
 * connection. The database is an oracle: each step's outcome is a parameter.
 */
module Config {
  import opened Wrappers
  import opened Rows

  /** The process environment (after `.env` has been loaded). */
  type Env = map<string, string>

  /** `os.getenv(key, default)`. */
  function GetEnv(env: Env, key: string, default: string): string {
    if key in env then env[key] else default
  }

  /** Host-name suffix of the managed database service. */
  const ManagedSuffix: string := "supabase.co"

  /** The version sentinel recorded when setup fails. */
  const OfflineMode: string := "Offline Mode"

  predicate EndsWith(s: string, suffix: string) {
    |suffix| <= |s| && s[|s| - |suffix|..] == suffix
  }

  /** Managed mode is on iff `DB_HOST` is set and ends with the managed suffix;
      an unset `DB_HOST` reads as the empty string. */
  function UseManaged(env: Env): (managed: bool)
    ensures managed <==> "DB_HOST" in env && EndsWith(env["DB_HOST"], ManagedSuffix)
  {
    EndsWith(GetEnv(env, "DB_HOST", ""), ManagedSuffix)
  }

  /** The fallback for each setting when its variable is unset. */
  datatype Defaults = Defaults(host: string, port: string, user: string, password: string, dbname: string)

  /** The arguments of the connect call. */
  datatype ConnectRequest = ConnectRequest(
    host: string, port: string, user: string, password: string, dbname: string, sslRequire: bool)

  /** Both branches read the same five variables with the same fallbacks; only
      the managed branch asks for `sslmode="require"`. */
  function ConnectRequestFor(env: Env, d: Defaults): (req: ConnectRequest)
    ensures req.sslRequire <==> UseManaged(env)
    ensures req.host == (if "DB_HOST" in env then env["DB_HOST"] else d.host)
    ensures req.port == (if "DB_PORT" in env then env["DB_PORT"] else d.port)
    ensures req.user == (if "DB_USER" in env then env["DB_USER"] else d.user)
    ensures req.password == (if "DB_PASSWORD" in env then env["DB_PASSWORD"] else d.password)
    ensures req.dbname == (if "DB_NAME" in env then env["DB_NAME"] else d.dbname)
  {
    ConnectRequest(
      GetEnv(env, "DB_HOST", d.host), GetEnv(env, "DB_PORT", d.port), GetEnv(env, "DB_USER", d.user),
      GetEnv(env, "DB_PASSWORD", d.password), GetEnv(env, "DB_NAME", d.dbname),
      UseManaged(env))
  }

  /** With `DB_HOST` unset, managed mode is off and no TLS is requested, even
      when the fallback host the connect call then uses is a managed host. */
  lemma UnsetHostIsLocal(env: Env, d: Defaults)
    requires "DB_HOST" !in env && EndsWith(d.host, ManagedSuffix)
    ensures !UseManaged(env)
    ensures ConnectRequestFor(env, d).host == d.host && EndsWith(ConnectRequestFor(env, d).host, ManagedSuffix)
    ensures !ConnectRequestFor(env, d).sslRequire
  {
  }

  // ---------------------------------------------------------------- the database oracle

  /** The driver's exception classes as the setup code tells them apart. */
  datatype ErrorKind = OperationalError | DatabaseError | OtherError

  datatype Outcome<T> = Ok(value: T) | Raise(kind: ErrorKind)

  /** What the database does at each setup step: the connect call, opening the
      cursor, and the version query. */
  datatype SetupOracle = SetupOracle(connect: Outcome<()>, cursor: Outcome<()>, version: Outcome<string>)

  /** The exception that ends the setup, if any: the first step that raises. */
  function FirstFailure(o: SetupOracle): (k: Option<ErrorKind>)
    ensures k.None? <==> o.connect.Ok? && o.cursor.Ok? && o.version.Ok?
    ensures o.connect.Raise? ==> k == Some(o.connect.kind)
    ensures o.connect.Ok? && o.cursor.Raise? ==> k == Some(o.cursor.kind)
    ensures o.connect.Ok? && o.cursor.Ok? && o.version.Raise? ==> k == Some(o.version.kind)
  {
    if o.connect.Raise? then Some(o.connect.kind)
    else if o.cursor.Raise? then Some(o.cursor.kind)
    else if o.version.Raise? then Some(o.version.kind)
    else None
  }

  /** The warning printed for a failed setup; a connection failure adds
      managed-mode or local-mode tips. */
  datatype Warning = ConnectionFailed(managedTips: bool) | DatabaseFailure | UnexpectedFailure

  function WarningFor(k: ErrorKind, managed: bool): Warning {
    match k
    case OperationalError => ConnectionFailed(managed)
    case DatabaseError => DatabaseFailure
    case OtherError => UnexpectedFailure
  }

  /** A cursor open on a connection. */
  datatype Cursor = Cursor(conn: ConnectRequest)

  /** The module globals after setup. */
  datatype Globals = Globals(
    conn: Option<ConnectRequest>, cursor: Option<Cursor>, dbVersion: string,
    dbType: Option<string>, warning: Option<Warning>)

  function DbTypeFor(managed: bool): string {
    if managed then "Supabase" else "PostgreSQL Local"
  }

  /** The outcome of the module's setup. Nothing is ever propagated: any
      failure records the offline sentinel and a warning of its kind. A failed
      connect leaves connection and cursor unset; a failure after the connect
      leaves what was already opened in place. */
  function Setup(env: Env, d: Defaults, o: SetupOracle): (g: Globals)
    ensures FirstFailure(o).None? ==>
              g.conn == Some(ConnectRequestFor(env, d)) && g.cursor.Some?
              && g.dbVersion == o.version.value && g.warning.None?
    ensures FirstFailure(o).Some? ==>
              g.dbVersion == OfflineMode && g.warning == Some(WarningFor(FirstFailure(o).value, UseManaged(env)))
    ensures o.connect.Raise? ==> g.conn.None? && g.cursor.None? && g.dbType.None?
    ensures o.connect.Ok? ==> g.conn == Some(ConnectRequestFor(env, d)) && g.dbType == Some(DbTypeFor(UseManaged(env)))
    ensures g.cursor.Some? <==> o.connect.Ok? && o.cursor.Ok?
    ensures g.conn.Some? ==> (g.conn.value.sslRequire <==> UseManaged(env))
  {
    var managed := UseManaged(env);
    var req := ConnectRequestFor(env, d);
    match FirstFailure(o)
    case Some(k) =>
      var conn := if o.connect.Ok? then Some(req) else None;
      var cursor := if o.connect.Ok? && o.cursor.Ok? then Some(Cursor(req)) else None;
      var dbType := if o.connect.Ok? then Some(DbTypeFor(managed)) else None;
      Globals(conn, cursor, OfflineMode, dbType, Some(WarningFor(k, managed)))
    case None =>
      Globals(Some(req), Some(Cursor(req)), o.version.value, Some(DbTypeFor(managed)), None)
  }

  /** Every fetch: the query's rows on success, no rows when it raises; with no
      cursor the call on the unset cursor raises, so also no rows. */
  function FetchAll<R>(cursor: Option<Cursor>, query: Outcome<seq<R>>): (rows: seq<R>)
    ensures cursor.None? ==> rows == []
    ensures query.Raise? ==> rows == []
    ensures cursor.Some? && query.Ok? ==> rows == query.value
  {
    match cursor
    case None => []
    case Some(_) =>
      match query
      case Ok(rs) => rs
      case Raise(_) => []
  }

  /** After a failed connect every fetch yields no rows, whatever the query would do. */
  lemma OfflineFetchesEmpty<R>(env: Env, d: Defaults, o: SetupOracle, query: Outcome<seq<R>>)
    requires o.connect.Raise?
    ensures Setup(env, d, o).dbVersion == OfflineMode
    ensures FetchAll(Setup(env, d, o).cursor, query) == []
  {
  }

  /** A failure after the cursor is open still records the offline sentinel,
      yet the cursor stays set and later fetches may return rows. */
  lemma OfflineWithOpenCursor<R>(env: Env, d: Defaults, o: SetupOracle, rows: seq<R>)
    requires o.connect.Ok? && o.cursor.Ok? && o.version.Raise?
    ensures Setup(env, d, o).dbVersion == OfflineMode
    ensures Setup(env, d, o).conn.Some? && Setup(env, d, o).cursor.Some?
    ensures FetchAll(Setup(env, d, o).cursor, Ok(rows)) == rows
  {
  }

  /** What a close call was made on. */
  datatype Resource = CursorResource | ConnectionResource

  /** The module state: the connection, the cursor and the recorded version. */
  class DataAccess {
    var managed: bool
    var conn: Option<ConnectRequest>
    var cursor: Option<Cursor>
    var dbVersion: string
    var dbType: Option<string>
    var warning: Option<Warning>

    function State(): Globals
      reads this
    {
      Globals(conn, cursor, dbVersion, dbType, warning)
    }

    /** Module setup: connect, open the cursor, ask for the server version;
        the first step that raises ends the attempt and is absorbed. */
    constructor (env: Env, d: Defaults, o: SetupOracle)
      ensures managed == UseManaged(env)
      ensures State() == Setup(env, d, o)
    {
      conn := None;
      cursor := None;
      dbType := None;
      warning := None;
      var useManaged := EndsWith(GetEnv(env, "DB_HOST", ""), ManagedSuffix);
      managed := useManaged;
      var req := ConnectRequest(
        GetEnv(env, "DB_HOST", d.host), GetEnv(env, "DB_PORT", d.port), GetEnv(env, "DB_USER", d.user),
        GetEnv(env, "DB_PASSWORD", d.password), GetEnv(env, "DB_NAME", d.dbname), false);
      if useManaged {
        req := req.(sslRequire := true);
      }
      var failure: Option<ErrorKind> := None;
      match o.connect {
        case Raise(k) =>
          failure := Some(k);
        case Ok(_) =>
          conn := Some(req);
          dbType := Some(if useManaged then "Supabase" else "PostgreSQL Local");
      }
      if failure.None? {
        match o.cursor {
          case Raise(k) => failure := Some(k);
          case Ok(_) => cursor := Some(Cursor(req));
        }
      }
      if failure.None? {
        match o.version {
          case Raise(k) => failure := Some(k);
          case Ok(v) => dbVersion := v;
        }
      }
      if failure.Some? {
        var w := match failure.value {
          case OperationalError => ConnectionFailed(useManaged)
          case DatabaseError => DatabaseFailure
          case OtherError => UnexpectedFailure
        };
        warning := Some(w);
        dbVersion := OfflineMode;
      }
    }

    /** Customers, ordered by name by the query. */
    function ViewCustomers(query: Outcome<seq<CustomerRecord>>): (rows: seq<CustomerRecord>)
      reads this
      ensures cursor.None? || query.Raise? ==> rows == []
      ensures cursor.Some? && query.Ok? ==> rows == query.value
    {
      FetchAll(cursor, query)
    }

    /** Orders joined with their customers, newest first by the query. */
    function ViewOrdersWithCustomers(query: Outcome<seq<OrderRecord>>): (rows: seq<OrderRecord>)
      reads this
      ensures cursor.None? || query.Raise? ==> rows == []
      ensures cursor.Some? && query.Ok? ==> rows == query.value
    {
      FetchAll(cursor, query)
    }

    /** Products, ordered by name by the query. */
    function ViewProducts(query: Outcome<seq<ProductRecord>>): (rows: seq<ProductRecord>)
      reads this
      ensures cursor.None? || query.Raise? ==> rows == []
      ensures cursor.Some? && query.Ok? ==> rows == query.value
    {
      FetchAll(cursor, query)
    }

    /** Order line items joined with order, customer and product. */
    function ViewOrderDetailsWithInfo(query: Outcome<seq<OrderDetailRecord>>): (rows: seq<OrderDetailRecord>)
      reads this
      ensures cursor.None? || query.Raise? ==> rows == []
      ensures cursor.Some? && query.Ok? ==> rows == query.value
    {
      FetchAll(cursor, query)
    }

    /** Closes the cursor, then the connection, inside one guard: when closing
        the cursor raises, the connection is not closed, and any error is
        swallowed. Neither global is reassigned (nothing here is modified).
        `attempts` lists the close calls made, `swallowed` whether one raised. */
    method CloseConnection(cursorCloseRaises: bool, connCloseRaises: bool)
      returns (attempts: seq<Resource>, swallowed: bool)
      ensures attempts == [] <==> cursor.None? && conn.None?
      ensures CursorResource in attempts <==> cursor.Some?
      ensures ConnectionResource in attempts <==> conn.Some? && !(cursor.Some? && cursorCloseRaises)
      ensures cursor.Some? ==> attempts[0] == CursorResource
      ensures |attempts| <= 2
      ensures multiset(attempts)[CursorResource] <= 1 && multiset(attempts)[ConnectionResource] <= 1
      ensures swallowed <==>
                ((cursor.Some? && cursorCloseRaises) || (ConnectionResource in attempts && connCloseRaises))
    {
      attempts, swallowed := [], false;
      if cursor.Some? {
        attempts := attempts + [CursorResource];
        if cursorCloseRaises {
          swallowed := true;
          return;
        }
      }
      if conn.Some? {
        attempts := attempts + [ConnectionResource];
        if connCloseRaises {
          swallowed := true;
        }
      }
    }
  }
}
