/** The `*sql.DB` handles that the store constructors open, and the typed
    `DatabaseService` constructor of database.go. Opening and pinging a data
    source are oracles: `Sql.open` and `Sql.ping` answer, for a driver name
    and a data source name, `None` on success or the driver's error. */
module Backends {
  import opened Wrappers
  import opened Store

  /** The connection pool settings of a handle; `None` leaves the
      `database/sql` default in place. */
  datatype Pool = Pool(maxOpenConns: Option<int>, maxIdleConns: Option<int>, connMaxLifetimeSeconds: Option<int>)

  /** An open, pinged `*sql.DB`. */
  datatype Handle = Handle(driverName: string, dataSource: string, pool: Pool)

  /** Which store implementation wraps the handle: the typed
      `DatabaseService` or the `interface{}`-based `BaseDatabaseService`. */
  datatype Flavor = Typed | Base

  datatype Service = Service(flavor: Flavor, handle: Handle)

  datatype Sql = Sql(open: (string, string) -> Outcome, ping: (string, string) -> Outcome)

  /** The pool the Postgres constructors set: 25 open, 5 idle, 5 minutes. */
  const ServerPool := Pool(Some(25), Some(5), Some(5 * 60))

  /** Open a Postgres handle on `dsn`, ping it, and only then set the server
      pool. The result is what both Postgres constructors share. */
  function OpenPostgres(dsn: string, sql: Sql): (r: Result<Handle>)
    ensures sql.open("postgres", dsn).Some? ==> r == Err("failed to open database: " + sql.open("postgres", dsn).value)
    ensures sql.open("postgres", dsn).None? && sql.ping("postgres", dsn).Some? ==>
              r == Err("failed to ping database: " + sql.ping("postgres", dsn).value)
    ensures r.Ok? <==> sql.open("postgres", dsn).None? && sql.ping("postgres", dsn).None?
    ensures r.Ok? ==> r.value == Handle("postgres", dsn, ServerPool)
  {
    var openErr := sql.open("postgres", dsn);
    if openErr.Some? then Err("failed to open database: " + openErr.value)
    else
      var pingErr := sql.ping("postgres", dsn);
      if pingErr.Some? then Err("failed to ping database: " + pingErr.value)
      else Ok(Handle("postgres", dsn, ServerPool))
  }

  /** `NewDatabaseService`: a typed store over a Postgres handle. */
  function NewDatabaseService(dsn: string, sql: Sql): (r: Result<Service>)
    ensures r.Err? <==> OpenPostgres(dsn, sql).Err?
    ensures r.Err? ==> r.error == OpenPostgres(dsn, sql).error
    ensures r.Ok? ==> r.value.flavor == Typed && r.value.handle == OpenPostgres(dsn, sql).value
  {
    var h := OpenPostgres(dsn, sql);
    if h.Err? then Err(h.error) else Ok(Service(Typed, h.value))
  }
}
