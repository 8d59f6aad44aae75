/** The Postgres stores: Cloud SQL configured from the environment, and a
    local Postgres for development. Both end in `NewPostgreSQLDatabase`. */
module CloudSql {
  import opened Wrappers
  import opened GoStrings
  import opened Environ
  import opened Backends

  datatype CloudSQLConfig = CloudSQLConfig(instanceConnectionName: string, databaseName: string, user: string, password: string)

  /** The space-separated `key=value` fields of the Cloud SQL data source. */
  function ConnectionFields(c: CloudSQLConfig): (fields: seq<string>) {
    ["host=/cloudsql/" + c.instanceConnectionName, "port=5432", "user=" + c.user,
     "password=" + c.password, "dbname=" + c.databaseName, "sslmode=require"]
  }

  /** The data source `NewCloudSQLConnection` formats: the six fields
      separated by single spaces, that is
      `host=/cloudsql/<conn> port=5432 user=<u> password=<p> dbname=<d> sslmode=require`. */
  function ConnectionString(c: CloudSQLConfig): string {
    Join(ConnectionFields(c), " ")
  }

  /** When no configured value contains a space, splitting the data source
      at spaces gives back exactly its six fields, so each value reaches the
      driver under its own key. */
  lemma ConnectionStringFields(c: CloudSQLConfig)
    requires ' ' !in c.instanceConnectionName && ' ' !in c.databaseName
    requires ' ' !in c.user && ' ' !in c.password
    ensures Split(ConnectionString(c), ' ') == ConnectionFields(c)
    ensures Split(ConnectionString(c), ' ')[2] == "user=" + c.user
  {
    var fields := ConnectionFields(c);
    forall p | p in fields ensures ' ' !in p {
      assert ' ' !in "host=/cloudsql/" && ' ' !in "user=" && ' ' !in "password=" && ' ' !in "dbname=";
    }
    SplitJoin(fields, ' ');
  }

  /** `NewPostgreSQLDatabase`: a base store over a pinged Postgres handle. */
  function NewPostgreSQLDatabase(dsn: string, sql: Sql): (r: Result<Service>)
    ensures r.Err? <==> OpenPostgres(dsn, sql).Err?
    ensures r.Err? ==> r.error == OpenPostgres(dsn, sql).error
    ensures r.Ok? ==> r.value == Service(Base, Handle("postgres", dsn, ServerPool))
  {
    var h := OpenPostgres(dsn, sql);
    if h.Err? then Err(h.error) else Ok(Service(Base, h.value))
  }

  /** Both Postgres constructors open, ping and pool the same way; they
      differ only in the store that wraps the handle. */
  lemma PostgresConstructorsAgree(dsn: string, sql: Sql)
    ensures NewPostgreSQLDatabase(dsn, sql).Ok? <==> NewDatabaseService(dsn, sql).Ok?
    ensures NewPostgreSQLDatabase(dsn, sql).Err? ==> NewPostgreSQLDatabase(dsn, sql).error == NewDatabaseService(dsn, sql).error
    ensures NewPostgreSQLDatabase(dsn, sql).Ok? ==>
              NewPostgreSQLDatabase(dsn, sql).value.handle == NewDatabaseService(dsn, sql).value.handle
              && NewPostgreSQLDatabase(dsn, sql).value.flavor == Base && NewDatabaseService(dsn, sql).value.flavor == Typed
  {
  }

  /** `NewCloudSQLConnection`. */
  function NewCloudSQLConnection(c: CloudSQLConfig, sql: Sql): (r: Result<Service>)
    ensures r == NewPostgreSQLDatabase(ConnectionString(c), sql)
  {
    NewPostgreSQLDatabase(ConnectionString(c), sql)
  }

  /** The Cloud SQL settings read from the environment. */
  function ConfigFromEnv(env: Env): (c: CloudSQLConfig)
    ensures c.instanceConnectionName == Getenv(env, "CLOUD_SQL_CONNECTION_NAME")
    ensures c.databaseName == Getenv(env, "CLOUD_SQL_DATABASE")
    ensures c.user == Getenv(env, "CLOUD_SQL_USER") && c.password == Getenv(env, "CLOUD_SQL_PASSWORD")
  {
    CloudSQLConfig(Getenv(env, "CLOUD_SQL_CONNECTION_NAME"), Getenv(env, "CLOUD_SQL_DATABASE"),
                   Getenv(env, "CLOUD_SQL_USER"), Getenv(env, "CLOUD_SQL_PASSWORD"))
  }

  /** `NewCloudSQLFromEnv`: the four variables are required, checked in the
      order connection name, database, user, password; the first empty one
      is reported and no connection is attempted. */
  function NewCloudSQLFromEnv(env: Env, sql: Sql): (r: Result<Service>)
    ensures Getenv(env, "CLOUD_SQL_CONNECTION_NAME") == "" ==>
              r == Err("CLOUD_SQL_CONNECTION_NAME environment variable is required")
    ensures Getenv(env, "CLOUD_SQL_CONNECTION_NAME") != "" && Getenv(env, "CLOUD_SQL_DATABASE") == "" ==>
              r == Err("CLOUD_SQL_DATABASE environment variable is required")
    ensures Getenv(env, "CLOUD_SQL_CONNECTION_NAME") != "" && Getenv(env, "CLOUD_SQL_DATABASE") != ""
              && Getenv(env, "CLOUD_SQL_USER") == "" ==>
              r == Err("CLOUD_SQL_USER environment variable is required")
    ensures Getenv(env, "CLOUD_SQL_CONNECTION_NAME") != "" && Getenv(env, "CLOUD_SQL_DATABASE") != ""
              && Getenv(env, "CLOUD_SQL_USER") != "" && Getenv(env, "CLOUD_SQL_PASSWORD") == "" ==>
              r == Err("CLOUD_SQL_PASSWORD environment variable is required")
    ensures Getenv(env, "CLOUD_SQL_CONNECTION_NAME") != "" && Getenv(env, "CLOUD_SQL_DATABASE") != ""
              && Getenv(env, "CLOUD_SQL_USER") != "" && Getenv(env, "CLOUD_SQL_PASSWORD") != "" ==>
              r == NewPostgreSQLDatabase(ConnectionString(ConfigFromEnv(env)), sql)
  {
    var c := ConfigFromEnv(env);
    if c.instanceConnectionName == "" then Err("CLOUD_SQL_CONNECTION_NAME environment variable is required")
    else if c.databaseName == "" then Err("CLOUD_SQL_DATABASE environment variable is required")
    else if c.user == "" then Err("CLOUD_SQL_USER environment variable is required")
    else if c.password == "" then Err("CLOUD_SQL_PASSWORD environment variable is required")
    else NewCloudSQLConnection(c, sql)
  }

  /** A missing variable is reported without any driver call: the result is
      the same whatever the driver would answer. */
  lemma MissingVariableNeedsNoDriver(env: Env, sql1: Sql, sql2: Sql)
    requires Getenv(env, "CLOUD_SQL_CONNECTION_NAME") == "" || Getenv(env, "CLOUD_SQL_DATABASE") == ""
             || Getenv(env, "CLOUD_SQL_USER") == "" || Getenv(env, "CLOUD_SQL_PASSWORD") == ""
    ensures NewCloudSQLFromEnv(env, sql1) == NewCloudSQLFromEnv(env, sql2)
    ensures NewCloudSQLFromEnv(env, sql1).Err?
  {
  }

  const LocalDefaultDsn := "host=localhost port=5432 user=postgres password=postgres dbname=portfolio_images sslmode=disable"

  /** The data source `NewLocalPostgres` uses: `DATABASE_URL`, or the local
      default when it is empty. */
  function LocalDsn(env: Env): (dsn: string)
    ensures Getenv(env, "DATABASE_URL") != "" ==> dsn == env["DATABASE_URL"]
    ensures Getenv(env, "DATABASE_URL") == "" ==> dsn == LocalDefaultDsn
  {
    var url := Getenv(env, "DATABASE_URL");
    if url == "" then LocalDefaultDsn else url
  }

  /** `NewLocalPostgres`. */
  function NewLocalPostgres(env: Env, sql: Sql): (r: Result<Service>)
    ensures r == NewPostgreSQLDatabase(LocalDsn(env), sql)
  {
    NewPostgreSQLDatabase(LocalDsn(env), sql)
  }
}
