/** Backend selection: a switch on the database type, and one primary →
    fallback step. */
module Factory {
  import opened Wrappers
  import opened Environ
  import opened Store
  import opened Backends
  import Sqlite
  import CloudSql

  /** What the constructors observe: the environment, the driver oracle, and
      the outcome of each SQLite schema statement. */
  datatype World = World(env: Env, sql: Sql, schema: Sqlite.Statement -> Outcome)

  const SQLite := "sqlite"
  const PostgreSQL := "postgres"
  const CloudSQL := "cloudsql"

  /** `NewDatabaseServiceWithType`. */
  function WithType(dbType: string, w: World): (r: Result<Service>)
    ensures dbType == SQLite ==> r == Sqlite.SQLiteOutcome(w.env, w.sql, w.schema)
    ensures dbType == PostgreSQL ==> r == CloudSql.NewLocalPostgres(w.env, w.sql)
    ensures dbType == CloudSQL ==> r == CloudSql.NewCloudSQLFromEnv(w.env, w.sql)
    ensures dbType !in {SQLite, PostgreSQL, CloudSQL} ==> r == Err("unsupported database type: " + dbType)
  {
    if dbType == SQLite then Sqlite.SQLiteOutcome(w.env, w.sql, w.schema)
    else if dbType == PostgreSQL then CloudSql.NewLocalPostgres(w.env, w.sql)
    else if dbType == CloudSQL then CloudSql.NewCloudSQLFromEnv(w.env, w.sql)
    else Err("unsupported database type: " + dbType)
  }

  /** `NewDatabaseServiceFromEnv`: `DATABASE_TYPE`, defaulting to sqlite. */
  function FromEnv(w: World): (r: Result<Service>)
    ensures Getenv(w.env, "DATABASE_TYPE") == "" ==> r == Sqlite.SQLiteOutcome(w.env, w.sql, w.schema)
  {
    var dbType := Getenv(w.env, "DATABASE_TYPE");
    if dbType == "" then
      Sqlite.SQLiteOutcome(w.env, w.sql, w.schema)
    else if dbType == SQLite then Sqlite.SQLiteOutcome(w.env, w.sql, w.schema)
    else if dbType == PostgreSQL then CloudSql.NewLocalPostgres(w.env, w.sql)
    else if dbType == CloudSQL then CloudSql.NewCloudSQLFromEnv(w.env, w.sql)
    else Err("unsupported database type: " + dbType)
  }

  /** Selecting from the environment and selecting by the same type name
      agree for every type, the empty one standing for sqlite. */
  lemma FromEnvIsWithType(w: World)
    ensures Getenv(w.env, "DATABASE_TYPE") != "" ==> FromEnv(w) == WithType(w.env["DATABASE_TYPE"], w)
    ensures Getenv(w.env, "DATABASE_TYPE") == "" ==> FromEnv(w) == WithType(SQLite, w)
  {
  }

  /** `NewDatabaseServiceWithFallback`: the primary's service when it
      constructs one, otherwise exactly the fallback's result. */
  function WithFallback(primary: string, fallback: string, w: World): (r: Result<Service>)
    ensures WithType(primary, w).Ok? ==> r == WithType(primary, w)
    ensures WithType(primary, w).Err? ==> r == WithType(fallback, w)
  {
    var first := WithType(primary, w);
    if first.Ok? then first else WithType(fallback, w)
  }

  /** A primary that succeeds makes the fallback irrelevant: whichever type
      is named as fallback, the result is the same. */
  lemma FallbackUnusedOnSuccess(primary: string, fallback1: string, fallback2: string, w: World)
    requires WithType(primary, w).Ok?
    ensures WithFallback(primary, fallback1, w) == WithFallback(primary, fallback2, w)
  {
  }

  /** A fallback step fails only if both constructors fail, and then with
      the fallback's error. */
  lemma FallbackErrorIsFallbacks(primary: string, fallback: string, w: World)
    ensures WithFallback(primary, fallback, w).Err? <==> WithType(primary, w).Err? && WithType(fallback, w).Err?
    ensures WithFallback(primary, fallback, w).Err? ==> WithFallback(primary, fallback, w).error == WithType(fallback, w).error
  {
  }
}
