/** The SQLite store used for local development: the data source default,
    the schema, and the constructor. */
module Sqlite {
  import opened Wrappers
  import opened Environ
  import opened Store
  import opened Backends

  /** `SQLITE_DB_PATH`, or an in-memory database when it is empty. */
  function DbPath(env: Env): (path: string)
    ensures Getenv(env, "SQLITE_DB_PATH") != "" ==> path == env["SQLITE_DB_PATH"]
    ensures Getenv(env, "SQLITE_DB_PATH") == "" ==> path == ":memory:"
    ensures path != ""
  {
    var p := Getenv(env, "SQLITE_DB_PATH");
    if p == "" then ":memory:" else p
  }

  datatype Column = Column(name: string, sqlType: string, defaultValue: Option<string>)
  datatype ForeignKey = ForeignKey(column: string, refTable: string, refColumn: string, onDeleteCascade: bool)
  /** A `CREATE TABLE IF NOT EXISTS` statement's table. */
  datatype Table = Table(name: string, columns: seq<Column>, primaryKey: string, foreignKey: Option<ForeignKey>)

  const ImagesTable := Table("images", [
    Column("id", "TEXT", None),
    Column("title", "TEXT", None),
    Column("description", "TEXT", None),
    Column("drive_file_id", "TEXT", None),
    Column("created_at", "DATETIME", Some("CURRENT_TIMESTAMP")),
    Column("updated_at", "DATETIME", Some("CURRENT_TIMESTAMP"))], "id", None)

  const LocationsTable := Table("locations", [
    Column("image_id", "TEXT", None),
    Column("latitude", "REAL", None),
    Column("longitude", "REAL", None),
    Column("name", "TEXT", None),
    Column("country", "TEXT", None),
    Column("city", "TEXT", None),
    Column("address", "TEXT", None)], "image_id", Some(ForeignKey("image_id", "images", "id", true)))

  datatype Statement = CreateTable(table: Table) | CreateIndex(name: string, on: string, column: string)

  const Indexes := [
    CreateIndex("idx_images_created_at", "images", "created_at"),
    CreateIndex("idx_locations_image_id", "locations", "image_id")]

  /** The schema statements in the order they run. */
  function Schema(): (stmts: seq<Statement>)
    ensures |stmts| == 2 + |Indexes| && stmts[2..] == Indexes
  {
    [CreateTable(ImagesTable), CreateTable(LocationsTable)] + Indexes
  }

  /** How a failure of the schema statement at `i` is reported. */
  function StepError(i: nat, e: string): string {
    if i == 0 then "failed to create images table: " + e
    else if i == 1 then "failed to create locations table: " + e
    else "failed to create index: " + e
  }

  /** The error schema creation reports: the first failing statement's,
      scanning from `from`. */
  function FirstFailure(exec: Statement -> Outcome, from: nat): (err: Option<string>)
    requires from <= |Schema()|
    decreases |Schema()| - from
  {
    if from == |Schema()| then None
    else if exec(Schema()[from]).Some? then Some(StepError(from, exec(Schema()[from]).value))
    else FirstFailure(exec, from + 1)
  }

  /** Schema creation fails iff some statement fails, and then with the
      first failing statement's error; every statement before it ran. */
  lemma {:induction false} FirstFailureIsFirst(exec: Statement -> Outcome, from: nat)
    requires from <= |Schema()|
    ensures FirstFailure(exec, from).None? <==> forall i :: from <= i < |Schema()| ==> exec(Schema()[i]).None?
    ensures FirstFailure(exec, from).Some? ==>
              exists i :: from <= i < |Schema()| && exec(Schema()[i]).Some?
                && (forall j :: from <= j < i ==> exec(Schema()[j]).None?)
                && FirstFailure(exec, from) == Some(StepError(i, exec(Schema()[i]).value))
    decreases |Schema()| - from
  {
    if from < |Schema()| && exec(Schema()[from]).None? {
      FirstFailureIsFirst(exec, from + 1);
    }
  }

  /** `createSQLiteTables`: the two tables, then each index, stopping at the
      first failure. */
  method CreateSQLiteTables(exec: Statement -> Outcome) returns (err: Option<string>)
    ensures err == FirstFailure(exec, 0)
  {
    var imagesErr := exec(CreateTable(ImagesTable));
    if imagesErr.Some? {
      return Some("failed to create images table: " + imagesErr.value);
    }
    var locationsErr := exec(CreateTable(LocationsTable));
    if locationsErr.Some? {
      return Some("failed to create locations table: " + locationsErr.value);
    }
    assert FirstFailure(exec, 0) == FirstFailure(exec, 2);
    for i := 0 to |Indexes|
      invariant FirstFailure(exec, 0) == FirstFailure(exec, 2 + i)
    {
      var indexErr := exec(Indexes[i]);
      if indexErr.Some? {
        return Some("failed to create index: " + indexErr.value);
      }
    }
    return None;
  }

  /** The pool a SQLite handle gets: one open and one idle connection. */
  const SqlitePool := Pool(Some(1), Some(1), None)

  /** What `NewSQLiteDatabase` yields, as a function of the environment and
      the oracles. */
  function SQLiteOutcome(env: Env, sql: Sql, exec: Statement -> Outcome): (r: Result<Service>)
    ensures sql.open("sqlite3", DbPath(env)).Some? ==>
              r == Err("failed to open SQLite database: " + sql.open("sqlite3", DbPath(env)).value)
    ensures sql.open("sqlite3", DbPath(env)).None? && sql.ping("sqlite3", DbPath(env)).Some? ==>
              r == Err("failed to ping database: " + sql.ping("sqlite3", DbPath(env)).value)
    ensures sql.open("sqlite3", DbPath(env)).None? && sql.ping("sqlite3", DbPath(env)).None? && FirstFailure(exec, 0).Some? ==>
              r == Err("failed to create tables: " + FirstFailure(exec, 0).value)
    ensures r.Ok? <==> sql.open("sqlite3", DbPath(env)).None? && sql.ping("sqlite3", DbPath(env)).None? && FirstFailure(exec, 0).None?
    ensures r.Ok? ==> r.value == Service(Typed, Handle("sqlite3", DbPath(env), SqlitePool))
  {
    var path := DbPath(env);
    var openErr := sql.open("sqlite3", path);
    if openErr.Some? then Err("failed to open SQLite database: " + openErr.value)
    else
      var pingErr := sql.ping("sqlite3", path);
      if pingErr.Some? then Err("failed to ping database: " + pingErr.value)
      else
        var tablesErr := FirstFailure(exec, 0);
        if tablesErr.Some? then Err("failed to create tables: " + tablesErr.value)
        else Ok(Service(Typed, Handle("sqlite3", path, SqlitePool)))
  }

  /** `NewSQLiteDatabase`: open, ping, create the schema, then set the pool. */
  method NewSQLiteDatabase(env: Env, sql: Sql, exec: Statement -> Outcome) returns (r: Result<Service>)
    ensures r == SQLiteOutcome(env, sql, exec)
  {
    var path := DbPath(env);
    var openErr := sql.open("sqlite3", path);
    if openErr.Some? {
      return Err("failed to open SQLite database: " + openErr.value);
    }
    var pingErr := sql.ping("sqlite3", path);
    if pingErr.Some? {
      return Err("failed to ping database: " + pingErr.value);
    }
    var tablesErr := CreateSQLiteTables(exec);
    if tablesErr.Some? {
      return Err("failed to create tables: " + tablesErr.value);
    }
    return Ok(Service(Typed, Handle("sqlite3", path, SqlitePool)));
  }
}
