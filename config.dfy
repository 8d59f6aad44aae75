/** Application configuration read from the environment. */
module Config {
  import opened Environ

  /** `getEnv`: the variable when it is non-empty, else the default; a
      variable set to "" counts as unset. */
  function GetEnv(env: Env, key: string, defaultValue: string): (v: string)
    ensures key in env && env[key] != "" ==> v == env[key]
    ensures key !in env || env[key] == "" ==> v == defaultValue
  {
    var value := Getenv(env, key);
    if value != "" then value else defaultValue
  }

  datatype AppConfig = AppConfig(
    grpcPort: string,
    httpPort: string,
    googleDriveCredentialsPath: string,
    googleDriveFolderID: string,
    googleMapsAPIKey: string,
    cloudSQLConnectionName: string,
    cloudSQLDatabase: string,
    cloudSQLUser: string,
    cloudSQLPassword: string,
    databaseURL: string)

  /** The variables `LoadConfig` reads, in field order. */
  const Variables := ["GRPC_PORT", "HTTP_PORT", "GOOGLE_DRIVE_CREDENTIALS_PATH", "GOOGLE_DRIVE_FOLDER_ID",
                      "GOOGLE_MAPS_API_KEY", "CLOUD_SQL_CONNECTION_NAME", "CLOUD_SQL_DATABASE", "CLOUD_SQL_USER",
                      "CLOUD_SQL_PASSWORD", "DATABASE_URL"]

  /** The default of each variable: three have one, the rest default to "". */
  function DefaultOf(key: string): (d: string)
    ensures key !in {"GRPC_PORT", "HTTP_PORT", "GOOGLE_DRIVE_CREDENTIALS_PATH"} ==> d == ""
  {
    if key == "GRPC_PORT" then "50051"
    else if key == "HTTP_PORT" then "8080"
    else if key == "GOOGLE_DRIVE_CREDENTIALS_PATH" then "credentials.json"
    else ""
  }

  /** The field of `c` that variable number `i` sets. */
  function Field(c: AppConfig, i: nat): string
    requires i < |Variables|
  {
    if i == 0 then c.grpcPort
    else if i == 1 then c.httpPort
    else if i == 2 then c.googleDriveCredentialsPath
    else if i == 3 then c.googleDriveFolderID
    else if i == 4 then c.googleMapsAPIKey
    else if i == 5 then c.cloudSQLConnectionName
    else if i == 6 then c.cloudSQLDatabase
    else if i == 7 then c.cloudSQLUser
    else if i == 8 then c.cloudSQLPassword
    else c.databaseURL
  }

  /** `LoadConfig`: each field is its variable, or that variable's default. */
  function LoadConfig(env: Env): (c: AppConfig)
  {
    AppConfig(
      GetEnv(env, "GRPC_PORT", "50051"),
      GetEnv(env, "HTTP_PORT", "8080"),
      GetEnv(env, "GOOGLE_DRIVE_CREDENTIALS_PATH", "credentials.json"),
      GetEnv(env, "GOOGLE_DRIVE_FOLDER_ID", ""),
      GetEnv(env, "GOOGLE_MAPS_API_KEY", ""),
      GetEnv(env, "CLOUD_SQL_CONNECTION_NAME", ""),
      GetEnv(env, "CLOUD_SQL_DATABASE", ""),
      GetEnv(env, "CLOUD_SQL_USER", ""),
      GetEnv(env, "CLOUD_SQL_PASSWORD", ""),
      GetEnv(env, "DATABASE_URL", ""))
  }

  /** Field `i` of the loaded configuration is variable `i`, or its default. */
  lemma LoadConfigReadsVariable(env: Env, i: nat)
    requires i < |Variables|
    ensures Field(LoadConfig(env), i) == GetEnv(env, Variables[i], DefaultOf(Variables[i]))
  {
  }

  /** With no variables set, the ports and credentials path take their
      defaults and every other field is "". */
  lemma EmptyEnvironmentDefaults()
    ensures LoadConfig(map[]) == AppConfig("50051", "8080", "credentials.json", "", "", "", "", "", "", "")
  {
  }

  /** Each field depends only on its own variable: setting any other
      variable leaves field `j` as it was. */
  lemma FieldsIndependent(env: Env, key: string, value: string, j: nat)
    requires j < |Variables| && key != Variables[j]
    ensures Field(LoadConfig(env[key := value]), j) == Field(LoadConfig(env), j)
  {
    LoadConfigReadsVariable(env, j);
    LoadConfigReadsVariable(env[key := value], j);
    assert Getenv(env[key := value], Variables[j]) == Getenv(env, Variables[j]);
  }

  /** Variables outside the ten leave the configuration unchanged. */
  lemma OtherVariablesIgnored(env: Env, key: string, value: string)
    requires key !in Variables
    ensures LoadConfig(env[key := value]) == LoadConfig(env)
  {
    forall j | 0 <= j < |Variables|
      ensures Getenv(env[key := value], Variables[j]) == Getenv(env, Variables[j])
    {
    }
  }
}
