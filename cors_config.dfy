/** `GetCORSConfig`: the CORS settings chosen from the environment. */
module CorsConfig {
  import opened GoStrings
  import opened Environ
  import opened Cors

  /** The origins used when `CORS_ALLOWED_ORIGINS` is empty. */
  const DefaultOrigins := [
    "http://localhost:3000", "http://localhost:3001", "http://localhost:3002", "http://localhost:3003",
    "http://127.0.0.1:3000", "http://127.0.0.1:3001", "http://127.0.0.1:3002", "http://127.0.0.1:3003",
    "https://nirvekpandey.com"]

  /** Each piece trimmed of white space, in place. */
  function TrimAll(pieces: seq<string>): (r: seq<string>)
    ensures |r| == |pieces|
    ensures forall i :: 0 <= i < |r| ==> r[i] == TrimSpace(pieces[i])
  {
    seq(|pieces|, i requires 0 <= i < |pieces| => TrimSpace(pieces[i]))
  }

  /** Whether the environment asks for development mode. */
  predicate DevMode(env: Env) {
    Getenv(env, "ENVIRONMENT") == "development" || Getenv(env, "ENV") == "dev"
  }

  /** The allowed origins for an environment. */
  function OriginsFor(env: Env): (origins: seq<string>)
    ensures DevMode(env) ==> origins == ["*"]
    ensures !DevMode(env) && Getenv(env, "CORS_ALLOWED_ORIGINS") == "" ==> origins == DefaultOrigins
    ensures !DevMode(env) && Getenv(env, "CORS_ALLOWED_ORIGINS") != "" ==>
              origins == TrimAll(Split(env["CORS_ALLOWED_ORIGINS"], ','))
  {
    if DevMode(env) then ["*"]
    else
      var v := Getenv(env, "CORS_ALLOWED_ORIGINS");
      if v == "" then DefaultOrigins else TrimAll(Split(v, ','))
  }

  /** The whole configuration for an environment. */
  function ConfigFor(env: Env): (c: CORSConfig)
    ensures c.allowedOrigins == OriginsFor(env)
    ensures c.allowedMethods == Methods && c.allowedHeaders == AllowedHeaderNames && c.exposedHeaders == ExposedHeaderNames
    ensures c.allowCredentials && c.maxAge == 86400
  {
    CORSConfig(OriginsFor(env), Methods, AllowedHeaderNames, ExposedHeaderNames, true, 86400)
  }

  /** The trimming loop: each element replaced by its trimmed self. */
  method TrimInPlace(origins: array<string>)
    modifies origins
    ensures origins[..] == TrimAll(old(origins[..]))
  {
    ghost var pieces := origins[..];
    for i := 0 to origins.Length
      invariant origins[..i] == TrimAll(pieces)[..i]
      invariant origins[i..] == pieces[i..]
    {
      assert origins[i] == pieces[i];
      origins[i] := TrimSpace(origins[i]);
      assert origins[..i + 1] == origins[..i] + [origins[i]];
    }
    assert origins[..] == origins[..origins.Length];
  }

  /** `GetCORSConfig`: split the variable at commas, trim each piece in
      place, and apply the development override last. */
  method GetCORSConfig(env: Env) returns (config: CORSConfig)
    ensures config == ConfigFor(env)
  {
    config := CORSConfig([], Methods, AllowedHeaderNames, ExposedHeaderNames, true, 86400);
    var allowedOriginsEnv := Getenv(env, "CORS_ALLOWED_ORIGINS");
    if allowedOriginsEnv != "" {
      var pieces := Split(allowedOriginsEnv, ',');
      var origins := new string[|pieces|](i requires 0 <= i < |pieces| => pieces[i]);
      assert origins[..] == pieces;
      TrimInPlace(origins);
      assert origins[..] == TrimAll(Split(allowedOriginsEnv, ','));
      config := config.(allowedOrigins := origins[..]);
    } else {
      config := config.(allowedOrigins := DefaultOrigins);
    }
    if Getenv(env, "ENVIRONMENT") == "development" || Getenv(env, "ENV") == "dev" {
      config := config.(allowedOrigins := ["*"]);
    }
  }

  /** Every environment yields at least one origin and one method, with
      credentials allowed. */
  lemma {:induction false} ConfigNeverEmpty(env: Env)
    ensures |ConfigFor(env).allowedOrigins| >= 1 && |ConfigFor(env).allowedMethods| >= 1
    ensures ConfigFor(env).allowCredentials
  {
    if !DevMode(env) && Getenv(env, "CORS_ALLOWED_ORIGINS") != "" {
      assert |Split(env["CORS_ALLOWED_ORIGINS"], ',')| >= 1;
    }
  }

  /** The origin list from the variable keeps one entry per comma-separated
      piece, in order: joining the untrimmed pieces gives the variable back. */
  lemma OriginsKeepPieces(env: Env)
    requires !DevMode(env) && Getenv(env, "CORS_ALLOWED_ORIGINS") != ""
    ensures |OriginsFor(env)| == |Split(env["CORS_ALLOWED_ORIGINS"], ',')|
    ensures Join(Split(env["CORS_ALLOWED_ORIGINS"], ','), [',']) == env["CORS_ALLOWED_ORIGINS"]
  {
    JoinSplit(env["CORS_ALLOWED_ORIGINS"], ',');
  }

  /** The middleware's own default configuration is the configuration of
      every environment with fewer origins: all three of its origins are
      among the defaults used when the variable is empty. */
  lemma DefaultConfigIsNarrower(env: Env)
    ensures DefaultCORSConfig() == ConfigFor(env).(allowedOrigins := DefaultCORSConfig().allowedOrigins)
    ensures forall o :: o in DefaultCORSConfig().allowedOrigins ==> o in DefaultOrigins
  {
  }

  /** Only the origins depend on the environment. */
  lemma OnlyOriginsVary(env1: Env, env2: Env)
    ensures ConfigFor(env1).(allowedOrigins := []) == ConfigFor(env2).(allowedOrigins := [])
  {
  }
}
