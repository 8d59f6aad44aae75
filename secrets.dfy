/** Secret lookup with an environment fallback. The Secret Manager call is
    an oracle: `access` maps a secret version's resource name to its
    payload or the API's error. */
module Secrets {
  import opened Wrappers
  import opened GoStrings
  import opened Environ

  const FallbackProject := "portfolio-420-69"

  /** The project: the first non-empty of three variables, else a fixed one. */
  function ProjectId(env: Env): (p: string)
    ensures Getenv(env, "GOOGLE_CLOUD_PROJECT") != "" ==> p == env["GOOGLE_CLOUD_PROJECT"]
    ensures Getenv(env, "GOOGLE_CLOUD_PROJECT") == "" && Getenv(env, "GCP_PROJECT") != "" ==> p == env["GCP_PROJECT"]
    ensures Getenv(env, "GOOGLE_CLOUD_PROJECT") == "" && Getenv(env, "GCP_PROJECT") == "" && Getenv(env, "GCLOUD_PROJECT") != "" ==>
              p == env["GCLOUD_PROJECT"]
    ensures Getenv(env, "GOOGLE_CLOUD_PROJECT") == "" && Getenv(env, "GCP_PROJECT") == "" && Getenv(env, "GCLOUD_PROJECT") == "" ==>
              p == FallbackProject
    ensures p != ""
  {
    var p1 := Getenv(env, "GOOGLE_CLOUD_PROJECT");
    if p1 != "" then p1
    else
      var p2 := Getenv(env, "GCP_PROJECT");
      if p2 != "" then p2
      else
        var p3 := Getenv(env, "GCLOUD_PROJECT");
        if p3 != "" then p3 else FallbackProject
  }

  /** The path segments of the latest version of `name` in `project`. */
  function ResourceSegments(project: string, name: string): seq<string> {
    ["projects", project, "secrets", name, "versions", "latest"]
  }

  /** `projects/<project>/secrets/<name>/versions/latest`. */
  function ResourceName(project: string, name: string): (path: string)
    ensures path == "projects/" + project + "/secrets/" + name + "/versions/latest"
  {
    var segments := ResourceSegments(project, name);
    assert Join(segments[4..], "/") == "versions/latest" by {
      assert segments[4..][1..] == ["latest"];
    }
    assert Join(segments[3..], "/") == name + "/versions/latest" by {
      assert segments[3..][1..] == segments[4..];
    }
    assert Join(segments[2..], "/") == "secrets/" + name + "/versions/latest" by {
      assert segments[2..][1..] == segments[3..];
    }
    assert Join(segments[1..], "/") == project + "/secrets/" + name + "/versions/latest" by {
      assert segments[1..][1..] == segments[2..];
    }
    Join(segments, "/")
  }

  /** When neither the project nor the secret name contains '/', the
      resource name splits back into its segments, so it names exactly that
      secret of that project. */
  lemma ResourceNameSegments(project: string, name: string)
    requires '/' !in project && '/' !in name
    ensures Split(ResourceName(project, name), '/') == ResourceSegments(project, name)
  {
    SplitJoin(ResourceSegments(project, name), '/');
  }

  /** Distinct well-formed (project, name) pairs have distinct resource
      names. */
  lemma ResourceNameInjective(p1: string, n1: string, p2: string, n2: string)
    requires '/' !in p1 && '/' !in n1 && '/' !in p2 && '/' !in n2
    requires ResourceName(p1, n1) == ResourceName(p2, n2)
    ensures p1 == p2 && n1 == n2
  {
    ResourceNameSegments(p1, n1);
    ResourceNameSegments(p2, n2);
    assert ResourceSegments(p1, n1)[1] == p1 && ResourceSegments(p2, n2)[1] == p2;
  }

  /** `GetSecret`. */
  function GetSecret(env: Env, name: string, access: string -> Result<string>): (r: Result<string>)
    ensures access(ResourceName(ProjectId(env), name)).Err? ==>
              r == Err("failed to access secret " + name + ": " + access(ResourceName(ProjectId(env), name)).error)
    ensures access(ResourceName(ProjectId(env), name)).Ok? ==> r == access(ResourceName(ProjectId(env), name))
  {
    var result := access(ResourceName(ProjectId(env), name));
    if result.Err? then Err("failed to access secret " + name + ": " + result.error)
    else Ok(result.value)
  }

  /** `GetSecretWithFallback`: the secret when the lookup succeeds, even an
      empty one; otherwise the variable, possibly "". */
  function GetSecretWithFallback(env: Env, name: string, envVar: string, access: string -> Result<string>): (v: string)
    ensures GetSecret(env, name, access).Ok? ==> v == GetSecret(env, name, access).value
    ensures GetSecret(env, name, access).Err? ==> v == Getenv(env, envVar)
  {
    var secret := GetSecret(env, name, access);
    if secret.Ok? then secret.value else Getenv(env, envVar)
  }
}
