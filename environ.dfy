/** The process environment, as a map from variable name to value. */
module Environ {
  type Env = map<string, string>

  /** `os.Getenv`: the variable's value, or "" when it is unset, so that an
      unset variable and one set to "" read the same. Form fields and query
      parameters are read by the same rule. */
  function Getenv(env: Env, key: string): (v: string)
    ensures key in env ==> v == env[key]
    ensures key !in env ==> v == ""
  {
    if key in env then env[key] else ""
  }
}
