/** Configuration lookup. The process environment is a map from names to
    values; a name outside the map is an unset variable. */
module EnvVar {
  import opened Wrappers
  import opened Errors

  type Environment = map<string, string>

  /** An unset or empty variable gives the default; anything else is
      returned unchanged. */
  function GetEnvVarOrDefault(env: Environment, key: string, defaultValue: string): (r: string)
    ensures key !in env ==> r == defaultValue
    ensures key in env && env[key] == "" ==> r == defaultValue
    ensures key in env && env[key] != "" ==> r == env[key]
    ensures r == "" ==> defaultValue == ""
  {
    if key !in env || env[key] == "" then defaultValue else env[key]
  }

  /** A required variable: unset or empty fails with
      "Required environment variable <key>". */
  function GetEnvVar(env: Environment, key: string): (r: Result<string, Failure>)
    ensures r.Failure? <==> key !in env || env[key] == ""
    ensures r.Failure? ==> r.error == MissingEnvVar(key)
    ensures r.Failure? ==> Message(r.error) == "Required environment variable " + key
    ensures r.Success? ==> key in env && r.value == env[key] && r.value != ""
  {
    if key !in env || env[key] == "" then Failure(MissingEnvVar(key)) else Success(env[key])
  }

  /** The two lookups agree wherever the required one succeeds, whatever the
      default; where it fails, the optional one returns its default. */
  lemma RequiredAgreesWithDefault(env: Environment, key: string, defaultValue: string)
    ensures GetEnvVar(env, key).Success? ==> GetEnvVarOrDefault(env, key, defaultValue) == GetEnvVar(env, key).value
    ensures GetEnvVar(env, key).Failure? ==> GetEnvVarOrDefault(env, key, defaultValue) == defaultValue
  {
  }
}
