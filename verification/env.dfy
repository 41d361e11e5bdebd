/** The process environment, modelled as a map from variable names to values. */
module Env {
  import opened Wrappers

  type Environment = map<string, string>

  /** `os.getenv(name)`: the value, or None when the variable is unset. */
  function Lookup(env: Environment, name: string): (r: Option<string>)
    ensures r.Some? <==> name in env
    ensures r.Some? ==> r.value == env[name]
  {
    if name in env then Some(env[name]) else None
  }

  /** `os.getenv(name, default)`: a set variable wins even when its value is empty. */
  function GetEnv(env: Environment, name: string, default: string): (r: string)
    ensures name in env ==> r == env[name]
    ensures name !in env ==> r == default
  {
    match Lookup(env, name)
    case Some(v) => v
    case None => default
  }

  /** A set variable's value is returned even when it is empty, and the
      default only matters for an unset variable. */
  lemma GetEnvSetWins(env: Environment, name: string, value: string, default: string, default': string)
    ensures GetEnv(env[name := value], name, default) == value
    ensures GetEnv(env[name := value], name, default) == GetEnv(env[name := value], name, default')
  {
  }

  /** An unset variable gives the default, whatever else is set. */
  lemma GetEnvUnset(env: Environment, name: string, default: string)
    ensures GetEnv(env - {name}, name, default) == default
  {
  }
}
