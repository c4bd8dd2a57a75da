/** The process environment as the source reads it through `process.env`. */
module Env {
  import opened Wrappers

  type Environment = map<string, string>

  /** `!!process.env[name]`: the variable is set and not the empty string. */
  predicate IsSet(env: Environment, name: string) {
    name in env && env[name] != ""
  }

  /** `process.env[name] || fallback`: an unset or empty variable yields the fallback. */
  function GetOr(env: Environment, name: string, fallback: string): (r: string)
    ensures IsSet(env, name) ==> r == env[name]
    ensures !IsSet(env, name) ==> r == fallback
  {
    if IsSet(env, name) then env[name] else fallback
  }
}
