/** Environment variables and the `process.env.KEY || fallback` idiom. */
module Env {

  /** The process environment: variable names to their string values. */
  type Environment = map<string, string>

  /** A variable is truthy when it is present and not the empty string:
      JavaScript treats `''` as false. */
  predicate IsSet(env: Environment, key: string) {
    key in env && env[key] != ""
  }

  /** `env[key] || fallback`. */
  function Or(env: Environment, key: string, fallback: string): string {
    if IsSet(env, key) then env[key] else fallback
  }
}
