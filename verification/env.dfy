/** Configuration readers over an environment map (packages/sdk/src/env.ts).
    The process environment is an explicit parameter: a key that is absent
    from the map is `undefined` in the source. `Number(raw)` is the oracle
    `toNumber`, which yields `None` when the conversion is NaN or infinite. */
module Env {
  import opened Base
  import opened Errors

  type EnvMap = map<string, string>

  function Lookup(env: EnvMap, key: string): Option<string>
  {
    if key in env then Some(env[key]) else None
  }

  /** `env.NEO_APIKEY ?? env.neo_apikey`. */
  function ReadNeoApiKeyFromEnv(env: EnvMap): (r: Option<string>)
    ensures "NEO_APIKEY" in env ==> r == Some(env["NEO_APIKEY"])
    ensures "NEO_APIKEY" !in env ==> (r.Some? <==> "neo_apikey" in env)
    ensures "NEO_APIKEY" !in env && r.Some? ==> r.value == env["neo_apikey"]
  {
    match Lookup(env, "NEO_APIKEY")
    case Some(k) => Some(k)
    case None => Lookup(env, "neo_apikey")
  }

  const MissingKeyMessage := "Missing API key. Set NEO_APIKEY (alias: neo_apikey) or pass apiKey explicitly."

  /** `requireNeoApiKey`: an absent, empty or all-white-space key is an auth
      error; any other key is returned as given, untrimmed. */
  function RequireNeoApiKey(apiKey: Option<string>): (r: Result<string, Thrown>)
    ensures r.Ok? <==> apiKey.Some? && exists i :: 0 <= i < |apiKey.value| && !IsJsWhitespace(apiKey.value[i])
    ensures r.Ok? ==> r.value == apiKey.value
    ensures r.Err? ==> r.error == Neo(NewError(Auth, MissingKeyMessage, NoOptions))
  {
    if apiKey.None? || apiKey.value == "" || Trim(apiKey.value) == "" then
      Err(Neo(NewError(Auth, MissingKeyMessage, NoOptions)))
    else
      Ok(apiKey.value)
  }

  /** `env.NEO_BASE_URL`, verbatim, with no lower-case alias. */
  function ReadNeoBaseUrlFromEnv(env: EnvMap): (r: Option<string>)
    ensures r.Some? <==> "NEO_BASE_URL" in env
    ensures r.Some? ==> r.value == env["NEO_BASE_URL"]
  {
    Lookup(env, "NEO_BASE_URL")
  }

  /** `env.NEO_MODEL`, verbatim, with no lower-case alias. */
  function ReadNeoModelFromEnv(env: EnvMap): (r: Option<string>)
    ensures r.Some? <==> "NEO_MODEL" in env
    ensures r.Some? ==> r.value == env["NEO_MODEL"]
  {
    Lookup(env, "NEO_MODEL")
  }

  /** `readNeoTimeoutMsFromEnv`: absent or empty gives nothing; otherwise
      the number the text converts to, when that number is finite. */
  function ReadNeoTimeoutMsFromEnv(env: EnvMap, toNumber: string -> Option<real>): (r: Option<real>)
    ensures ("NEO_TIMEOUT_MS" !in env || env["NEO_TIMEOUT_MS"] == "") ==> r.None?
    ensures "NEO_TIMEOUT_MS" in env && env["NEO_TIMEOUT_MS"] != "" ==> r == toNumber(env["NEO_TIMEOUT_MS"])
  {
    match Lookup(env, "NEO_TIMEOUT_MS")
    case None => None
    case Some(raw) => if raw == "" then None else toNumber(raw)
  }

  /** The readers look at their own keys only: changing any other variable
      leaves every reading unchanged. */
  lemma {:induction false} ReadersIgnoreOtherKeys(env: EnvMap, key: string, v: string, toNumber: string -> Option<real>)
    requires key !in {"NEO_APIKEY", "neo_apikey", "NEO_BASE_URL", "NEO_MODEL", "NEO_TIMEOUT_MS"}
    ensures ReadNeoApiKeyFromEnv(env[key := v]) == ReadNeoApiKeyFromEnv(env)
    ensures ReadNeoBaseUrlFromEnv(env[key := v]) == ReadNeoBaseUrlFromEnv(env)
    ensures ReadNeoModelFromEnv(env[key := v]) == ReadNeoModelFromEnv(env)
    ensures ReadNeoTimeoutMsFromEnv(env[key := v], toNumber) == ReadNeoTimeoutMsFromEnv(env, toNumber)
  {
  }
}
