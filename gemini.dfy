/**
 * The Gemini client as the four wrapper modules (utils/ai_assistant.py,
 * utils/job_matcher.py, utils/skill_extractor.py, utils/translator.py) use it.
 * Each of them keeps its own module-level `_client`, filled lazily by its own
 * `get_client()`; `ClientCache` is one such global.
 *
 * The remote call itself is not modelled: its result is an input, an
 * `Outcome` (the response text, an empty response, or the exception raised).
 */
module Gemini {
  import opened Wrappers
  import opened PyStr
  import Config

  /** What the code inside a wrapper's `try` gets from a remote call. */
  datatype Outcome<T> = Text(value: T) | Empty | Fail(msg: string)

  /** A configured `genai.Client`. */
  datatype Client = Client(apiKey: string)

  const KeyMissingMessage: string :=
    "Gemini API key not configured. Set GEMINI_API_KEY (or GOOGLE_API_KEY) in your environment."

  /**
   * The raw key `get_client` picks: `GEMINI_API_KEY or GOOGLE_API_KEY or
   * Config.GEMINI_API_KEY`, read from the environment at call time. An
   * environment value is taken when it is non-empty, even if it is blank.
   */
  function ChosenKey(env: map<string, string>, configKey: Option<string>): (r: Option<string>)
    ensures "GEMINI_API_KEY" in env && env["GEMINI_API_KEY"] != "" ==> r == Some(env["GEMINI_API_KEY"])
    ensures ("GEMINI_API_KEY" !in env || env["GEMINI_API_KEY"] == "") && "GOOGLE_API_KEY" in env && env["GOOGLE_API_KEY"] != "" ==>
      r == Some(env["GOOGLE_API_KEY"])
    ensures ("GEMINI_API_KEY" !in env || env["GEMINI_API_KEY"] == "") && ("GOOGLE_API_KEY" !in env || env["GOOGLE_API_KEY"] == "") ==>
      r == configKey
  {
    var fromEnv := Config.EnvOr(env, "GEMINI_API_KEY", "GOOGLE_API_KEY");
    if fromEnv != None && fromEnv.value != "" then fromEnv else configKey
  }

  /**
   * The key `get_client` configures: the chosen one, cleaned like
   * `_clean_env_value`; nothing left after cleaning is the `ValueError`.
   */
  function ResolveApiKey(env: map<string, string>, configKey: Option<string>): (r: Result<string>)
    ensures r.Ok? <==> Config.CleanEnvValue(ChosenKey(env, configKey)).Some? && Config.CleanEnvValue(ChosenKey(env, configKey)).value != ""
    ensures r.Ok? ==> Config.CleanEnvValue(ChosenKey(env, configKey)) == Some(r.value)
    ensures r.Err? ==> r.msg == KeyMissingMessage
  {
    var key := Config.CleanEnvValue(ChosenKey(env, configKey));
    if key == None || key.value == "" then Err(KeyMissingMessage) else Ok(key.value)
  }

  /** A key from the environment is a non-empty piece of its raw value, with no quote left at either end. */
  lemma ResolvedKeyTrimmed(env: map<string, string>, configKey: Option<string>)
    requires ResolveApiKey(env, configKey).Ok?
    ensures var k := ResolveApiKey(env, configKey).value;
      k != "" && Contains(ChosenKey(env, configKey).value, k) && k[0] != '\'' && k[|k| - 1] != '\''
  {
  }

  /** A usable `GEMINI_API_KEY` wins over `GOOGLE_API_KEY` and over the configured key. */
  lemma GeminiKeyWins(env: map<string, string>, configKey: Option<string>)
    requires "GEMINI_API_KEY" in env && Config.CleanEnvValue(Some(env["GEMINI_API_KEY"])).Some?
    requires Config.CleanEnvValue(Some(env["GEMINI_API_KEY"])).value != ""
    ensures ResolveApiKey(env, configKey) == Ok(Config.CleanEnvValue(Some(env["GEMINI_API_KEY"])).value)
  {
  }

  /** With neither variable set, the configured key is the one used. */
  lemma ConfigKeyLast(env: map<string, string>, configKey: Option<string>)
    requires "GEMINI_API_KEY" !in env && "GOOGLE_API_KEY" !in env
    ensures ResolveApiKey(env, configKey) ==
      (var k := Config.CleanEnvValue(configKey); if k.Some? && k.value != "" then Ok(k.value) else Err(KeyMissingMessage))
  {
  }

  /**
   * `get_client()` against the cached client `cached`: the client it returns
   * (or the exception) and the cache afterwards.
   */
  function GetClient(cached: Option<Client>, env: map<string, string>, configKey: Option<string>): (r: (Result<Client>, Option<Client>))
    ensures cached.Some? ==> r == (Ok(cached.value), cached)
    ensures cached.None? && r.0.Err? ==> r.1 == None && r.0.msg == KeyMissingMessage
    ensures r.0.Ok? ==> r.1 == Some(r.0.value)
    ensures cached.None? ==> (r.0.Ok? <==> ResolveApiKey(env, configKey).Ok?)
    ensures cached.None? && r.0.Ok? ==> r.0.value == Client(ResolveApiKey(env, configKey).value)
  {
    if cached.Some? then (Ok(cached.value), cached)
    else
      match ResolveApiKey(env, configKey)
      case Ok(k) => (Ok(Client(k)), Some(Client(k)))
      case Err(m) => (Err(m), None)
  }

  /**
   * `get_client().models.generate_content(...)` inside a `try`: the `ValueError`
   * of a missing key comes out as a failure with its message, and `remote`,
   * the result of the call, is seen only when a client exists.
   */
  function CallRemote<T>(cached: Option<Client>, env: map<string, string>, configKey: Option<string>, remote: Outcome<T>): (r: (Outcome<T>, Option<Client>))
    ensures GetClient(cached, env, configKey).0.Ok? ==> r.0 == remote
    ensures GetClient(cached, env, configKey).0.Err? ==> r.0 == Fail(KeyMissingMessage)
    ensures r.1 == GetClient(cached, env, configKey).1
  {
    var (c, after) := GetClient(cached, env, configKey);
    if c.Ok? then (remote, after) else (Fail(c.msg), after)
  }

  /** Once a client is cached, later calls return that same client whatever the environment says then. */
  lemma ClientCreatedOnce(cached: Option<Client>, env1: map<string, string>, key1: Option<string>,
                          env2: map<string, string>, key2: Option<string>)
    requires GetClient(cached, env1, key1).0.Ok?
    ensures var (c1, after) := GetClient(cached, env1, key1);
      GetClient(after, env2, key2) == (c1, after)
  {
  }

  /** A failed `get_client()` leaves nothing cached, so the next call tries the environment again. */
  lemma FailureCachesNothing(env1: map<string, string>, key1: Option<string>, env2: map<string, string>, key2: Option<string>)
    requires GetClient(None, env1, key1).0.Err?
    ensures GetClient(GetClient(None, env1, key1).1, env2, key2) == GetClient(None, env2, key2)
  {
  }

  /** A blank `GEMINI_API_KEY` hides `GOOGLE_API_KEY`: it is chosen first, cleaned to nothing, and the call fails. */
  lemma BlankGeminiKeyHidesGoogleKey(google: string)
    ensures ResolveApiKey(map["GEMINI_API_KEY" := " ", "GOOGLE_API_KEY" := google], None).Err?
  {
    Config.BlankCleansToEmpty(" ");
  }

  /** A module's `_client` global. */
  class ClientCache {
    var client: Option<Client>

    /** The global before the first call. */
    constructor()
      ensures client == None
    {
      client := None;
    }

    /** The remote call of a wrapper, `get_client()` included: the outcome its `try` sees. */
    method Call<T>(env: map<string, string>, configKey: Option<string>, remote: Outcome<T>) returns (o: Outcome<T>)
      modifies this
      ensures (o, client) == CallRemote(old(client), env, configKey, remote)
    {
      if client == None {
        var key := ResolveApiKey(env, configKey);
        if key.Err? {
          return Fail(key.msg);
        }
        client := Some(Client(key.value));
      }
      o := remote;
    }
  }
}
