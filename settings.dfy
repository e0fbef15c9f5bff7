/**
 * src/config/settings.py: the two configuration records, their validation,
 * and their resolution from the process environment, which is passed in
 * explicitly as a map from variable name to value.
 */
module Settings {
  import opened Wrappers
  import opened Text
  import opened Exceptions

  type Env = map<string, string>

  datatype AlpacaConfig = AlpacaConfig(apiKey: string, secretKey: string, paper: bool, baseUrl: Option<string>)

  /** `AlpacaConfig(...)`, whose `__post_init__` refuses an empty key or secret. */
  function NewAlpacaConfig(apiKey: string, secretKey: string, paper: bool, baseUrl: Option<string>)
    : (r: Result<AlpacaConfig, Exception>)
    ensures r.Ok? <==> apiKey != "" && secretKey != ""
    ensures r.Ok? ==> r.value == AlpacaConfig(apiKey, secretKey, paper, baseUrl)
    ensures apiKey == "" ==> r == Err(InvalidConfiguration("Alpaca API key is required"))
    ensures apiKey != "" && secretKey == "" ==> r == Err(InvalidConfiguration("Alpaca secret key is required"))
  {
    if apiKey == "" then Err(InvalidConfiguration("Alpaca API key is required"))
    else if secretKey == "" then Err(InvalidConfiguration("Alpaca secret key is required"))
    else Ok(AlpacaConfig(apiKey, secretKey, paper, baseUrl))
  }

  datatype ServerConfig = ServerConfig(logLevel: string)

  const ValidLogLevels: set<string> := {"DEBUG", "INFO", "WARNING", "ERROR", "CRITICAL"}

  /** `ServerConfig(log_level)`, whose `__post_init__` checks the upper-cased level. */
  function NewServerConfig(logLevel: string): (r: Result<ServerConfig, Exception>)
    ensures r.Ok? <==> Upper(logLevel) in ValidLogLevels
    ensures r.Ok? ==> r.value.logLevel == logLevel
    ensures r.Err? ==> r.error == InvalidConfiguration("Invalid log level: " + logLevel)
  {
    if Upper(logLevel) in ValidLogLevels then Ok(ServerConfig(logLevel))
    else Err(InvalidConfiguration("Invalid log level: " + logLevel))
  }

  /** `os.getenv(key)` */
  function Getenv(env: Env, key: string): Option<string> {
    if key in env then Some(env[key]) else None
  }

  /** Python's `a or b` on two results of `os.getenv`: `a` unless it is `None` or empty. */
  function OrElse(a: Option<string>, b: Option<string>): Option<string> {
    if a.Some? && a.value != "" then a else b
  }

  predicate Falsy(v: Option<string>) {
    v.None? || v.value == ""
  }

  /** The variable is set to a non-empty value. */
  predicate HasValue(env: Env, key: string) {
    key in env && env[key] != ""
  }

  const ApiKeyMissing := "API key is required. Set one of: ALPACA_API_KEY, or API_KEY_ID"
  const SecretKeyMissing := "Secret key is required. Set one of: ALPACA_SECRET_KEY, or API_SECRET_KEY"

  /**
   * The paper-trading flag. With ALPACA_PAPER unset the source looks at
   * APCA_API_BASE_URL, but both outcomes of that test choose "true".
   */
  function PaperFlag(env: Env): bool {
    var paperEnv := if "ALPACA_PAPER" in env then env["ALPACA_PAPER"] else "true";
    Lower(paperEnv) == "true"
  }

  /** `load_alpaca_config` */
  function LoadAlpacaConfig(env: Env): (r: Result<AlpacaConfig, Exception>)
    ensures r.Ok? <==> ((HasValue(env, "ALPACA_API_KEY") || HasValue(env, "API_KEY_ID"))
                        && (HasValue(env, "ALPACA_SECRET_KEY") || HasValue(env, "API_SECRET_KEY")))
    ensures !HasValue(env, "ALPACA_API_KEY") && !HasValue(env, "API_KEY_ID") ==>
              r == Err(InvalidConfiguration(ApiKeyMissing))
    ensures (HasValue(env, "ALPACA_API_KEY") || HasValue(env, "API_KEY_ID"))
            && !HasValue(env, "ALPACA_SECRET_KEY") && !HasValue(env, "API_SECRET_KEY") ==>
              r == Err(InvalidConfiguration(SecretKeyMissing))
    ensures r.Ok? ==> r.value.apiKey == if HasValue(env, "ALPACA_API_KEY") then env["ALPACA_API_KEY"] else env["API_KEY_ID"]
    ensures r.Ok? ==> r.value.secretKey == if HasValue(env, "ALPACA_SECRET_KEY") then env["ALPACA_SECRET_KEY"] else env["API_SECRET_KEY"]
    ensures r.Ok? ==> (r.value.paper <==> "ALPACA_PAPER" !in env || Lower(env["ALPACA_PAPER"]) == "true")
    ensures r.Ok? ==> r.value.baseUrl == if HasValue(env, "ALPACA_BASE_URL") then Some(env["ALPACA_BASE_URL"])
                                         else Getenv(env, "APCA_API_BASE_URL")
  {
    var apiKey := OrElse(Getenv(env, "ALPACA_API_KEY"), Getenv(env, "API_KEY_ID"));
    var secretKey := OrElse(Getenv(env, "ALPACA_SECRET_KEY"), Getenv(env, "API_SECRET_KEY"));
    var paper := PaperFlag(env);
    var baseUrl := OrElse(Getenv(env, "ALPACA_BASE_URL"), Getenv(env, "APCA_API_BASE_URL"));
    assert Lower("true") == "true";
    if Falsy(apiKey) then Err(InvalidConfiguration(ApiKeyMissing))
    else if Falsy(secretKey) then Err(InvalidConfiguration(SecretKeyMissing))
    else NewAlpacaConfig(apiKey.value, secretKey.value, paper, baseUrl)
  }

  /**
   * With ALPACA_PAPER unset, trading is on paper whatever APCA_API_BASE_URL
   * holds: changing or removing the base URL never changes the flag.
   */
  lemma PaperByDefault(env: Env, url: string)
    requires "ALPACA_PAPER" !in env
    ensures LoadAlpacaConfig(env).Ok? ==> LoadAlpacaConfig(env).value.paper
    ensures LoadAlpacaConfig(env["APCA_API_BASE_URL" := url]).Ok? ==>
              LoadAlpacaConfig(env["APCA_API_BASE_URL" := url]).value.paper
  {
  }

  /**
   * The loader's own checks run first, so a configuration it builds always
   * passes `AlpacaConfig.__post_init__`: its errors are only the loader's two.
   */
  lemma LoaderChecksSubsumeValidation(env: Env)
    ensures LoadAlpacaConfig(env).Err? ==>
              LoadAlpacaConfig(env).error in {InvalidConfiguration(ApiKeyMissing), InvalidConfiguration(SecretKeyMissing)}
    ensures LoadAlpacaConfig(env).Ok? ==>
              var c := LoadAlpacaConfig(env).value;
              NewAlpacaConfig(c.apiKey, c.secretKey, c.paper, c.baseUrl) == Ok(c)
  {
  }

  /** `load_server_config`: LOG_LEVEL, defaulting to "INFO". */
  function LoadServerConfig(env: Env): (r: Result<ServerConfig, Exception>)
    ensures "LOG_LEVEL" !in env ==> r == Ok(ServerConfig("INFO"))
    ensures "LOG_LEVEL" in env ==> r == NewServerConfig(env["LOG_LEVEL"])
  {
    var level := if "LOG_LEVEL" in env then env["LOG_LEVEL"] else "INFO";
    assert Upper("INFO") == "INFO";
    NewServerConfig(level)
  }

  /** Log levels are accepted in any case; anything outside the five names is refused. */
  lemma LogLevelExamples()
    ensures NewServerConfig("debug").Ok? && NewServerConfig("Warning").Ok?
    ensures NewServerConfig("TRACE").Err? && NewServerConfig("").Err?
  {
    assert Upper("debug") == "DEBUG";
    assert Upper("Warning") == "WARNING";
    assert Upper("TRACE") == "TRACE";
  }
}
