/**
 * Parameter lookup (app/core/config.py): a secret is read from the SSM
 * parameter store when running inside Lambda, otherwise from an environment
 * variable whose name is derived from the parameter path, with a default and
 * an error as fallbacks.
 */
module Settings {
  import opened Base
  import opened Text

  /** The process environment. */
  type Env = map<string, string>

  const ExecutionEnvVar: string := "AWS_EXECUTION_ENV"
  const BucketEnvVar: string := "WEATHER_BUCKET_NAME"
  const OpenRouterKeyPath: string := "/fitted/openrouter-api-key"
  const WeatherKeyPath: string := "/fitted/weather-api-key"

  /** SSM mode is on exactly when the Lambda execution variable is set (to anything). */
  predicate UseSsm(env: Env) { ExecutionEnvVar in env }

  /** `/fitted/openrouter-api-key` -> `OPENROUTER_API_KEY`: last path segment, upper-cased, '-' -> '_'. */
  function EnvVarName(parameterName: string): (r: string)
    ensures '/' !in r && '-' !in r
    ensures forall i :: 0 <= i < |r| ==> !IsLower(r[i])
  {
    SplitPiecesFree(parameterName, '/');
    Replace(Upper(Last(Split(parameterName, '/'))), '-', '_')
  }

  lemma EnvVarNameOfPath(prefix: string, last: string)
    requires '/' !in last
    ensures EnvVarName(prefix + "/" + last) == Replace(Upper(last), '-', '_')
  {
    SplitLastPiece(prefix, '/', last);
  }

  lemma SegmentEnvNameOpenRouter()
    ensures Replace(Upper("openrouter-api-key"), '-', '_') == "OPENROUTER_API_KEY"
  {
    UpperOpenRouter();
  }

  lemma UpperOpenRouter()
    ensures Upper("openrouter-api-key") == "OPENROUTER-API-KEY"
  {
  }

  lemma SegmentEnvNameWeather()
    ensures Replace(Upper("weather-api-key"), '-', '_') == "WEATHER_API_KEY"
  {
    UpperWeather();
  }

  lemma UpperWeather()
    ensures Upper("weather-api-key") == "WEATHER-API-KEY"
  {
  }

  lemma OpenRouterEnvVarName()
    ensures EnvVarName(OpenRouterKeyPath) == "OPENROUTER_API_KEY"
  {
    assert OpenRouterKeyPath == "/fitted" + "/" + "openrouter-api-key";
    EnvVarNameOfPath("/fitted", "openrouter-api-key");
    SegmentEnvNameOpenRouter();
  }

  lemma WeatherEnvVarName()
    ensures EnvVarName(WeatherKeyPath) == "WEATHER_API_KEY"
  {
    assert WeatherKeyPath == "/fitted" + "/" + "weather-api-key";
    EnvVarNameOfPath("/fitted", "weather-api-key");
    SegmentEnvNameWeather();
  }

  /** A derived name maps to itself: the derivation is idempotent. */
  lemma EnvVarNameIdempotent(parameterName: string)
    ensures EnvVarName(EnvVarName(parameterName)) == EnvVarName(parameterName)
  {
    var r := EnvVarName(parameterName);
    SplitNoSep(r, '/');
    assert Upper(r) == r;
    assert Replace(r, '-', '_') == r;
  }

  datatype ParameterError =
    | NotFound(parameterName: string)                  // ValueError: neither SSM nor environment
    | SsmFailed(parameterName: string, message: string)  // the SSM error, re-raised

  /**
   * What `get_parameter` returns. `ssmAnswer` is what the parameter store
   * answers (the value, or the error it raises); it is consulted only in SSM mode.
   */
  function ParameterLookup(useSsm: bool, parameterName: string, default: Option<string>, env: Env,
                           ssmAnswer: Result<string, string>): Result<string, ParameterError>
  {
    if useSsm then
      match ssmAnswer
      case Success(v) => Success(v)
      case Failure(msg) =>
        if default.Some? then Success(default.value) else Failure(SsmFailed(parameterName, msg))
    else
      var name := EnvVarName(parameterName);
      if name in env then Success(env[name])
      else if default.Some? then Success(default.value)
      else Failure(NotFound(parameterName))
  }

  /** In SSM mode the environment is never read. */
  lemma SsmIgnoresEnv(parameterName: string, default: Option<string>, env1: Env, env2: Env,
                      ssmAnswer: Result<string, string>)
    ensures ParameterLookup(true, parameterName, default, env1, ssmAnswer)
         == ParameterLookup(true, parameterName, default, env2, ssmAnswer)
  {
  }

  /**
   * The cases of a lookup. In SSM mode: the stored value, else the default,
   * else the SSM error. Locally: a set variable wins over the default, even
   * when it is empty; an unset one gives the default, or the not-found error.
   */
  lemma ParameterLookupCases(useSsm: bool, parameterName: string, default: Option<string>, env: Env,
                             ssmAnswer: Result<string, string>)
    ensures var r := ParameterLookup(useSsm, parameterName, default, env, ssmAnswer);
      var name := EnvVarName(parameterName);
      (useSsm ==>
        (ssmAnswer.Success? ==> r == Success(ssmAnswer.value)) &&
        (ssmAnswer.Failure? && default.Some? ==> r == Success(default.value)) &&
        (r.Failure? <==> ssmAnswer.Failure? && default.None?) &&
        (r.Failure? ==> r.error == SsmFailed(parameterName, ssmAnswer.error))) &&
      (!useSsm && name in env ==> r == Success(env[name])) &&
      (!useSsm && name !in env && default.Some? ==> r == Success(default.value)) &&
      (!useSsm && name !in env && default.None? ==> r == Failure(NotFound(parameterName)))
  {
  }

  /** Locally, a variable set to "" is returned as it is, not treated as unset. */
  lemma LocalEmptyValueReturned(parameterName: string, default: Option<string>, env: Env,
                                ssmAnswer: Result<string, string>)
    requires EnvVarName(parameterName) in env && env[EnvVarName(parameterName)] == ""
    ensures ParameterLookup(false, parameterName, default, env, ssmAnswer) == Success("")
  {
  }

  /** The OpenRouter key, read locally from OPENROUTER_API_KEY with no default. */
  lemma LocalOpenRouterKey(env: Env, ssmAnswer: Result<string, string>)
    ensures var r := ParameterLookup(false, OpenRouterKeyPath, None, env, ssmAnswer);
      if "OPENROUTER_API_KEY" in env then r == Success(env["OPENROUTER_API_KEY"]) else r == Failure(NotFound(OpenRouterKeyPath))
  {
    OpenRouterEnvVarName();
  }

  /** `weather_bucket_name`: the environment variable, or None; SSM is never consulted. */
  function WeatherBucketName(env: Env): (r: Option<string>)
    ensures r.Some? <==> BucketEnvVar in env
    ensures r.Some? ==> r.value == env[BucketEnvVar]
  {
    if BucketEnvVar in env then Some(env[BucketEnvVar]) else None
  }

  /** Stands for the boto3 SSM client; only its identity matters here. */
  class SsmClient {
    constructor ()
    {
    }
  }

  class Config {
    const useSsm: bool
    var ssmClient: SsmClient?

    constructor (env: Env)
      ensures useSsm == UseSsm(env)
      ensures ssmClient == null
    {
      useSsm := UseSsm(env);
      ssmClient := null;
    }

    /** The client is created on first use and the same object is returned afterwards. */
    method GetSsmClient() returns (client: SsmClient)
      modifies this
      ensures ssmClient == client
      ensures old(ssmClient) != null ==> client == old(ssmClient)
      ensures old(ssmClient) == null ==> fresh(client)
    {
      if ssmClient == null {
        ssmClient := new SsmClient();
      }
      client := ssmClient;
    }

    /** `get_parameter`; the client is touched (and so created) only in SSM mode. */
    method GetParameter(parameterName: string, default: Option<string>, env: Env,
                        ssmAnswer: Result<string, string>) returns (r: Result<string, ParameterError>)
      modifies this
      ensures r == ParameterLookup(useSsm, parameterName, default, env, ssmAnswer)
      ensures useSsm ==> ssmClient != null && (old(ssmClient) != null ==> ssmClient == old(ssmClient))
      ensures !useSsm ==> ssmClient == old(ssmClient)
    {
      if useSsm {
        var client := GetSsmClient();
        match ssmAnswer {
          case Success(v) =>
            r := Success(v);
          case Failure(msg) =>
            if default.Some? {
              r := Success(default.value);
            } else {
              r := Failure(SsmFailed(parameterName, msg));
            }
        }
        return;
      }
      var name := EnvVarName(parameterName);
      var value := if name in env then Some(env[name]) else default;
      if value.None? {
        r := Failure(NotFound(parameterName));
        return;
      }
      r := Success(value.value);
    }

    method OpenRouterApiKey(env: Env, ssmAnswer: Result<string, string>) returns (r: Result<string, ParameterError>)
      modifies this
      ensures r == ParameterLookup(useSsm, OpenRouterKeyPath, None, env, ssmAnswer)
    {
      r := GetParameter(OpenRouterKeyPath, None, env, ssmAnswer);
    }

    method WeatherApiKey(env: Env, ssmAnswer: Result<string, string>) returns (r: Result<string, ParameterError>)
      modifies this
      ensures r == ParameterLookup(useSsm, WeatherKeyPath, None, env, ssmAnswer)
    {
      r := GetParameter(WeatherKeyPath, None, env, ssmAnswer);
    }
  }

  /** Two reads of the client in a row give the same object. */
  method SsmClientReused(config: Config) returns (first: SsmClient, second: SsmClient)
    modifies config
    ensures first == second
  {
    first := config.GetSsmClient();
    second := config.GetSsmClient();
  }
}
