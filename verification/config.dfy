/** Package `config` (config/config.go): the restart policy read from the
    process environment, with a malformed value reported as a
    `*ConfigError`. The environment is passed in as a map. */
module Config {
  import opened Wrappers
  import opened Errors
  import opened GoInt
  import Strconv

  /** The process environment: `os.LookupEnv(k)` finds `env[k]` when `k in env`. */
  type Env = map<string, string>

  const DebugVar: string := "DEBUG"
  const RestartTimeoutVar: string := "RESTART_TIMEOUT"

  datatype Config = Config(debug: bool, restartTimeoutSeconds: int)

  /** `NewConfigError`: tags `err` as configuration-class without altering it. */
  function NewConfigError(err: Error): (r: Error)
    ensures r.ConfigError? && r.inner == err
    ensures IsConfigClass(r)
    ensures Unwrap(r).None?
  {
    ConfigError(err)
  }

  /** `LoadConfig`. `Success` is the non-nil `*Config` with a nil error,
      `Failure` the nil config with a non-nil error. */
  function LoadConfig(env: Env): (r: Result<Config, Error>)
    ensures r.Success? ==> (r.value.debug <==> DebugVar in env)
    ensures r.Success? ==> IsInt64(r.value.restartTimeoutSeconds)
    ensures r.Failure? ==> IsConfigClass(r.error)
    ensures r.Failure? ==>
      && RestartTimeoutVar in env
      && r.error == ConfigError(InvalidRestartTimeout(env[RestartTimeoutVar]))
  {
    var debug := DebugVar in env;
    if RestartTimeoutVar !in env || env[RestartTimeoutVar] == "" then
      Success(Config(debug, 0))
    else
      match Strconv.Atoi(env[RestartTimeoutVar])
      case None => Failure(NewConfigError(InvalidRestartTimeout(env[RestartTimeoutVar])))
      case Some(n) => Success(Config(debug, n))
  }

  /** An unset RESTART_TIMEOUT means "restart immediately". */
  lemma UnsetTimeoutIsZero(env: Env)
    requires RestartTimeoutVar !in env
    ensures LoadConfig(env) == Success(Config(DebugVar in env, 0))
  {
  }

  /** So does a RESTART_TIMEOUT set to the empty string; it is not an error. */
  lemma EmptyTimeoutIsZero(env: Env)
    requires RestartTimeoutVar in env && env[RestartTimeoutVar] == ""
    ensures LoadConfig(env) == Success(Config(DebugVar in env, 0))
  {
  }

  /** The only way to fail: a non-empty RESTART_TIMEOUT that `Atoi` rejects.
      The error is then configuration-class and names the offending value. */
  lemma FailsOnlyOnMalformedTimeout(env: Env)
    ensures LoadConfig(env).Failure? <==>
      RestartTimeoutVar in env && env[RestartTimeoutVar] != "" && Strconv.Atoi(env[RestartTimeoutVar]).None?
    ensures LoadConfig(env).Failure? ==>
      && IsConfigClass(LoadConfig(env).error)
      && RestartTimeoutVar in env
      && LoadConfig(env).error.inner == InvalidRestartTimeout(env[RestartTimeoutVar])
  {
  }

  /** Whatever integer `Atoi` reads, negative ones included, is stored as is. */
  lemma TimeoutStoredExactly(env: Env, n: int)
    requires RestartTimeoutVar in env && Strconv.Atoi(env[RestartTimeoutVar]) == Some(n)
    ensures LoadConfig(env) == Success(Config(DebugVar in env, n))
  {
  }

  /** RESTART_TIMEOUT="-0" parses as 0, not as a negative number, so it
      does not stop the restart loop: it loads as timeout 0. */
  lemma MinusZeroTimeoutIsZero(env: Env)
    requires RestartTimeoutVar in env && env[RestartTimeoutVar] == "-0"
    ensures LoadConfig(env) == Success(Config(DebugVar in env, 0))
  {
    Strconv.AtoiIgnoresPlusAndLeadingZero("0");
  }

  /** Setting RESTART_TIMEOUT to the decimal rendering of any 64-bit `n`
      yields exactly `n`. */
  lemma TimeoutRoundTrip(env: Env, n: int)
    requires IsInt64(n)
    ensures LoadConfig(env[RestartTimeoutVar := Strconv.Itoa(n)]) == Success(Config(DebugVar in env, n))
  {
    Strconv.AtoiOfItoa(n);
    assert DebugVar != RestartTimeoutVar;
  }

  /** DEBUG is a presence flag: any value, even the empty string, turns it on,
      and it never decides success or the timeout. */
  lemma DebugIsPresenceFlag(env: Env, v: string)
    ensures LoadConfig(env[DebugVar := v]).Success? <==> LoadConfig(env - {DebugVar}).Success?
    ensures LoadConfig(env[DebugVar := v]).Success? ==>
      && LoadConfig(env[DebugVar := v]).value.debug
      && !LoadConfig(env - {DebugVar}).value.debug
      && LoadConfig(env[DebugVar := v]).value.restartTimeoutSeconds
         == LoadConfig(env - {DebugVar}).value.restartTimeoutSeconds
  {
    assert DebugVar != RestartTimeoutVar;
    assert RestartTimeoutVar in env[DebugVar := v] <==> RestartTimeoutVar in env - {DebugVar};
    if RestartTimeoutVar in env {
      assert env[DebugVar := v][RestartTimeoutVar] == (env - {DebugVar})[RestartTimeoutVar];
    }
  }
}
