/** The root package's own copy of `LoadConfig` (config.go). It reads the
    same variables the same way, but its parse error is a plain error
    rather than a `*ConfigError`. */
module RootConfig {
  import opened Wrappers
  import opened Errors
  import opened GoInt
  import Strconv
  import C = Config

  /** The root `LoadConfig`; `C.Config` stands for the root package's
      identically shaped `Config` struct. */
  function LoadConfig(env: C.Env): (r: Result<C.Config, Error>)
    ensures r.Success? ==> (r.value.debug <==> C.DebugVar in env)
    ensures r.Failure? ==> !IsConfigClass(r.error)
  {
    var debug := C.DebugVar in env;
    if C.RestartTimeoutVar !in env || env[C.RestartTimeoutVar] == "" then
      Success(C.Config(debug, 0))
    else
      match Strconv.Atoi(env[C.RestartTimeoutVar])
      case None => Failure(InvalidRestartTimeout(env[C.RestartTimeoutVar]))
      case Some(n) => Success(C.Config(debug, n))
  }

  /** Unset or empty RESTART_TIMEOUT gives 0 here too. */
  lemma UnsetOrEmptyTimeoutIsZero(env: C.Env)
    requires C.RestartTimeoutVar !in env || env[C.RestartTimeoutVar] == ""
    ensures LoadConfig(env) == Success(C.Config(C.DebugVar in env, 0))
  {
  }

  /** Every 64-bit integer survives the trip through the environment. */
  lemma TimeoutRoundTrip(env: C.Env, n: int)
    requires IsInt64(n)
    ensures LoadConfig(env[C.RestartTimeoutVar := Strconv.Itoa(n)]) == Success(C.Config(C.DebugVar in env, n))
  {
    Strconv.AtoiOfItoa(n);
    assert C.DebugVar != C.RestartTimeoutVar;
  }

  /** The two copies agree on every environment except for the tag: they
      succeed on the same inputs with the same configuration, and where the
      package copy fails with `NewConfigError(e)` this one fails with `e`,
      which `errors.As` does not recognise as configuration-class. */
  lemma AgreesWithConfigPackage(env: C.Env)
    ensures LoadConfig(env).Success? <==> C.LoadConfig(env).Success?
    ensures LoadConfig(env).Success? ==> LoadConfig(env).value == C.LoadConfig(env).value
    ensures LoadConfig(env).Failure? ==>
      && C.LoadConfig(env).error == C.NewConfigError(LoadConfig(env).error)
      && !IsConfigClass(LoadConfig(env).error)
  {
  }
}
