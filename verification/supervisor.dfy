/** Package `main` (main.go) without its Telegram and concurrency glue: how
    `configureBot` and `launchBot` classify failures, how
    `startProcessingUpdates` picks its result once the workers have joined,
    and the restart loop in `main`. Each launch's dependence on the outside
    world is an `Attempt`; a run of `main` is recorded as a `Trace`. */
module Supervisor {
  import opened Wrappers
  import opened Errors
  import opened GoInt
  import C = Config

  const BotTokenVar: string := "BOT_TOKEN"

  /** A configured Telegram client, known here only by its token. */
  datatype Bot = Bot(token: string)

  /** `configureBot`: look up BOT_TOKEN, then build the client and call
      `getMe`; `newBot` and `getMe` are the errors those library calls
      return (`None` for nil). */
  function ConfigureBot(env: C.Env, newBot: Option<Error>, getMe: Option<Error>): (r: Result<Bot, Error>)
    ensures r.Success? <==> BotTokenVar in env && newBot.None? && getMe.None?
    ensures r.Success? ==> r.value.token == env[BotTokenVar]
    ensures BotTokenVar !in env ==> r == Failure(MissingBotToken)
  {
    if BotTokenVar !in env then Failure(MissingBotToken)
    else if newBot.Some? then Failure(Wrapped(NewBot, newBot.value))
    else if getMe.Some? then Failure(Wrapped(GetMe, getMe.value))
    else Success(Bot(env[BotTokenVar]))
  }

  /** The tail of `startProcessingUpdates`, after every worker has exited:
      the cancellation cause if one was recorded, wrapped; otherwise the
      context's own error. `cause` is `context.Cause(ctxx)` and `ctxErr` is
      `ctxx.Err()`; the context library records a cause exactly when it
      cancels the context, so without a cause the context's error is nil. */
  function PoolResult(cause: Option<Error>, ctxErr: Option<Error>): (r: Option<Error>)
    requires cause.None? ==> ctxErr.None?
    ensures r.None? <==> cause.None?
    ensures cause.Some? ==> r.Some? && r.value.Wrapped? && Unwrap(r.value) == cause
    ensures cause.None? ==> r == ctxErr
  {
    match cause
    case Some(e) => Some(Wrapped(WorkerStopped, e))
    case None => ctxErr
  }

  /** Everything one `launchBot` call depends on besides the environment:
      the errors of `telego.NewBot` and `GetMe`, and what
      `startProcessingUpdates` returned. */
  datatype Attempt = Attempt(newBot: Option<Error>, getMe: Option<Error>, processing: Option<Error>)

  /** `launchBot`: a configuration failure is tagged as a `*ConfigError`, a
      processing failure is only wrapped. */
  function LaunchBot(env: C.Env, a: Attempt): (r: Option<Error>)
    ensures r.None? <==> ConfigureBot(env, a.newBot, a.getMe).Success? && a.processing.None?
    ensures ConfigureBot(env, a.newBot, a.getMe).Failure? ==> IsConfigOutcome(r)
    ensures ConfigureBot(env, a.newBot, a.getMe).Success? ==> (IsConfigOutcome(r) <==> IsConfigOutcome(a.processing))
    ensures BotTokenVar !in env ==> r == Some(ConfigError(Wrapped(Configure, MissingBotToken)))
  {
    match ConfigureBot(env, a.newBot, a.getMe)
    case Failure(e) => Some(C.NewConfigError(Wrapped(Configure, e)))
    case Success(_) =>
      match a.processing
      case Some(e) => Some(Wrapped(ProcessingUpdates, e))
      case None => None
  }

  datatype Status =
    /** Still in the loop when the recorded attempts ran out. */
    | Running
    /** The process ended with this exit code. */
    | Exited(code: int)

  /** One run of `main`: how many times `launchBot` was called, the seconds
      each `time.Sleep` between launches was asked for, and how it ended. */
  datatype Trace = Trace(launches: nat, delays: seq<int>, status: Status)

  /** The `for` loop of `main`, fed the results of successive `launchBot`
      calls; the length of `outcomes` bounds how far the loop is followed. */
  function Supervise(cfg: C.Config, outcomes: seq<Option<Error>>): (t: Trace)
    ensures |t.delays| <= t.launches <= |outcomes|
    ensures forall i | 0 <= i < |t.delays| :: t.delays[i] == cfg.restartTimeoutSeconds
    ensures forall i | 0 <= i < |t.delays| :: !IsConfigOutcome(outcomes[i])
    ensures t.status == Running ==> t.launches == |outcomes| == |t.delays|
    ensures t.status.Exited? ==> t.launches == |t.delays| + 1 && (t.status.code == 0 || t.status.code == 1)
    ensures t.status == Exited(1) ==> IsConfigOutcome(outcomes[t.launches - 1])
    ensures t.status == Exited(0) ==> cfg.restartTimeoutSeconds < 0
  {
    if outcomes == [] then Trace(0, [], Running)
    else if IsConfigOutcome(outcomes[0]) then Trace(1, [], Exited(1))
    else if cfg.restartTimeoutSeconds < 0 then Trace(1, [], Exited(0))
    else
      var rest := Supervise(cfg, outcomes[1..]);
      Trace(rest.launches + 1, [cfg.restartTimeoutSeconds] + rest.delays, rest.status)
  }

  /** The results `launchBot` returns for a sequence of attempts. */
  function Launches(env: C.Env, attempts: seq<Attempt>): seq<Option<Error>> {
    seq(|attempts|, i requires 0 <= i < |attempts| => LaunchBot(env, attempts[i]))
  }

  /** `main`: load the configuration, exiting with 1 before any launch if that
      fails, then supervise. */
  function Main(env: C.Env, attempts: seq<Attempt>): (t: Trace)
    ensures C.LoadConfig(env).Failure? ==> t == Trace(0, [], Exited(1))
    ensures t.launches <= |attempts|
    ensures t.status == Exited(0) ==> C.LoadConfig(env).Success? && C.LoadConfig(env).value.restartTimeoutSeconds < 0
  {
    match C.LoadConfig(env)
    case Failure(_) => Trace(0, [], Exited(1))
    case Success(cfg) => Supervise(cfg, Launches(env, attempts))
  }

  /** A configuration-class outcome ends the process with 1 at once: no
      sleep, no further launch. */
  lemma ConfigOutcomeExitsAtOnce(cfg: C.Config, outcomes: seq<Option<Error>>)
    requires |outcomes| > 0 && IsConfigOutcome(outcomes[0])
    ensures Supervise(cfg, outcomes) == Trace(1, [], Exited(1))
  {
  }

  /** A nil result and an operational error take the same path: the loop only
      looks at whether an outcome is configuration-class. */
  lemma {:induction false} OnlyConfigClassMatters(cfg: C.Config, a: seq<Option<Error>>, b: seq<Option<Error>>)
    requires |a| == |b|
    requires forall i | 0 <= i < |a| :: IsConfigOutcome(a[i]) <==> IsConfigOutcome(b[i])
    ensures Supervise(cfg, a) == Supervise(cfg, b)
  {
    if |a| > 0 && !IsConfigOutcome(a[0]) && cfg.restartTimeoutSeconds >= 0 {
      OnlyConfigClassMatters(cfg, a[1..], b[1..]);
    }
  }

  /** With a negative RESTART_TIMEOUT and a first outcome that is not
      configuration-class, `launchBot` runs once and `main` returns (exit 0). */
  lemma NegativeTimeoutLaunchesOnce(cfg: C.Config, outcomes: seq<Option<Error>>)
    requires cfg.restartTimeoutSeconds < 0
    requires |outcomes| > 0 && !IsConfigOutcome(outcomes[0])
    ensures Supervise(cfg, outcomes) == Trace(1, [], Exited(0))
  {
  }

  /** With a non-negative RESTART_TIMEOUT and no configuration-class outcome
      the loop never ends: every launch is followed by a sleep of exactly the
      configured length, since `cfg` is never changed. */
  lemma {:induction false} NonNegativeTimeoutNeverExits(cfg: C.Config, outcomes: seq<Option<Error>>)
    requires cfg.restartTimeoutSeconds >= 0
    requires forall i | 0 <= i < |outcomes| :: !IsConfigOutcome(outcomes[i])
    ensures Supervise(cfg, outcomes)
      == Trace(|outcomes|, seq(|outcomes|, _ => cfg.restartTimeoutSeconds), Running)
  {
    if outcomes != [] {
      NonNegativeTimeoutNeverExits(cfg, outcomes[1..]);
      assert [cfg.restartTimeoutSeconds] + seq(|outcomes| - 1, _ => cfg.restartTimeoutSeconds)
          == seq(|outcomes|, _ => cfg.restartTimeoutSeconds);
    }
  }

  /** With a non-negative RESTART_TIMEOUT the process exits with 1 right after
      the first configuration-class outcome, having slept once after every
      earlier launch. */
  lemma {:induction false} FirstConfigOutcomeExits(cfg: C.Config, outcomes: seq<Option<Error>>, k: nat)
    requires cfg.restartTimeoutSeconds >= 0
    requires k < |outcomes| && IsConfigOutcome(outcomes[k])
    requires forall i | 0 <= i < k :: !IsConfigOutcome(outcomes[i])
    ensures Supervise(cfg, outcomes) == Trace(k + 1, seq(k, _ => cfg.restartTimeoutSeconds), Exited(1))
  {
    if k > 0 {
      FirstConfigOutcomeExits(cfg, outcomes[1..], k - 1);
      assert [cfg.restartTimeoutSeconds] + seq(k - 1, _ => cfg.restartTimeoutSeconds)
          == seq(k, _ => cfg.restartTimeoutSeconds);
    }
  }

  /** Without BOT_TOKEN every launch is a configuration failure, so `main`
      launches once and exits with 1. */
  lemma MissingBotTokenExitsOne(env: C.Env, attempts: seq<Attempt>)
    requires C.LoadConfig(env).Success?
    requires BotTokenVar !in env && |attempts| > 0
    ensures Main(env, attempts) == Trace(1, [], Exited(1))
  {
    assert Launches(env, attempts)[0] == LaunchBot(env, attempts[0]);
  }

  /** `time.Second`, in the nanoseconds a `time.Duration` counts. */
  const Second: int := 1_000_000_000

  /** The largest number of seconds whose `time.Duration` fits in 64 bits. */
  const MaxExactSleepSeconds: int := MaxInt64 / Second

  /** `time.Duration(timeoutSeconds) * time.Second`, the argument `main`
      passes to `time.Sleep`: a 64-bit product that wraps around. */
  function SleepDuration(seconds: Int64): (d: Int64)
    ensures 0 <= seconds <= MaxExactSleepSeconds ==> d == seconds * Second
    ensures (d - seconds * Second) % TwoTo64 == 0
  {
    Wrap64(seconds * Second)
  }

  /** One second more than `MaxExactSleepSeconds` wraps to a negative
      duration, for which `time.Sleep` returns at once: the loop relaunches
      without pausing. */
  lemma OverflowingTimeoutSleepsNegative()
    ensures SleepDuration(MaxExactSleepSeconds + 1) < 0
  {
    assert MaxExactSleepSeconds == 9_223_372_036;
    assert SleepDuration(9_223_372_037) == 9_223_372_037 * Second - TwoTo64;
  }

  /** The conversion with the evident intent: the requested number of
      seconds, capped at the longest representable duration. */
  function SaturatingSleepDuration(seconds: Int64): (d: Int64)
    ensures -MaxExactSleepSeconds <= seconds <= MaxExactSleepSeconds ==> d == seconds * Second
    ensures seconds > 0 ==> d >= Second
    ensures seconds >= 0 ==> d >= 0
  {
    if seconds > MaxExactSleepSeconds then MaxInt64
    else if seconds < -MaxExactSleepSeconds then MinInt64
    else seconds * Second
  }

  /** A longer timeout never yields a shorter sleep. */
  lemma SaturatingSleepIsMonotone(a: Int64, b: Int64)
    requires a <= b
    ensures SaturatingSleepDuration(a) <= SaturatingSleepDuration(b)
  {
  }
}
