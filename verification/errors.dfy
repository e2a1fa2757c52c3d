/** Go error values as the core produces and inspects them: leaf errors,
    `fmt.Errorf("...: %w", err)` wrapping, and the `*config.ConfigError`
    tag that `main` looks for with `errors.As`. */
module Errors {
  import opened Wrappers

  /** The operation a `%w` wrapper names in its message. */
  datatype Context =
    | NewBot               // main.go:25
    | GetMe                // main.go:31
    | Configure            // main.go:113
    | ProcessingUpdates    // main.go:118
    | WorkerStopped        // main.go:105
    | DecodeSingleResult   // repository/mongo/mongo_repository_user.go:66
    | OpenCursor           // repository/mongo/mongo_repository_user.go:73
    | InsertSubscription   // repository/mongo/mongo_repository_user.go:94
    | FindSubscription     // repository/mongo/mongo_repository_user.go:104
    | DeleteSubscription   // repository/mongo/mongo_repository_user.go:111

  datatype Error =
    /** RESTART_TIMEOUT held something `strconv.Atoi` rejects. */
    | InvalidRestartTimeout(value: string)
    /** BOT_TOKEN is not set. */
    | MissingBotToken
    /** An error raised by code outside the model (the Telegram library). */
    | External(detail: string)
    /** `mongo.ErrNoDocuments`: a single-document lookup matched nothing. */
    | NoDocuments
    /** The server's duplicate-key write error for an `_id` already present. */
    | DuplicateKey(id: int)
    /** The server could not be reached or the operation was aborted. */
    | ConnectionFailure(reason: string)
    /** The driver could not marshal a query filter into a BSON document. */
    | FilterNotDocument
    /** `fmt.Errorf` with a `%w` verb: unwraps to `cause`. */
    | Wrapped(context: Context, cause: Error)
    /** `*config.ConfigError`: embeds `inner` as an interface value, so it
        inherits `Error()` but has no `Unwrap` method. */
    | ConfigError(inner: Error)

  /** `errors.Unwrap`: only `%w` wrappers have an `Unwrap` method. */
  function Unwrap(e: Error): Option<Error> {
    match e
    case Wrapped(_, cause) => Some(cause)
    case _ => None
  }

  /** The chain `errors.As` and `errors.Is` walk: `e`, then `Unwrap(e)`,
      and so on until `Unwrap` yields nil. */
  function Chain(e: Error): (c: seq<Error>)
    ensures |c| >= 1 && c[0] == e
  {
    match Unwrap(e)
    case None => [e]
    case Some(next) => [e] + Chain(next)
  }

  /** `errors.As(e, &cfgErr)` with `cfgErr` of type `*config.ConfigError`. */
  predicate IsConfigClass(e: Error) {
    match e
    case ConfigError(_) => true
    case Wrapped(_, cause) => IsConfigClass(cause)
    case _ => false
  }

  /** The same test on a Go `error` that may be nil: `errors.As(nil, …)` is false. */
  predicate IsConfigOutcome(e: Option<Error>) {
    e.Some? && IsConfigClass(e.value)
  }

  /** `errors.As` finds a `*ConfigError` exactly when one sits somewhere on the
      unwrap chain. */
  lemma {:induction false} ConfigClassIffInChain(e: Error)
    ensures IsConfigClass(e) <==> exists i | 0 <= i < |Chain(e)| :: Chain(e)[i].ConfigError?
  {
    match e
    case Wrapped(ctx, cause) =>
      ConfigClassIffInChain(cause);
      assert Chain(e) == [e] + Chain(cause);
      if IsConfigClass(e) {
        var j :| 0 <= j < |Chain(cause)| && Chain(cause)[j].ConfigError?;
        assert Chain(e)[j + 1] == Chain(cause)[j];
      } else {
        forall i | 0 <= i < |Chain(e)|
          ensures !Chain(e)[i].ConfigError?
        {
          if i > 0 {
            assert Chain(e)[i] == Chain(cause)[i - 1];
          }
        }
      }
    case _ =>
      assert Chain(e) == [e];
  }

  /** Wrapping with `%w` never adds or removes the config tag. */
  lemma WrappingKeepsClass(ctx: Context, e: Error)
    ensures IsConfigClass(Wrapped(ctx, e)) <==> IsConfigClass(e)
    ensures Unwrap(Wrapped(ctx, e)) == Some(e)
  {
  }
}
