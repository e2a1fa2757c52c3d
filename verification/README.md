# WeddingEventBot core, modelled in Dafny

A Dafny model of the sequential core of a Telegram wedding bot written in Go:

- **Restart policy configuration** (`config/config.go`, and its root-package
  copy `config.go`): `LoadConfig` reads `DEBUG` as a presence flag and
  `RESTART_TIMEOUT` as a decimal integer (default 0 when unset or empty). A
  malformed value is an error, tagged as a `*ConfigError` in package `config`
  and left untagged in the root copy. The environment is a `map<string, string>`,
  and `strconv.Atoi`/`strconv.Itoa` are modelled on a 64-bit platform
  (`Strconv`).
- **Supervisor** (`main.go`): `configureBot` and `launchBot` classify failures,
  the tail of `startProcessingUpdates` selects its result, and `main` loads
  the configuration, launches the bot, and exits 1, breaks (exit 0) or sleeps
  and relaunches. Every launch's dependence on Telegram is an `Attempt` of
  error values. A run is a `Trace`: the number of launches, the seconds each
  sleep asked for, and the exit status. The outcome sequence bounds the run,
  so a loop that never ends shows up as `Running`.
- **User repository** (`repository/mongo/mongo_repository_user.go`): the
  store is a `Database` of two collections. Each collection is a map from
  `int64` `_id` to a document, either a user document (`MakeMongoUser`) or a
  bare-id document (`MakeMongoID`). Whether the server is reachable is a
  `Link` passed to each call.

Go errors are a datatype (`Errors.Error`). `%w` wrapping is `Wrapped`, and
`errors.As(err, &cfgErr)` is `IsConfigClass`, proved equal to "a
`ConfigError` lies on the unwrap chain".

Assumption about the database server, which the repository code relies on
but does not show: `InsertOne` with an `_id` already in the collection fails,
because of MongoDB's unique `_id` index. `MongoStore.InsertOne` is defined
that way. A `FindOne` that matches nothing yields `ErrNoDocuments`.

Subscriptions are kept in the remember collection, not in the subscribe
collection the repository declares. Because of the unique `_id` index, a
second `Subscribe` of the same id fails
(`UserRepository.SubscribeOccupiedIdFails`).

## Model

| member | source | states |
|---|---|---|
| Errors.ConfigClassIffInChain | main.go:133-134 | `errors.As` finds a `*ConfigError` exactly when one lies on the `Unwrap` chain; the chain stops at a `ConfigError`, which has no `Unwrap` |
| Errors.WrappingKeepsClass | main.go:117-119 | wrapping with `%w` neither adds nor removes the config tag, and unwraps back to the cause |
| Strconv.Atoi | config/config.go:24 | a parsed value is always a 64-bit integer from a well-formed optional-sign-then-digits string, and its sign follows a leading `-` |
| Strconv.AtoiOfItoa | config/config.go:24-28 | parsing the decimal rendering of any 64-bit integer, negatives included, gives it back |
| Strconv.ItoaOfAtoi | config/config.go:24-28 | a canonical decimal string that parses is exactly the rendering of its value |
| Strconv.AtoiIgnoresPlusAndLeadingZero | config/config.go:24 | a leading `+`, a leading `0`, or a `0` right after a `-` does not change what `Atoi` accepts or returns; "-0" parses as 0 |
| Config.NewConfigError | config/config.go:34-40 | the result holds `err` unchanged, is recognised as configuration-class, and has no `Unwrap` |
| Config.LoadConfig | config/config.go:14-32 | on success `debug` is the presence of DEBUG and the timeout is a 64-bit integer; on failure the error is a `ConfigError` naming the RESTART_TIMEOUT value |
| Config.UnsetTimeoutIsZero | config/config.go:20-22 | unset RESTART_TIMEOUT gives timeout 0 and no error |
| Config.EmptyTimeoutIsZero | config/config.go:21-22 | an empty RESTART_TIMEOUT gives timeout 0, not an error |
| Config.FailsOnlyOnMalformedTimeout | config/config.go:14-32 | loading fails if and only if RESTART_TIMEOUT is set, non-empty and rejected by `Atoi`; DEBUG never causes failure; the error is configuration-class |
| Config.TimeoutStoredExactly | config/config.go:24-28 | whatever integer `Atoi` reads, negative or not, is stored unclamped |
| Config.MinusZeroTimeoutIsZero | config/config.go:24-28 | RESTART_TIMEOUT="-0" loads as timeout 0, which is not negative, so the restart loop does not stop on it |
| Config.TimeoutRoundTrip | config/config.go:24-28 | RESTART_TIMEOUT set to the rendering of any 64-bit `n` loads as exactly `n` |
| Config.DebugIsPresenceFlag | config/config.go:17-18 | any DEBUG value, even empty, turns `debug` on; its presence changes neither success nor the timeout |
| RootConfig.LoadConfig | config.go:14-32 | on success `debug` is the presence of DEBUG; a failure is never configuration-class |
| RootConfig.UnsetOrEmptyTimeoutIsZero | config.go:20-22 | unset or empty RESTART_TIMEOUT gives timeout 0 |
| RootConfig.TimeoutRoundTrip | config.go:24-28 | every 64-bit integer is stored exactly, negatives included |
| RootConfig.AgreesWithConfigPackage | config.go:24-27 | both copies succeed on the same environments with the same result; where package `config` fails with `NewConfigError(e)`, the root copy fails with the untagged `e` |
| Supervisor.ConfigureBot | main.go:16-37 | succeeds iff BOT_TOKEN is set and both library calls succeed; a missing token is the `MissingBotToken` error; the bot carries the token |
| Supervisor.PoolResult | main.go:104-107 | given the context library's invariant that a cause is recorded exactly when the context is cancelled: a recorded cause is returned wrapped and unwraps to that cause; the result is nil iff no cause was recorded, so the fallback to the context's own error always yields nil |
| Supervisor.LaunchBot | main.go:110-122 | nil iff configuration and processing both succeeded; every configuration failure (missing BOT_TOKEN included) is configuration-class; a processing failure is configuration-class only if its cause was |
| Supervisor.Supervise | main.go:131-148 | launches never exceed the outcomes supplied; every sleep is the configured timeout and follows a non-config outcome; exit 1 only right after a config-class outcome, exit 0 only with a negative timeout; a running loop has slept once per launch |
| Supervisor.Main | main.go:124-150 | a configuration load failure exits 1 with no launch; exit 0 only with a negative configured timeout |
| Supervisor.ConfigOutcomeExitsAtOnce | main.go:133-137 | a config-class outcome exits 1 at once, with no sleep and no further launch |
| Supervisor.OnlyConfigClassMatters | main.go:138-147 | nil and non-config errors take the same path: traces agree whenever outcomes agree on config-classness |
| Supervisor.NegativeTimeoutLaunchesOnce | main.go:142-145 | negative timeout and a non-config first outcome: exactly one launch, then exit 0 |
| Supervisor.NonNegativeTimeoutNeverExits | main.go:131-148 | non-negative timeout and no config-class outcome: the loop is still running after every launch, each followed by a sleep of exactly the configured seconds |
| Supervisor.FirstConfigOutcomeExits | main.go:131-148 | non-negative timeout: exit 1 right after the first config-class outcome, having slept the configured seconds after every earlier launch |
| Supervisor.MissingBotTokenExitsOne | main.go:17-20 | without BOT_TOKEN, `main` launches once and exits 1 |
| Supervisor.SleepDuration | main.go:147 | the duration passed to `time.Sleep` is the 64-bit wrapped product; it is exact for 0 to 9223372036 seconds |
| Supervisor.OverflowingTimeoutSleepsNegative | main.go:147 | 9223372037 seconds wraps to a negative duration, so no pause happens |
| Supervisor.SaturatingSleepDuration | main.go:147 | corrected conversion: exact within range, at least one second for a positive timeout, never negative for a non-negative one |
| Supervisor.SaturatingSleepIsMonotone | main.go:147 | under the corrected conversion a longer timeout never gives a shorter sleep |
| MongoStore.InsertOne | repository/mongo/mongo_repository_user.go:59 | succeeds iff the server is reachable and the `_id` is new; it adds exactly that document and keeps the others; a taken `_id` is a duplicate-key error |
| MongoStore.FindOne | repository/mongo/mongo_repository_user.go:63 | returns the document under the `_id`, `ErrNoDocuments` when there is none, a connection error when unreachable |
| MongoStore.DeleteOne | repository/mongo/mongo_repository_user.go:109 | removes exactly that `_id`, if present, and keeps every other document; it is not an error when nothing matches |
| MongoStore.Find | repository/mongo/mongo_repository_user.go:71 | with an empty `bson.D{}` filter the cursor opens iff the server is reachable and covers the whole collection; a `[]bson.D{}` filter fails to marshal, reachable or not |
| UserRepository.MakeMongoID | repository/mongo/mongo_repository_user.go:22-24 | the document's `_id` is the given id |
| UserRepository.MakeMongoUser | repository/mongo/mongo_repository_user.go:31-36 | `_id` is the user's id and the stored user is the user |
| UserRepository.DecodeUser | repository/mongo/mongo_repository_user.go:64-68 | a user document decodes to its user; a bare-id document decodes to a nil user |
| UserRepository.Remember | repository/mongo/mongo_repository_user.go:58-61 | succeeds iff reachable and the id is not in the remember collection; adds the user document there; the subscribe collection is untouched; a taken id fails with the raw duplicate-key error |
| UserRepository.GetRememberedUser | repository/mongo/mongo_repository_user.go:62-69 | succeeds iff reachable and the id is in the remember collection, returning the decoded user; an absent id fails with `ErrNoDocuments` wrapped |
| UserRepository.ListRememberedUserWith | repository/mongo/mongo_repository_user.go:70-89 | for a given filter: fails, wrapped, exactly when the cursor cannot be opened; otherwise returns exactly one entry per document of the remember collection, in cursor order |
| UserRepository.ListRememberedUser | repository/mongo/mongo_repository_user.go:70-74 | as written, with the `[]bson.D{}` filter: every call fails with the wrapped marshalling error, whatever the collection holds |
| UserRepository.ListRememberedUserEmptyFilter | repository/mongo/mongo_repository_user.go:70-89 | corrected, with an empty `bson.D{}` filter: fails only when unreachable; otherwise exactly one entry per remembered document |
| UserRepository.Subscribe | repository/mongo/mongo_repository_user.go:91-97 | inserts a bare-id document into the remember collection; fails, wrapped, iff unreachable or the id is already there |
| UserRepository.Subscribed | repository/mongo/mongo_repository_user.go:98-107 | true iff a document with the id is in the remember collection; `(false, nil)` on no documents; an error only for a failed lookup |
| UserRepository.Unsubscribe | repository/mongo/mongo_repository_user.go:108-114 | removes exactly the document with the id from the remember collection, whatever it holds; fails only when unreachable |
| UserRepository.RememberThenGet | repository/mongo/mongo_repository_user_test.go:50-54 | remembering a user under a fresh id and reading it back returns that user |
| UserRepository.SubscribeCollectionUnused | repository/mongo/mongo_repository_user.go:54-56 | no operation reads or writes the subscribe collection: results are the same whatever it holds |
| UserRepository.RememberedUserReadsAsSubscribed | repository/mongo/mongo_repository_user.go:91-107 | a remembered user reads as subscribed, and a subscribed-only id reads back as a nil user with nil error |
| UserRepository.SubscribeOccupiedIdFails | repository/mongo/mongo_repository_user.go:91-96 | subscribing an id that is already remembered or subscribed fails with a wrapped duplicate-key error |
| UserRepository.UnsubscribeRemovesOnlyThatId | repository/mongo/mongo_repository_user.go:108-114 | afterwards the id is not subscribed and its remembered user is gone; other ids answer as before; repeating it changes nothing |
| UserRepository.RepositoryTestAsWritten | repository/mongo/mongo_repository_user_test.go:50-82 | the test's calls on an empty store, judged by the assertions' intended value comparisons: remembering and reading back users behave as expected, but `Subscribed(1)` is true where the test expects false, and `Subscribe(1)` fails where it expects success |
| UserRepository.SubscribeSeparately | repository/mongo/mongo_repository_user.go:54-56 | corrected `Subscribe`: inserts into the subscribe collection and leaves remembered users alone |
| UserRepository.SubscribedSeparately | repository/mongo/mongo_repository_user.go:98-107 | corrected `Subscribed`: true iff the id is in the subscribe collection |
| UserRepository.UnsubscribeSeparately | repository/mongo/mongo_repository_user.go:108-114 | corrected `Unsubscribe`: removes the id from the subscribe collection only |
| UserRepository.SeparateSubscriptionsIndependent | repository/mongo/mongo_repository_user.go:54-56 | with separate collections, remembering never changes a subscription and unsubscribing never forgets a user; subscribe then query gives true, unsubscribe then query gives false |
| UserRepository.RepositoryTestWithSeparateSubscriptions | repository/mongo/mongo_repository_user_test.go:50-99 | with the corrected subscription functions, the test's remember, get and subscription calls meet the assertions' intended value comparisons |

## Left out

- The worker pool of `startProcessingUpdates` (main.go:84-103): goroutines, the wait group, cancel-cause context and channel select are concurrency. Only the result selection after the join is modelled (`Supervisor.PoolResult`). The result of `startProcessingUpdates` enters `launchBot` as `Attempt.processing`.
- Telegram calls and UI: `telego.NewBot`, `GetMe`, long polling and its error (main.go:78-82), `processUpdate` with its keyboard and `SendMessage` (main.go:39-75). These are a foreign library and the network. Their errors are parameters.
- Printing, `os.Exit` and `time.Sleep`: the `Trace` records the exit code and the seconds of each requested sleep instead.
- Supervisor.Supervise: the outcome sequence is finite, so a non-terminating run is stated as "still `Running` after every supplied outcome" rather than as an infinite execution.
- Supervisor.Supervise: its trace records the seconds the loop asks to sleep. The 64-bit conversion to the duration actually slept is modelled separately, by `SleepDuration`.
- Real environment access: the environment is a map passed in. The BOT_TOKEN value's validation by `telego.NewBot` is abstracted into that call's error.
- The `Debug` flag's effect on the Telegram logger (main.go:22): it is a logging option of the foreign library.
- The MongoDB driver internals: BSON encoding and decoding, contexts, cursors. Collections are maps, and an unreachable server is the `Link` parameter. Documents are always one of the two shapes the repository writes, so there is no decode-failure branch (mongo_repository_user.go:80-81).
- UserRepository.ListRememberedUserWith: the cursor-error branch (mongo_repository_user.go:85-86) is not modelled. Errors in mid-iteration are driver internals. That branch also wraps the stale `err` from line 71, which is nil there, instead of `cursor.Err()`.
- `ScheduleMessage` and `ListScheduledMessages` (mongo_repository_user.go:116-121): both only panic, so there is no behaviour to model.
- repository/repository_user.go and repository/repository_dish_picker.go: these hold only type and interface declarations.
- dbaas/mongo/client.go is not part of this model. It is connection set-up, and it reads a configuration field that `config.Config` does not declare.
- `telego.User` is reduced to id, bot flag, first name, last name and username. It is modelled as a value, not a pointer, so `Remember` with a nil user, which panics at `user.ID` in `MakeMongoUser` (mongo_repository_user.go:33), cannot be expressed.
- RepositoryTestAsWritten: it reads the test's `require.Equal` checks (mongo_repository_user_test.go:54, 63, 71-72) as comparisons of user values. In Go they compare a `telego.User` with a `*telego.User`, and testify reports those unequal, so the test as written would already fail at line 54. The test's listing step (lines 65-72) is not covered. The nil-user panic above is not modelled.
- RepositoryTestWithSeparateSubscriptions: it reads the same `require.Equal` checks as value comparisons, for the same reason, and it leaves out the listing step (lines 65-72) and the nil-user panic.

## Findings

| source | as written | input that shows it | evidently intended | confidence | as-written member | corrected member |
|---|---|---|---|---|---|---|
| repository/mongo/mongo_repository_user.go:92 | `Subscribe`, `Subscribed` and `Unsubscribe` use `rememberCollection()` (lines 92, 99, 109), and `subscribeCollection()` is never called | `Remember(user 1)` on an empty store, then `Subscribed(1)` returns `(true, nil)`; the test at mongo_repository_user_test.go:74-76 expects false, and the following `Subscribe(1)` fails on the duplicate `_id` | subscriptions kept in the subscribe collection (lines 54-56), independent of remembered users | high; not executed | UserRepository.RepositoryTestAsWritten | UserRepository.RepositoryTestWithSeparateSubscriptions |
| repository/mongo/mongo_repository_user.go:71 | `Find` gets `[]bson.D{}`, an empty slice of documents, as its filter; the driver marshals a filter into a BSON document, and a top-level slice does not marshal | any call of `ListRememberedUser`, even with two remembered users, returns the wrapped marshalling error; the test at mongo_repository_user_test.go:65-66 expects no error | an empty `bson.D{}` filter, matching every document | medium; not executed (the driver's marshalling is outside the model) | UserRepository.ListRememberedUser | UserRepository.ListRememberedUserEmptyFilter |
| main.go:147 | `time.Duration(timeoutSeconds) * time.Second` is a 64-bit product that wraps silently | RESTART_TIMEOUT=9223372037 wraps to a negative duration, so `time.Sleep` returns at once and the bot relaunches without pausing | sleep at least the requested time, capping at the longest duration | medium; not executed | Supervisor.OverflowingTimeoutSleepsNegative | Supervisor.SaturatingSleepDuration |
