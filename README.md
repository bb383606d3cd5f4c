# neo bot core, modelled in Dafny

`neo` is a small framework for chat bots on a Matrix home server. A bot is
built from a configuration that names the home server, the bot's user id
and its access token. Callers register handlers, each a pair of a match
predicate and a handler function, under fresh identifiers. The bot then
polls a room. For every new event not sent by the bot itself, it fires each
registered handler whose predicate holds. The first handler error ends the
dispatch of that event and becomes the bot's result.

The polling goroutine hands errors to `Run` over an unbuffered channel.
`Run` returns on the first error it receives. Nothing receives after that,
so the next error the goroutine tries to send blocks it for good: the rest
of that page is not dispatched, the cursor is not moved, the loop does not
pause and no later page is fetched.

This project models the core in `bot.go`:

- `wrappers.dfy` (module `Wrappers`) has `Option`, which stands for a Go
  value that may be nil, and `Result`.
- `neo.dfy` (module `Neo`) has the data model and configuration checking
  (`NewBot`). It has the specification functions for dispatch (`Dispatch`),
  for one page of the polling loop (`DispatchChunk`, `NextCursor`) and for
  the loop over several pages (`RunPages`). The page and loop functions
  carry a flag `errorSent`, which says that `Run` has already received an
  error, and a `blocked` outcome for a send that never completes. The module
  also has the `Bot` class. Its `handlers` map is updated in place by
  `React`. `HandleEvent`, `PollPage` and `Poll` are loops proved against
  those functions.
- `neo_properties.dfy` (module `NeoProperties`) has reference definitions
  and the lemmas that tie the dispatch functions to them. `Matching`,
  `Fails`, `FirstFailure` and `NonSelf` do not depend on `Dispatch` or
  `DispatchChunk`. `EventFails` and `FailureCount` are defined through
  `Dispatch` (a non-self event fails when its dispatch returns an error),
  so they are independent of `DispatchChunk` only.

How the model stands in for the parts it does not run:

- Go's map iteration order is unspecified. It is a parameter `order` that
  must list every registered identifier exactly once (`IsIterationOrder`).
  Each event of a page gets its own order.
- `uuid.New()` is replaced by a caller-supplied identifier, with the
  precondition that it is not yet registered.
- A handler sees the triggering event where the source gives it a
  `Context`. Its outcome is `None` for a nil error.
- The page that `Messages` returns is an input. The bot's user id is the
  one from the configuration, which the client reports back as `UserID`.
- `time.Duration` is a signed 64-bit count of nanoseconds. The default
  interval is 10 seconds, that is 10 000 000 000.
- `NewBot` writes the defaulted interval back into the caller's
  `Configuration`. The model returns that updated configuration as a second
  result, `caller`.

## Model

| member | source | states |
|---|---|---|
| `Neo.CheckConfiguration` | bot.go:45-65 | fails with the configuration error exactly when the configuration is nil or its home server, access token or user id is empty; otherwise the configuration is unchanged if its interval is non-zero, and gets a 10-second interval if it was zero |
| `Neo.WithDefaultInterval` | bot.go:63-65 | keeps the three required fields; the interval afterwards is never zero; a non-zero interval is kept, a zero one becomes 10 seconds |
| `Neo.NewBot` | bot.go:45-74 | no bot and the configuration error, with the caller's configuration untouched, exactly when a required field is missing; otherwise a fresh bot with an empty registry, the configured user id, and the defaulted interval, which is also written back into the caller's configuration |
| `Neo.Bot.constructor` | bot.go:68-73 | a new bot has an empty handler registry and the given user id and interval |
| `Neo.Bot.React` | bot.go:77-79 | with a fresh id, the registry gains exactly that id mapped to the given (match, handler) pair, and every other entry is unchanged |
| `Neo.Dispatch` | bot.go:84-95 | defines one event's dispatch: handlers are visited in the given order, each matching one is fired, and the first error a fired handler returns ends the visit and is the result; nil if none fails |
| `Neo.Bot.HandleEvent` | bot.go:84-95 | for any iteration order of the registry, the error returned and the handlers fired are those of `Dispatch` |
| `Neo.DispatchChunk` | bot.go:131-139 | defines one page's dispatch: events sent by the bot are skipped, the others are dispatched in page order; the first error is sent, and a second error, once `Run` has received one, blocks the goroutine at that event |
| `Neo.NextCursor` | bot.go:124-140 | defines the cursor after a page that did not block: unchanged for an empty page, the page's end token otherwise |
| `Neo.RunPages` | bot.go:119-147 | defines the polling loop over a list of pages: how many are fetched before the goroutine blocks or the list ends, which error `Run` receives, and whether the goroutine ended blocked |
| `Neo.Bot.PollPage` | bot.go:121-141 | an empty page leaves the cursor as it was, dispatches nothing and skips the pause; otherwise the events dispatched, the error sent and whether a send blocked are those of `DispatchChunk`; a page that did not block moves the cursor to its end token and pauses for the interval; a blocked one keeps the cursor and does not pause |
| `Neo.Bot.Poll` | bot.go:119-147 | the number of pages fetched, the error `Run` receives and whether the goroutine ended blocked are those of `RunPages`; every page is fetched unless it blocks; the first fetch starts from the initial sync token and each later one from the cursor the page before it left |
| `NeoProperties.CheckConfigurationStable` | bot.go:63-65 | checking the configuration the caller is left with again gives the same configuration |
| `NeoProperties.MatchingMembers` | bot.go:85-86 | the reference list of matching handlers holds exactly the handlers of the order whose predicate holds |
| `NeoProperties.MatchingCount` | bot.go:85-86 | in an order without repetitions each matching handler occurs in that list exactly once, and no other handler occurs |
| `NeoProperties.DispatchSucceedsIffNoFailure` | bot.go:85-94 | dispatch returns nil exactly when no handler in the order both matches and fails; it then has fired every matching handler, in iteration order |
| `NeoProperties.DispatchReturnsFirstFailure` | bot.go:85-91 | when the j-th handler is the first that matches and fails, dispatch returns its error; it has fired the matching handlers before it and then that handler, and no handler after it |
| `NeoProperties.DispatchFiresOnlyMatching` | bot.go:85-91 | every fired handler is registered and its predicate holds of the event; a returned error is the error of the last handler fired |
| `NeoProperties.DispatchFiresEachMatchingOnce` | bot.go:85-94 | for any iteration order, dispatch returns nil exactly when no registered handler matches and fails; it then has fired every matching handler exactly once and no other |
| `NeoProperties.DispatchOrderIndependent` | bot.go:85-94 | two iteration orders agree on whether dispatch returns an error; without an error they fire the same handlers, with the same counts |
| `NeoProperties.NonSelfMembers` | bot.go:131-134 | the reference list of the page's non-self events holds exactly the events of the page not sent by the bot |
| `NeoProperties.DispatchChunkSkipsSelf` | bot.go:131-139 | every event handed to `HandleEvent` is an event of the page not sent by the bot; unless the goroutine blocks, they are exactly the page's events not sent by the bot, in page order |
| `NeoProperties.DispatchChunkReportsIffFailure` | bot.go:131-139 | once `Run` has an error, a page sends none; before that, a page sends an error exactly when the dispatch of one of its non-self events fails; a page blocks only after an error has been sent |
| `NeoProperties.DispatchChunkReportsFirstFailure` | bot.go:131-139 | the error a page sends is the error of the first non-self event whose dispatch fails |
| `NeoProperties.DispatchChunkBlocksIffSecondFailure` | bot.go:131-147 | a page blocks exactly when it holds at least two failing events, counting an error `Run` already has as one |
| `NeoProperties.DispatchChunkBlocksAt` | bot.go:131-147 | when event `j` is the second failure, the page blocks there, after dispatching exactly the non-self events up to and including `j`; no later event is dispatched |
| `NeoProperties.RunPagesReportsEarliestPage` | bot.go:137-147 | the error `Run` receives is the one the first page with a failing event sends |
| `NeoProperties.RunPagesNoneIffNoPageReports` | bot.go:137-147 | `Run` receives no error exactly when no page sends one |
| `NeoProperties.RunPagesBlocksOnlyAfterReport` | bot.go:119-147 | the loop fetches at most the given pages, all of them unless it blocks, and it blocks only after `Run` has received an error |

## Left out

- The logger is not modelled: zap's development logger, every log line, and the logger field of `Configuration` and `Bot`. This includes a nil dereference in `NewBot` (bot.go:49-57, 67). When the caller supplies a logger, the local `logger` stays nil and is then used.
- The failure of `zap.NewDevelopment` and of `mautrix.NewClient` is not modelled (bot.go:51-61). Both are calls into libraries that are not part of this model. `NewBot` therefore always succeeds on a complete configuration.
- `Bot.Context` and everything in `context.go` are left out (`genCtx`, `SendText`, `UploadLink`, `UserTyping`, `SendImage`). They pass straight through to the client, and handlers see the event directly.
- The startup of `Run` is left out: the initial sync request, the display-name lookup and the greeting (bot.go:107-117). This is network I/O. `Poll` takes the initial sync token as its `start` parameter.
- The goroutine, `select` on the cancellation signal and `time.Sleep` are not run (bot.go:119-151). This is concurrency and timing. The unbuffered error channel is modelled by its effect: the first error is received, and a later send blocks the goroutine (`errorSent`, `blocked`). `PollPage` reports the pause it would take. `Poll` runs over a finite list of fetched pages; the real loop never ends on its own.
- Cancellation is left out. `Run` can return nil when its context is done, and the polling goroutine keeps running after `Run` returns. Once that has happened nothing receives, so even the first `errors <- err` blocks for good. `Poll` and `RunPages` start with `errorSent` false, which takes `Run` to be still waiting in its `select` (bot.go:144-150).
- Handlers are pure functions of the event: a match predicate and an action returning an optional error. State a handler keeps between calls, and what it does through its `Context` (sending messages, uploads, typing notices), are not modelled.
- A failing `Messages` call is left out (bot.go:123-130). The source tests the page length before it tests the error, and panics on an error with a non-empty page. The model takes each fetch as successful.
- `example/main.go` is a demo program and is not part of this model.
- The model follows the code on two points. The loop has no `break` after `errors <- err` (bot.go:137), so the goroutine keeps dispatching until a second send blocks it. `NewBot` writes the default interval back into the caller's `Configuration` (bot.go:64).
