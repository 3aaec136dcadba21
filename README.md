# chartmogul-cli in Dafny

`chartmogul` is a command-line client for the ChartMogul metrics API. Its one script, `index.js`,
handles a single metric argument as follows:

- It checks the metric against a fixed list of nine names.
- It reads a stored token/key pair from `auth.json`, or prompts for one and writes it back.
- It pings the API with that pair. On a 401 it prompts again, up to a retry limit.
- It chooses a date range from `--this` or from `--start-date`/`--end-date`.
- It builds the metrics request path and fetches it.
- It prints the entries, or it draws a chart of `(index, entry[metric])` pairs.

This project models that logic and proves properties about it.

Everything outside the script is an input: the credential file, the pairs typed at the prompt,
the replies to each HTTP request, and the `moment` date library with its clock. These are
bundled in a `World` value. Everything the script does is recorded as an `Event`, in order:

- reading the file
- prompting
- writing the file
- a ping and its reply
- the metrics request
- the table or the chart
- an error line
- `process.exit`

Modules:

- `Metrics` (`metrics.dfy`): the list of nine names and `indexOf`.
- `Query` (`query.dfy`): date-range selection and construction of the request path. The path
  is proved to decode back into the metric and the exact parameter list.
- `Chart` (`chart.dfy`): the pairs handed to the chart renderer. The `forEach` loop is a method
  proved against a function.
- `Interaction` (`interaction.dfy`): the data model. It holds credentials, replies, the world,
  messages and events.
- `Authentication` (`authentication.dfy`): the retry rule of the ping handler, as a pure
  function `Settle`, together with its properties.
- `Cli` (`cli.dfy`): the closure state of one invocation, modelled as the class `Command`. Its
  fields are the counter `attempts`, `username`, `password`, `auth`, `error` and the event log.
  Its methods mirror the handlers of the script, and each is proved to produce exactly the
  events that the function `Trace` prescribes.
- `Run` (`run.dfy`): properties of a whole invocation, stated on `Trace`.

## Model

| member | source | states |
|---|---|---|
| Metrics.IndexOf | index.js:40 | the result is -1 exactly when the name is absent; otherwise it is the position of the first occurrence |
| Metrics.IsSupported | index.js:17 | the guard passes exactly for the nine names of the list |
| Query.Before | index.js:140 | `split(c)[0]` is a prefix without `c`, followed in the input by `c` when it is shorter |
| Query.SelectRange | index.js:136-160 | `--this` wins even when explicit dates are also given; with neither `--this` nor both dates, the result is the missing-parameters error; explicit dates succeed exactly when both are longer than 9 characters and both parse as valid, otherwise the result is the format error; on success the range holds the ISO day prefixes |
| Query.RequestPath | index.js:162 | the concatenated path equals the metric, `?`, and the parameter list joined by `&`: start date, end date, `geo` if given, `plans` if given, then `interval` (default `month`) |
| Query.DecodeEncode | index.js:162 | splitting a joined list of separator-free parameters at `&` and `=` gives back the list |
| Query.PathRoundTrip | index.js:136-162 | when the values contain no `&`, the path splits back into the metric and exactly the parameter list, so the dates, filters and interval reach the service verbatim and in order |
| Chart.Series | index.js:193-199 | one pair per entry, numbered consecutively from the start value, with `entry[metric]` (or undefined) as the second component |
| Chart.BuildSeries | index.js:193-199 | the loop yields, for n entries, the pairs `(1, e1[metric]) … (n, en[metric])` in entry order |
| Authentication.Settle | index.js:88-127 | a chain of pings stops at the first reply that is not a retried 401; the counter never passes 4; every ping before the last was a 401; the last pair is the starting pair or the most recent prompted one |
| Authentication.SettleRetry | index.js:105-117 | a 401 with the counter at most 3 gives the ping, the rejection line, the prompt and the file write, then the chain of the new pair with the counter bumped |
| Authentication.SettleLast | index.js:97-125 | any other reply ends the chain with that ping and its report: nothing on success, the rejection, quitting line and exit 1 on a 401 past the limit, the error line on another error, and the error line and exit 1 with no response |
| Authentication.SettleFirst | index.js:88-96 | a chain starts with the ping of the pair it was given |
| Authentication.SettleEnding | index.js:97-125 | an accepted chain ends with the ping that succeeded; a chain that gives up, or gets no response, ends with exit status 1 |
| Authentication.SettleExits | index.js:105-125 | a chain never requests metrics, and it exits only as its last event, with status 1, after giving up or getting no response |
| Authentication.SettlePings | index.js:88-117 | the pings in a chain's events are exactly the pings the chain counts |
| Authentication.GiveUpIffRejected | index.js:105-117 | from counter a, the chain gives up exactly when the next 5 - a pings are all rejected, and it has then made that many pings |
| Authentication.AtMostFivePings | index.js:110-111 | a chain from counter a makes at most 5 - a pings |
| Authentication.SettleQuits | index.js:110 | the quitting message appears in a chain exactly when the chain gives up |
| Cli.MetricsEvents | index.js:134-188 | the first event is the request exactly when the date range was selected, and it uses the built path and the confirmed pair; the run ends in exit 1 exactly when the dates or the request failed; it ends in exit 0 exactly on success in chart mode; it exits only last; it never pings or prompts |
| Cli.ReplyEvents | index.js:168-188 | a failed request, a 401 included, ends in exit 1; success ends in exit 0 only in chart mode; no request is repeated and nothing is pinged or prompted |
| Cli.Trace | index.js:38-43 | an unsupported metric yields only the error line; a supported one starts by reading the credential file |
| Cli.Action | index.js:38-232 | running the action, with the class `Command` for a supported metric, produces exactly `Trace` |
| Cli.Command.constructor | index.js:45-46 | a fresh invocation has counter 0, no session pair and an empty log |
| Cli.Command.GetAuthorisation | index.js:51-57 | the read error and the object are kept, and the read is logged |
| Cli.Command.RequestAuthorisation | index.js:69-80 | the typed pair is returned and written to the file as `{token, key}` |
| Cli.Command.ErrorOut | index.js:82-86 | the hinted message, worded as the message followed by the help hint, then exit 1 |
| Cli.Command.TestKeys | index.js:88-127 | the log grows by the chain `Settle` describes; the counter ends where the chain ends; the caller continues exactly when the chain was accepted, and then the session pair is the accepted pair; otherwise the session pair is unchanged; only the counter, the session pair and the log may change |
| Cli.Command.OnRejected | index.js:105-117 | the same as `TestKeys`, for a 401 |
| Cli.Command.Reprompt | index.js:111-116 | the same as `TestKeys`, for a 401 within the limit: bump, prompt, ping again |
| Cli.Command.RequestMetrics | index.js:130-190 | the log grows by exactly `MetricsEvents` for the session pair |
| Cli.Command.PrintChart | index.js:192-212 | the log grows by the chart of `Series(entries, metric, 1)`, with the note for `all`, then exit 0 |
| Cli.Command.Authenticate | index.js:214-231 | `error` and `auth` hold the read result; the log is the read, the startup prompt when the stored pair is incomplete, then the chain from that pair; on acceptance the session pair is the accepted pair, otherwise it is the stored pair, or unset after a prompt |
| Cli.Command.OnAuthFile | index.js:216-230 | from the read result, the same log, counter and session pair as `Authenticate`, changing only the counter, the session pair and the log |
| Cli.Command.Start | index.js:214-231 | the whole log of a supported metric's invocation: the read, the startup prompt if any, the chain, and on acceptance the metrics request |
| Run.StartupStored | index.js:214-231 | with a readable file holding a truthy token and key, the stored pair is pinged right after the read |
| Run.StartupPrompted | index.js:72-76 | otherwise the authentication-required line, one prompt and the write of `{token, key}` come before the first ping, which uses the typed pair |
| Run.ExitOnlyLast | index.js:82-86 | an invocation calls `process.exit` at most once, as its last event |
| Run.FetchFollowsAcceptedPing | index.js:97-100 | the metrics are requested only right after a successful ping, with that ping's pair, at the path built from the selected dates |
| Run.MetricsFailureIsFinal | index.js:168-188 | after the metrics request nothing is pinged, prompted or fetched again, and the invocation ends in exit 1 exactly when the request failed, a 401 included |
| Run.FifthRejectionQuits | index.js:105-117 | at most five pings; the quitting message appears exactly when the first five pings are all rejected, and the invocation then ends in exit 1 after exactly five pings |
| Run.TracePings | index.js:88-117 | the pings of an invocation are those of its chain |
| Run.TraceQuits | index.js:110 | the quitting message appears exactly when the chain gives up |

Behaviour worth noting; the model follows the code:

- `--this` takes precedence over explicit dates.
- The fifth consecutive 401 from the ping endpoint is fatal: the counter starts at 0, and the
  check is `attempts > 3`.
- A 401 on the metrics request is fatal (exit 1). It is not retried through authentication.
- A ping that fails with an error other than 401, and that has a response, prints the error
  and does nothing more. There is no `process.exit`, so the invocation ends without an exit
  event.
- An unsupported metric prints the error and returns. It does not exit with a non-zero status.
- Every prompted pair is written to `auth.json` before it is pinged, including pairs that the
  ping then rejects. The file is not written only after a success.
- For `all` in chart mode, the note is printed and the chart is still drawn.

## Left out

- Console styling (`chalk`), the spinner (index.js lines 48-67) and the chart drawing by `babar`
  (lines 204-209) are output only. The model keeps the messages symbolically, plus the pair
  array given to the renderer.
- Argument parsing and help by `commander` (lines 19-37) and the usage message after parsing
  (lines 234-240) are library glue. The parsed options are an `Options` value.
- `program.username` and `program.password` (lines 73-74) are never defined by the declared
  options, so the prompt always asks for both values. The model always prompts.
- The HTTP requests are not modelled as network I/O. Each reply is an input in `World`: success
  with the entries, 401, another error, or no response. URL prefixes and headers are not
  modelled.
- `moment` and the clock are the parameter `DateLib`. The model does not compute dates, so it
  does not capture that `--this week` spans one week.
- A failed write of `auth.json` (line 76) is not modelled. The write is recorded as an event.
- An `auth.json` whose JSON is not an object is not modelled. A successful read always yields
  an object with optional `token` and `key`.
- The callbacks and promises are sequentialised. The ping handler reports whether the pair was
  accepted, and the caller then runs `requestMetrics`. The body of the ping response, which
  the callback ignores, is not modelled.
- JSON numbers in the entries are integers. The entries are only passed through.
- Query.ExplicitDatesOk: counts characters as Unicode scalar values, while JavaScript's `.length`
  (index.js line 143) counts UTF-16 code units. The two differ only for characters outside the
  Basic Multilingual Plane.
- `Query.UpperCase` changes only ASCII letters. The nine metric names contain nothing else.
