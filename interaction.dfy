/** What the command exchanges with the outside world: the credential file, the
    terminal prompt, the two HTTP endpoints, the `moment` library and the process exit.
    Every answer the world gives is an input (`World`); everything the command does is
    recorded as an `Event`, in order. */
module Interaction {
  import opened Wrappers
  import Query
  import Chart

  /** A token/key pair, as typed at the prompt or read from `auth.json`. */
  datatype Credential = Credential(token: string, key: string)

  /** The parsed contents of `auth.json`; either field may be missing. */
  datatype AuthFile = AuthFile(token: Option<string>, key: Option<string>)

  /** The outcome of `jsonfile.readFile`. */
  datatype ReadResult = ReadFailed | ReadOk(file: AuthFile)

  /** The outcome of one HTTP request: a success carrying the body's `entries`, a 401,
      any other error (superagent's `err`), or no response at all. */
  datatype Reply =
    | Success(entries: seq<Chart.Entry>)
    | Unauthorized
    | Failed(err: string)
    | NoResponse(err: string)

  /** Everything outside the command: the credential file, the answer typed at the n-th
      prompt, the reply to the n-th ping, the reply to the metrics request, and `moment`. */
  datatype World = World(
    stored: ReadResult,
    answer: nat -> Credential,
    pingReply: nat -> Reply,
    metricsReply: Reply,
    dates: Query.DateLib)

  /** The reply to the ping numbered `k`, counting from 0. */
  function PingReply(w: World, k: nat): Reply
  {
    w.pingReply(k)
  }

  /** The pair typed at the prompt numbered `j`, counting from 0. */
  function Answer(w: World, j: nat): Credential
  {
    w.answer(j)
  }

  /** The lines the command prints in red, kept symbolic; `Text` gives their wording. */
  datatype Message =
    | UnsupportedMetric(metric: string)
    | AuthRequired
    | KeysRejected
    | Quitting
    | DateFormat
    | MissingDates
    | BadUserPassword
    | HttpError(err: string)
    | Hinted(inner: Message)

  function Text(m: Message): string
  {
    match m
    case UnsupportedMetric(metric) =>
      "Error: " + metric + " is not a supported metric. Try one of the following: "
      + "all, mrr, arr, customer-churn-rate, mrr-churn-rate, ltv, customers, asp, arpa"
    case AuthRequired => "Authentication required!"
    case KeysRejected => "Authentication failed! Bad API token or key?"
    case Quitting => "Authentication error. Quitting ChartMogul CLI."
    case DateFormat => "Error. Dates must be in the format YYYY-MM-DD, e.g. 2015-01-25."
    case MissingDates => "Error: Missing parameters --start-date and --end-date or just --this are required."
    case BadUserPassword => "Authentication failed! Bad username/password?"
    case HttpError(err) => err
    case Hinted(inner) => Text(inner) + Hint
  }

  /** The help hint `errorOut` appends to every message. */
  const Hint := " Type chartmogul -h for more info."

  lemma HintedWording(m: Message)
    ensures Text(Hinted(m)) == Text(m) + Hint
  {
  }

  /** The observable steps of one invocation. */
  datatype Event =
    | ReadAuthFile                                         // jsonfile.readFile of auth.json
    | Prompt(typed: Credential)                            // the two co-prompt questions
    | Persist(file: AuthFile)                              // jsonfile.writeFileSync of auth.json
    | Ping(cred: Credential, reply: Reply)                 // GET /v1/ping with basic auth
    | Fetch(path: string, cred: Credential, reply: Reply)  // GET /v1/metrics/<path>
    | ShowEntries(title: string, entries: seq<Chart.Entry>)
    | ShowChart(title: string, series: seq<Chart.Point>, allNote: bool)
    | Report(message: Message)                             // an error line on the console
    | Exit(code: int)                                      // process.exit

  /** What `requestAuthorisation` leaves behind: the prompt and the file it writes. */
  function PromptEvents(c: Credential): seq<Event>
  {
    [Prompt(c), Persist(AuthFile(Some(c.token), Some(c.key)))]
  }

  /** `errorOut(err)`: the message with the help hint, then exit status 1. */
  function ErrorOutEvents(err: Message): seq<Event>
  {
    [Report(Hinted(err)), Exit(1)]
  }

  /** The number of pings in a run of events. */
  function Pings(events: seq<Event>): nat
  {
    if events == [] then 0
    else (if events[0].Ping? then 1 else 0) + Pings(events[1..])
  }

  lemma {:induction false} PingsAppend(xs: seq<Event>, ys: seq<Event>)
    ensures Pings(xs + ys) == Pings(xs) + Pings(ys)
  {
    if xs == [] {
      assert xs + ys == ys;
    } else {
      assert (xs + ys)[1..] == xs[1..] + ys;
      PingsAppend(xs[1..], ys);
    }
  }
}
