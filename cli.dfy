/** The action run for a metric (index.js lines 38-232): the metric check, the closure
    state of one invocation as a class, and the whole sequence of events it produces. */
module Cli {
  import opened Wrappers
  import opened Query
  import opened Chart
  import opened Interaction
  import opened Authentication
  import Metrics

  /** The startup test of index.js line 216: prompt unless the file was read and both
      `token` and `key` are truthy. */
  predicate NeedsPrompt(read: ReadResult)
  {
    read.ReadFailed? || !Truthy(read.file.token) || !Truthy(read.file.key)
  }

  function StoredPair(read: ReadResult): Credential
    requires !NeedsPrompt(read)
  {
    Credential(read.file.token.value, read.file.key.value)
  }

  function DateMessage(e: DateError): Message
  {
    match e
    case BadFormat => DateFormat
    case MissingParameters => MissingDates
  }

  /** What `requestMetrics` does with the confirmed pair `c`: choose the dates, request
      the path, and show, chart or report the reply. */
  function MetricsEvents(metric: string, opts: Options, w: World, c: Credential): (r: seq<Event>)
    ensures |r| > 0
    ensures r[0].Fetch? <==> SelectRange(opts, w.dates).Ok?
    ensures r[0].Fetch? ==>
              r[0] == Fetch(RequestPath(metric, SelectRange(opts, w.dates).value, opts), c, w.metricsReply)
    ensures r[|r| - 1] == Exit(1) <==> SelectRange(opts, w.dates).Err? || !w.metricsReply.Success?
    ensures r[|r| - 1] == Exit(0) <==> SelectRange(opts, w.dates).Ok? && w.metricsReply.Success? && opts.chart
    ensures forall i :: 0 <= i < |r| && r[i].Exit? ==> i == |r| - 1
    ensures forall i :: 0 < i < |r| ==> !r[i].Fetch?
    ensures forall i :: 0 <= i < |r| ==> !r[i].Ping? && !r[i].Prompt?
  {
    match SelectRange(opts, w.dates)
    case Err(e) => ErrorOutEvents(DateMessage(e))
    case Ok(range) =>
      var fetch := Fetch(RequestPath(metric, range, opts), c, w.metricsReply);
      var rest := ReplyEvents(metric, opts.chart, Title(metric, range), w.metricsReply);
      AfterFetch(fetch, rest);
      [fetch] + rest
  }

  /** The handling of the metrics reply: the table or the chart, or the error. */
  function ReplyEvents(metric: string, chart: bool, title: string, reply: Reply): (r: seq<Event>)
    ensures |r| > 0
    ensures r[|r| - 1] == Exit(1) <==> !reply.Success?
    ensures r[|r| - 1] == Exit(0) <==> reply.Success? && chart
    ensures forall i :: 0 <= i < |r| && r[i].Exit? ==> i == |r| - 1
    ensures forall i :: 0 <= i < |r| ==> !r[i].Fetch? && !r[i].Ping? && !r[i].Prompt?
  {
    match reply
    case Success(entries) =>
      if chart then [ShowChart(title, Series(entries, metric, 1), metric == "all"), Exit(0)]
      else [ShowEntries(title, entries)]
    case Unauthorized => ErrorOutEvents(BadUserPassword)
    case Failed(err) => ErrorOutEvents(HttpError(err))
    case NoResponse(err) => ErrorOutEvents(HttpError(err))
  }

  lemma AfterFetch(fetch: Event, rest: seq<Event>)
    requires |rest| > 0
    ensures var r := [fetch] + rest;
            && r[0] == fetch && r[|r| - 1] == rest[|rest| - 1]
            && (forall i :: 0 < i < |r| ==> r[i] == rest[i - 1])
  {
  }

  /** A chain of pings followed, when it ends in success, by the metrics request. */
  function Flow(metric: string, opts: Options, w: World, attempts: int, c: Credential, pings: nat,
                prompts: nat): seq<Event>
    requires 0 <= attempts <= RetryLimit + 1
  {
    var r := Settle(attempts, c, pings, prompts, w);
    r.events + (if r.step == Accepted then MetricsEvents(metric, opts, w, r.cred) else [])
  }

  /** The pair pinged first, how many prompts precede it, and the events before it. */
  function FirstPair(w: World): Credential
  {
    if NeedsPrompt(w.stored) then Answer(w, 0) else StoredPair(w.stored)
  }

  function PromptsBefore(w: World): nat
  {
    if NeedsPrompt(w.stored) then 1 else 0
  }

  function BeforeFirstPing(w: World): seq<Event>
  {
    if NeedsPrompt(w.stored) then [Report(AuthRequired)] + PromptEvents(Answer(w, 0)) else []
  }

  /** Every event of one invocation of the command for `metric`, in order. */
  function Trace(metric: string, opts: Options, w: World): (t: seq<Event>)
    ensures |t| > 0
    ensures t[0] == ReadAuthFile <==> Metrics.IsSupported(metric)
    ensures !Metrics.IsSupported(metric) ==> forall i :: 0 <= i < |t| ==> t[i].Report?
  {
    if Metrics.IndexOf(Metrics.Supported, metric) < 0 then [Report(UnsupportedMetric(metric))]
    else [ReadAuthFile] + BeforeFirstPing(w) + Flow(metric, opts, w, 0, FirstPair(w), 0, PromptsBefore(w))
  }

  /** Regrouping appended runs of events. */
  lemma Regroup(e: seq<Event>, x: seq<Event>, y: seq<Event>)
    ensures e + x + y == e + (x + y)
  {
  }

  lemma Regroup4(e: seq<Event>, x: seq<Event>, y: seq<Event>, z: seq<Event>)
    ensures e + x + y + z == e + (x + y + z)
  {
  }

  /** A 401 past the retry limit ends the chain with the quitting message. */
  lemma QuitFollows(attempts: int, c: Credential, pings: nat, prompts: nat, w: World, e0: seq<Event>, e1: seq<Event>)
    requires RetryLimit < attempts <= RetryLimit + 1 && PingReply(w, pings).Unauthorized?
    requires e1 == e0 + [Ping(c, PingReply(w, pings)), Report(KeysRejected)] + ErrorOutEvents(Quitting)
    ensures var r := Settle(attempts, c, pings, prompts, w);
            e1 == e0 + r.events && attempts == r.attempts && r.step != Accepted
  {
    SettleLast(attempts, c, pings, prompts, w);
    Regroup(e0, [Ping(c, PingReply(w, pings)), Report(KeysRejected)], ErrorOutEvents(Quitting));
  }

  /** What a handler of the chain leaves behind when the chain is `r`: its events after
      `before`, the counter where it stops, and on acceptance the session pair set to the
      pair that was accepted. */
  ghost predicate Settled(r: AuthEnd, before: seq<Event>, events: seq<Event>, attempts: int,
                          accepted: bool, username: Option<string>, password: Option<string>)
  {
    && events == before + r.events
    && attempts == r.attempts
    && accepted == (r.step == Accepted)
    && (accepted ==> username == Some(r.cred.token) && password == Some(r.cred.key))
  }

  /** A 401 within the retry limit: the ping, its report and the prompt, then the chain
      that starts from the new pair. */
  lemma RetryFollows(attempts: int, c: Credential, pings: nat, prompts: nat, w: World,
                     e0: seq<Event>, next: Credential, prompted: seq<Event>, e1: seq<Event>, a1: int,
                     accepted: bool, token: Option<string>, key: Option<string>)
    requires 0 <= attempts <= RetryLimit && PingReply(w, pings).Unauthorized?
    requires next == Answer(w, prompts)
    requires prompted == e0 + [Ping(c, PingReply(w, pings)), Report(KeysRejected)] + PromptEvents(next)
    requires Settled(Settle(attempts + 1, next, pings + 1, prompts + 1, w), prompted, e1, a1, accepted, token, key)
    ensures Settled(Settle(attempts, c, pings, prompts, w), e0, e1, a1, accepted, token, key)
  {
    SettleRetry(attempts, c, pings, prompts, w);
    Regroup4(e0, [Ping(c, PingReply(w, pings)), Report(KeysRejected)], PromptEvents(Answer(w, prompts)),
             Settle(attempts + 1, Answer(w, prompts), pings + 1, prompts + 1, w).events);
  }

  /** The closure state of one invocation (index.js lines 45-46) and the handlers that
      update it. `events` records what the invocation has done so far. */
  class Command {
    const metric: string
    const opts: Options
    var attempts: int
    var username: Option<string>
    var password: Option<string>
    var auth: Option<AuthFile>
    var error: bool
    var events: seq<Event>

    /** The retry counter stays within the range the 401 handler allows. */
    ghost predicate Valid()
      reads this
    {
      0 <= attempts <= RetryLimit + 1
    }

    constructor (metric: string, opts: Options)
      ensures this.metric == metric && this.opts == opts
      ensures Valid() && attempts == 0
      ensures username == None && password == None && auth == None && !error
      ensures events == []
    {
      this.metric := metric;
      this.opts := opts;
      attempts := 0;
      username, password, auth, error := None, None, None, false;
      events := [];
    }

    /** `getAuthorisation` (index.js lines 51-57): read `auth.json`, keep the error and the object. */
    method GetAuthorisation(read: ReadResult)
      modifies this
      ensures error == read.ReadFailed?
      ensures auth == if read.ReadOk? then Some(read.file) else None
      ensures events == old(events) + [ReadAuthFile]
      ensures attempts == old(attempts) && username == old(username) && password == old(password)
    {
      error := read.ReadFailed?;
      auth := if read.ReadOk? then Some(read.file) else None;
      events := events + [ReadAuthFile];
    }

    /** `requestAuthorisation` (index.js lines 69-80): prompt for the pair and write it
        to `auth.json` as `{token, key}`. */
    method RequestAuthorisation(w: World, prompts: nat) returns (c: Credential)
      modifies this`events
      ensures c == Answer(w, prompts)
      ensures events == old(events) + [Prompt(c), Persist(AuthFile(Some(c.token), Some(c.key)))]
    {
      c := Answer(w, prompts);
      events := events + [Prompt(c)];
      events := events + [Persist(AuthFile(Some(c.token), Some(c.key)))];
    }

    /** `errorOut` (index.js lines 82-86): the message with the help hint, then exit 1. */
    method ErrorOut(err: Message)
      modifies this`events
      ensures events == old(events) + ErrorOutEvents(err)
      ensures |events| > 1 && events[|events| - 2].Report?
      ensures Interaction.Text(events[|events| - 2].message) == Interaction.Text(err) + Hint
    {
      events := events + [Report(Hinted(err)), Exit(1)];
      assert events[|events| - 2] == Report(Hinted(err));
      HintedWording(err);
    }

    /** `testChartMogulKeys` (index.js lines 88-127): ping with the pair; on success keep
        it as the session; on a 401 bump the counter and prompt again, unless the counter
        is already past 3. The success callback is left to the caller: `accepted` says
        whether it runs, and the session pair is the one it receives. */
    method TestKeys(c: Credential, pings: nat, prompts: nat, w: World) returns (accepted: bool)
      requires Valid()
      modifies this`attempts, this`username, this`password, this`events
      decreases RetryLimit + 1 - attempts, 2
      ensures Valid()
      ensures Settled(Settle(old(attempts), c, pings, prompts, w), old(events), events, attempts,
                      accepted, username, password)
      ensures !accepted ==> username == old(username) && password == old(password)
    {
      var reply := PingReply(w, pings);
      if reply.Unauthorized? {
        accepted := OnRejected(c, pings, prompts, w);
      } else {
        SettleLast(attempts, c, pings, prompts, w);
        events := events + [Ping(c, reply)];
        match reply {
          case Success(_) =>
            username := Some(c.token);
            password := Some(c.key);
          case Failed(err) =>
            events := events + [Report(HttpError(err))];
          case NoResponse(err) =>
            events := events + [Report(HttpError(err)), Exit(1)];
        }
        accepted := reply.Success?;
      }
    }

    /** The 401 handler of index.js lines 105-117: quit once the counter is past 3,
        otherwise bump it, prompt for a new pair and ping again. */
    method OnRejected(c: Credential, pings: nat, prompts: nat, w: World) returns (accepted: bool)
      requires Valid() && PingReply(w, pings).Unauthorized?
      modifies this`attempts, this`username, this`password, this`events
      decreases RetryLimit + 1 - attempts, 1
      ensures Valid()
      ensures Settled(Settle(old(attempts), c, pings, prompts, w), old(events), events, attempts,
                      accepted, username, password)
      ensures !accepted ==> username == old(username) && password == old(password)
    {
      events := events + [Ping(c, PingReply(w, pings)), Report(KeysRejected)];
      if attempts > RetryLimit {
        ErrorOut(Quitting);
        accepted := false;
        QuitFollows(attempts, c, pings, prompts, w, old(events), events);
      } else {
        accepted := Reprompt(c, pings, prompts, w, old(events));
      }
    }

    /** The retry half of the 401 handler (index.js lines 112-116): bump the counter,
        prompt for a new pair and test it. */
    method Reprompt(c: Credential, pings: nat, prompts: nat, w: World, ghost before: seq<Event>)
      returns (accepted: bool)
      requires Valid() && attempts <= RetryLimit && PingReply(w, pings).Unauthorized?
      requires events == before + [Ping(c, PingReply(w, pings)), Report(KeysRejected)]
      modifies this`attempts, this`username, this`password, this`events
      decreases RetryLimit + 1 - attempts, 0
      ensures Valid()
      ensures Settled(Settle(old(attempts), c, pings, prompts, w), before, events, attempts,
                      accepted, username, password)
      ensures !accepted ==> username == old(username) && password == old(password)
    {
      ghost var a0 := attempts;
      attempts := attempts + 1;
      var next := RequestAuthorisation(w, prompts);
      ghost var prompted, u, p := events, username, password;
      assert attempts == a0 + 1 && u == old(username) && p == old(password);
      accepted := TestKeys(next, pings + 1, prompts + 1, w);
      RetryFollows(a0, c, pings, prompts, w, before, next, prompted, events, attempts, accepted, username, password);
    }

    /** `requestMetrics` (index.js lines 130-190) with the session pair. */
    method RequestMetrics(w: World)
      requires username.Some? && password.Some?
      modifies this`events
      ensures events == old(events) + MetricsEvents(metric, opts, w, Credential(username.value, password.value))
    {
      var range := SelectRange(opts, w.dates);
      if range.Err? {
        ErrorOut(DateMessage(range.error));
        return;
      }
      var path := RequestPath(metric, range.value, opts);
      var reply := w.metricsReply;
      events := events + [Fetch(path, Credential(username.value, password.value), reply)];
      var title := Title(metric, range.value);
      match reply {
        case Success(entries) =>
          if opts.chart {
            PrintChart(entries, title);
          } else {
            events := events + [ShowEntries(title, entries)];
          }
        case Unauthorized => ErrorOut(BadUserPassword);
        case Failed(err) => ErrorOut(HttpError(err));
        case NoResponse(err) => ErrorOut(HttpError(err));
      }
      Regroup(old(events), [Fetch(path, Credential(username.value, password.value), reply)],
              ReplyEvents(metric, opts.chart, title, reply));
    }

    /** `printChart` (index.js lines 192-212): the numbered pairs, the note for `all`, exit 0. */
    method PrintChart(entries: seq<Entry>, title: string)
      modifies this`events
      ensures events == old(events) + [ShowChart(title, Series(entries, metric, 1), metric == "all"), Exit(0)]
    {
      var a := BuildSeries(entries, metric);
      assert a == Series(entries, metric, 1);
      events := events + [ShowChart(title, a, metric == "all"), Exit(0)];
    }

    /** Startup (index.js lines 214-231): read `auth.json`, then run its callback. */
    method Authenticate(w: World) returns (accepted: bool)
      requires Valid() && attempts == 0 && events == [] && username == None && password == None
      modifies this
      ensures Valid()
      ensures Settled(Settle(0, FirstPair(w), 0, PromptsBefore(w), w), [ReadAuthFile] + BeforeFirstPing(w),
                      events, attempts, accepted, username, password)
      ensures error == w.stored.ReadFailed?
      ensures auth == if w.stored.ReadOk? then Some(w.stored.file) else None
      ensures !accepted ==>
                if NeedsPrompt(w.stored) then username == None && password == None
                else username == w.stored.file.token && password == w.stored.file.key
    {
      GetAuthorisation(w.stored);
      accepted := OnAuthFile(w);
    }

    /** The callback of `getAuthorisation` (index.js lines 214-231): use the stored pair
        when it is complete, otherwise prompt first; then ping until the chain settles. */
    method OnAuthFile(w: World) returns (accepted: bool)
      requires Valid() && attempts == 0 && events == [ReadAuthFile] && username == None && password == None
      requires error == w.stored.ReadFailed? && auth == if w.stored.ReadOk? then Some(w.stored.file) else None
      modifies this`attempts, this`username, this`password, this`events
      ensures Valid()
      ensures Settled(Settle(0, FirstPair(w), 0, PromptsBefore(w), w), [ReadAuthFile] + BeforeFirstPing(w),
                      events, attempts, accepted, username, password)
      ensures !accepted ==>
                if NeedsPrompt(w.stored) then username == None && password == None
                else username == w.stored.file.token && password == w.stored.file.key
    {
      if error || !Truthy(auth.value.token) || !Truthy(auth.value.key) {
        assert NeedsPrompt(w.stored);
        events := events + [Report(AuthRequired)];
        var c := RequestAuthorisation(w, 0);
        Regroup([ReadAuthFile], [Report(AuthRequired)], PromptEvents(c));
        ghost var a, e := attempts, events;
        accepted := TestKeys(c, 0, 1, w);
        assert a == 0 && c == FirstPair(w) && 1 == PromptsBefore(w) && e == [ReadAuthFile] + BeforeFirstPing(w);
      } else {
        assert !NeedsPrompt(w.stored);
        username := auth.value.token;
        password := auth.value.key;
        var c := Credential(username.value, password.value);
        ghost var a, e := attempts, events;
        accepted := TestKeys(c, 0, 0, w);
        assert a == 0 && c == FirstPair(w) && 0 == PromptsBefore(w) && e == [ReadAuthFile] + BeforeFirstPing(w);
      }
    }

    /** One invocation after the metric check: authenticate, then, once a pair is
        accepted, request the metrics with it (the callback `requestMetrics`). */
    method Start(w: World)
      requires Valid() && attempts == 0 && events == [] && username == None && password == None
      modifies this
      ensures events == [ReadAuthFile] + BeforeFirstPing(w) + Flow(metric, opts, w, 0, FirstPair(w), 0, PromptsBefore(w))
    {
      ghost var r := Settle(0, FirstPair(w), 0, PromptsBefore(w), w);
      ghost var front := [ReadAuthFile] + BeforeFirstPing(w);
      var accepted := Authenticate(w);
      if accepted {
        RequestMetrics(w);
        Regroup(front, r.events, MetricsEvents(metric, opts, w, r.cred));
      } else {
        assert r.events + [] == r.events;
      }
    }
  }

  /** The action for one metric argument: reject an unsupported name before anything
      else, otherwise run a fresh invocation; the events are those `Trace` prescribes. */
  method Action(metric: string, opts: Options, w: World) returns (log: seq<Event>)
    ensures log == Trace(metric, opts, w)
  {
    if Metrics.IndexOf(Metrics.Supported, metric) < 0 {
      log := [Report(UnsupportedMetric(metric))];
      return;
    }
    var command := new Command(metric, opts);
    command.Start(w);
    log := command.events;
  }
}
