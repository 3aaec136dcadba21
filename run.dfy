/** Properties of one whole invocation of the command, stated on `Cli.Trace`. */
module Run {
  import opened Wrappers
  import opened Query
  import opened Interaction
  import opened Authentication
  import opened Cli
  import Metrics

  /** The events before the first ping: the file read and the startup prompt, if any. */
  function Front(w: World): seq<Event>
  {
    [ReadAuthFile] + BeforeFirstPing(w)
  }

  /** The chain of pings of an invocation. */
  function Chain(w: World): AuthEnd
  {
    Settle(0, FirstPair(w), 0, PromptsBefore(w), w)
  }

  /** What follows the chain: the metrics request when the last ping was accepted. */
  function AfterChain(metric: string, opts: Options, w: World): seq<Event>
  {
    if Chain(w).step == Accepted then MetricsEvents(metric, opts, w, Chain(w).cred) else []
  }

  /** The ping that ends the chain. */
  function LastPing(w: World): Event
  {
    Ping(Chain(w).cred, PingReply(w, Chain(w).pings - 1))
  }

  /** A supported metric's trace is the file read, the startup prompt if any, the chain
      of pings and what follows it. */
  lemma TraceParts(metric: string, opts: Options, w: World)
    requires Metrics.IsSupported(metric)
    ensures Trace(metric, opts, w) == Front(w) + Chain(w).events + AfterChain(metric, opts, w)
  {
    Regroup(Front(w), Chain(w).events, AfterChain(metric, opts, w));
  }

  /** At startup (index.js lines 214-231) the stored pair is pinged straight away when the
      file was read and holds a truthy token and key. */
  lemma StartupStored(metric: string, opts: Options, w: World)
    requires Metrics.IsSupported(metric) && !NeedsPrompt(w.stored)
    ensures var t := Trace(metric, opts, w);
            |t| > 1 && t[..2] == [ReadAuthFile, Ping(StoredPair(w.stored), PingReply(w, 0))]
  {
    TraceOpening(metric, opts, w);
  }

  /** Otherwise the user is told that authentication is required and prompted, the typed
      pair is written to the file, and that pair is pinged. */
  lemma StartupPrompted(metric: string, opts: Options, w: World)
    requires Metrics.IsSupported(metric) && NeedsPrompt(w.stored)
    ensures var t := Trace(metric, opts, w);
            var c := Answer(w, 0);
            |t| > 4 && t[..5] == [ReadAuthFile, Report(AuthRequired), Prompt(c),
                                  Persist(AuthFile(Some(c.token), Some(c.key))), Ping(c, PingReply(w, 0))]
  {
    TraceOpening(metric, opts, w);
    PromptedOpening(Trace(metric, opts, w), Answer(w, 0), PingReply(w, 0));
  }

  lemma PromptedOpening(t: seq<Event>, c: Credential, reply: Reply)
    requires |t| > 4 && t[..5] == [ReadAuthFile] + ([Report(AuthRequired)] + PromptEvents(c)) + [Ping(c, reply)]
    ensures t[..5] == [ReadAuthFile, Report(AuthRequired), Prompt(c),
                       Persist(AuthFile(Some(c.token), Some(c.key))), Ping(c, reply)]
  {
  }

  /** The first ping follows the file read and the startup prompt, if any. */
  lemma TraceOpening(metric: string, opts: Options, w: World)
    requires Metrics.IsSupported(metric)
    ensures var t := Trace(metric, opts, w);
            |t| > |Front(w)| && t[..|Front(w)| + 1] == Front(w) + [Ping(FirstPair(w), PingReply(w, 0))]
  {
    TraceParts(metric, opts, w);
    SettleFirst(0, FirstPair(w), 0, PromptsBefore(w), w);
    FirstOfChain(Front(w), Chain(w).events, AfterChain(metric, opts, w));
  }

  lemma FirstOfChain(front: seq<Event>, chain: seq<Event>, after: seq<Event>)
    requires |chain| > 0
    ensures |front + chain + after| > |front|
    ensures (front + chain + after)[..|front| + 1] == front + [chain[0]]
  {
  }

  /** An invocation exits at most once, as its very last event: after giving up or getting
      no response to a ping (status 1), after a failed metrics request (status 1), or
      after drawing the chart (status 0). */
  lemma ExitOnlyLast(metric: string, opts: Options, w: World)
    ensures var t := Trace(metric, opts, w);
            forall i :: 0 <= i < |t| && t[i].Exit? ==> i == |t| - 1
  {
    if Metrics.IsSupported(metric) {
      ExitAtEnd(metric, opts, w);
    }
  }

  lemma ExitAtEnd(metric: string, opts: Options, w: World)
    requires Metrics.IsSupported(metric)
    ensures ExitsOnlyAtEnd(Trace(metric, opts, w))
  {
    TraceParts(metric, opts, w);
    FrontQuiet(w);
    ChainExits(metric, opts, w);
    AfterChainShape(metric, opts, w);
    ExitsAtEnd(Trace(metric, opts, w), Front(w), Chain(w).events, AfterChain(metric, opts, w));
  }

  /** The metrics are requested only right after a ping that was answered with success,
      with the pair that ping used, at the path built from the selected dates. */
  lemma FetchFollowsAcceptedPing(metric: string, opts: Options, w: World)
    ensures var t := Trace(metric, opts, w);
            forall i :: 0 <= i < |t| && t[i].Fetch? ==>
              && 0 < i && t[i - 1].Ping? && t[i - 1].reply.Success? && t[i - 1].cred == t[i].cred
              && SelectRange(opts, w.dates).Ok?
              && t[i].path == RequestPath(metric, SelectRange(opts, w.dates).value, opts)
              && t[i].reply == w.metricsReply
  {
    if Metrics.IsSupported(metric) {
      Seam(metric, opts, w);
      Handover(metric, opts, w);
      AcceptedPing(w);
    }
  }

  /** Once the metrics are requested nothing is pinged, prompted or fetched again, and a
      failed request, a 401 included, ends the invocation with status 1 rather than a new
      prompt (index.js lines 168-177). */
  lemma MetricsFailureIsFinal(metric: string, opts: Options, w: World)
    ensures var t := Trace(metric, opts, w);
            forall i :: 0 <= i < |t| && t[i].Fetch? ==>
              && (forall j :: i < j < |t| ==> !t[j].Ping? && !t[j].Prompt? && !t[j].Fetch?)
              && (t[|t| - 1] == Exit(1) <==> !t[i].reply.Success?)
  {
    if Metrics.IsSupported(metric) {
      Seam(metric, opts, w);
      Handover(metric, opts, w);
    }
  }

  /** Where the chain of pings meets the metrics request. */
  lemma Seam(metric: string, opts: Options, w: World)
    requires Metrics.IsSupported(metric)
    ensures FetchesAtSeam(Trace(metric, opts, w), AfterChain(metric, opts, w), LastPing(w))
  {
    TraceParts(metric, opts, w);
    FrontQuiet(w);
    ChainExits(metric, opts, w);
    ChainHandsOver(metric, opts, w);
    AfterChainShape(metric, opts, w);
    FetchAtSeam(Trace(metric, opts, w), Front(w), Chain(w).events, AfterChain(metric, opts, w), LastPing(w));
  }

  /** An invocation pings at most five times (index.js lines 105-117: the counter starts
      at 0 and a 401 only leads to a new prompt while it is at most 3), and it quits with
      "Authentication error" exactly when the first five pings are all rejected; it then
      has pinged five times and exits with status 1. */
  lemma FifthRejectionQuits(metric: string, opts: Options, w: World)
    requires Metrics.IsSupported(metric)
    ensures var t := Trace(metric, opts, w);
            && Pings(t) <= RetryLimit + 2
            && (Report(Hinted(Quitting)) in t <==> AllRejected(w, 0, RetryLimit + 2))
            && (AllRejected(w, 0, RetryLimit + 2) ==> Pings(t) == RetryLimit + 2 && t[|t| - 1] == Exit(1))
  {
    TracePings(metric, opts, w);
    TraceQuits(metric, opts, w);
    TraceGiveUpEnd(metric, opts, w);
    GiveUpIffRejected(0, FirstPair(w), 0, PromptsBefore(w), w);
  }

  /** The pings of a trace are those of its chain. */
  lemma TracePings(metric: string, opts: Options, w: World)
    requires Metrics.IsSupported(metric)
    ensures Pings(Trace(metric, opts, w)) == Chain(w).pings
  {
    TraceParts(metric, opts, w);
    FrontQuiet(w);
    NoPings(Front(w));
    AfterChainShape(metric, opts, w);
    NoPings(AfterChain(metric, opts, w));
    SettlePings(0, FirstPair(w), 0, PromptsBefore(w), w);
    PingsAppend(Front(w), Chain(w).events);
    PingsAppend(Front(w) + Chain(w).events, AfterChain(metric, opts, w));
  }

  /** The quitting message appears in a trace exactly when its chain gives up. */
  lemma TraceQuits(metric: string, opts: Options, w: World)
    requires Metrics.IsSupported(metric)
    ensures Report(Hinted(Quitting)) in Trace(metric, opts, w) <==> Chain(w).step == GaveUp
  {
    TraceParts(metric, opts, w);
    FrontQuiet(w);
    AfterChainQuiet(metric, opts, w);
    SettleQuits(0, FirstPair(w), 0, PromptsBefore(w), w);
  }

  /** A chain that gives up ends the trace with exit status 1. */
  lemma TraceGiveUpEnd(metric: string, opts: Options, w: World)
    requires Metrics.IsSupported(metric)
    ensures var t := Trace(metric, opts, w);
            Chain(w).step == GaveUp ==> |t| > 0 && t[|t| - 1] == Exit(1)
  {
    TraceParts(metric, opts, w);
    SettleEnding(0, FirstPair(w), 0, PromptsBefore(w), w);
  }

  /** The events before the chain neither exit, fetch, ping nor quit. */
  lemma FrontQuiet(w: World)
    ensures |Front(w)| > 0 && Silent(Front(w)) && Report(Hinted(Quitting)) !in Front(w)
  {
  }

  /** What follows the chain never holds the quitting message. */
  lemma AfterChainQuiet(metric: string, opts: Options, w: World)
    ensures Report(Hinted(Quitting)) !in AfterChain(metric, opts, w)
  {
    if Chain(w).step == Accepted {
      MetricsNeverQuit(metric, opts, w, Chain(w).cred);
    }
  }

  lemma MetricsNeverQuit(metric: string, opts: Options, w: World, c: Credential)
    ensures Report(Hinted(Quitting)) !in MetricsEvents(metric, opts, w, c)
  {
    match SelectRange(opts, w.dates)
    case Err(e) =>
      assert MetricsEvents(metric, opts, w, c) == ErrorOutEvents(DateMessage(e));
    case Ok(range) =>
      var rest := ReplyEvents(metric, opts.chart, Title(metric, range), w.metricsReply);
      ReplyNeverQuits(metric, opts.chart, Title(metric, range), w.metricsReply);
      assert MetricsEvents(metric, opts, w, c) == [Fetch(RequestPath(metric, range, opts), c, w.metricsReply)] + rest;
  }

  lemma ReplyNeverQuits(metric: string, chart: bool, title: string, reply: Reply)
    ensures Report(Hinted(Quitting)) !in ReplyEvents(metric, chart, title, reply)
  {
  }

  /** The chain fetches nothing, and exits only as its last event and only when nothing
      follows it. */
  lemma ChainExits(metric: string, opts: Options, w: World)
    ensures NoFetch(Chain(w).events)
    ensures ExitEndsAll(Chain(w).events, AfterChain(metric, opts, w))
  {
    SettleExits(0, FirstPair(w), 0, PromptsBefore(w), w);
  }

  /** The metrics request follows the chain only when its last ping was accepted. */
  lemma Handover(metric: string, opts: Options, w: World)
    ensures var a := AfterChain(metric, opts, w);
            |a| > 0 ==> Chain(w).step == Accepted && a == MetricsEvents(metric, opts, w, Chain(w).cred)
  {
  }

  /** An accepted chain ends with the ping that was answered with success. */
  lemma AcceptedPing(w: World)
    ensures var r := Chain(w);
            r.step == Accepted ==>
              && |r.events| > 0 && r.events[|r.events| - 1] == LastPing(w)
              && PingReply(w, r.pings - 1).Success?
  {
    SettleEnding(0, FirstPair(w), 0, PromptsBefore(w), w);
  }

  lemma ChainHandsOver(metric: string, opts: Options, w: World)
    ensures HandsOver(Chain(w).events, AfterChain(metric, opts, w), LastPing(w))
  {
    Handover(metric, opts, w);
    AcceptedPing(w);
  }

  /** After the chain nothing pings or prompts, only the first event may fetch, and an
      exit can only be the last event. */
  lemma AfterChainShape(metric: string, opts: Options, w: World)
    ensures QuietTail(AfterChain(metric, opts, w))
  {
  }

  /** No event of `s` exits, fetches or pings. */
  ghost predicate Silent(s: seq<Event>)
  {
    forall i :: 0 <= i < |s| ==> !s[i].Exit? && !s[i].Fetch? && !s[i].Ping?
  }

  ghost predicate NoFetch(s: seq<Event>)
  {
    forall i :: 0 <= i < |s| ==> !s[i].Fetch?
  }

  /** An exit in `s` is its last event and nothing follows `s`. */
  ghost predicate ExitEndsAll(s: seq<Event>, a: seq<Event>)
  {
    forall i :: 0 <= i < |s| && s[i].Exit? ==> i == |s| - 1 && a == []
  }

  /** When `a` is not empty, `s` ends with `p`. */
  ghost predicate HandsOver(s: seq<Event>, a: seq<Event>, p: Event)
  {
    |a| > 0 ==> |s| > 0 && s[|s| - 1] == p
  }

  ghost predicate QuietTail(a: seq<Event>)
  {
    && (forall i :: 0 < i < |a| ==> !a[i].Fetch?)
    && (forall i :: 0 <= i < |a| ==> !a[i].Ping? && !a[i].Prompt?)
    && (forall i :: 0 <= i < |a| && a[i].Exit? ==> i == |a| - 1)
  }

  ghost predicate ExitsOnlyAtEnd(t: seq<Event>)
  {
    forall i :: 0 <= i < |t| && t[i].Exit? ==> i == |t| - 1
  }

  /** In `t`, a fetch is the first event of its tail `a`, right after the ping `p`, and
      nothing after it pings, prompts or fetches. */
  ghost predicate FetchesAtSeam(t: seq<Event>, a: seq<Event>, p: Event)
  {
    forall i :: 0 <= i < |t| && t[i].Fetch? ==>
      && 0 < i && |a| > 0 && t[i] == a[0] && t[|t| - 1] == a[|a| - 1] && t[i - 1] == p
      && (forall j :: i < j < |t| ==> !t[j].Ping? && !t[j].Prompt? && !t[j].Fetch?)
  }

  lemma ExitsAtEnd(t: seq<Event>, f: seq<Event>, s: seq<Event>, a: seq<Event>)
    requires t == f + s + a
    requires Silent(f) && ExitEndsAll(s, a) && QuietTail(a)
    ensures ExitsOnlyAtEnd(t)
  {
    forall i | 0 <= i < |t| && t[i].Exit?
      ensures i == |t| - 1
    {
      if i < |f| + |s| {
        assert t[i] == s[i - |f|];
      } else {
        assert t[i] == a[i - |f| - |s|];
      }
    }
  }

  lemma FetchAtSeam(t: seq<Event>, f: seq<Event>, s: seq<Event>, a: seq<Event>, p: Event)
    requires t == f + s + a
    requires |f| > 0 && Silent(f) && NoFetch(s) && HandsOver(s, a, p) && QuietTail(a)
    ensures FetchesAtSeam(t, a, p)
  {
    forall i | 0 <= i < |t| && t[i].Fetch?
      ensures 0 < i && |a| > 0 && t[i] == a[0] && t[|t| - 1] == a[|a| - 1] && t[i - 1] == p
      ensures forall j :: i < j < |t| ==> !t[j].Ping? && !t[j].Prompt? && !t[j].Fetch?
    {
      assert i >= |f| + |s|;
      assert t[i] == a[i - |f| - |s|];
      forall j | i < j < |t|
        ensures !t[j].Ping? && !t[j].Prompt? && !t[j].Fetch?
      {
        assert t[j] == a[j - |f| - |s|];
      }
    }
  }
}
