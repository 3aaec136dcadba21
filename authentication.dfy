/** The reply handler of `testChartMogulKeys` (index.js lines 88-127) and the retry
    rule it implements with the closure counter `attempts` (index.js lines 46, 105-117). */
module Authentication {
  import opened Wrappers
  import opened Interaction

  /** The highest `attempts` value at which a 401 still leads to a new prompt. */
  const RetryLimit := 3

  /** What the handler does after one ping: hand over to the metrics request, prompt
      again, quit on too many rejections, exit for want of a response, or print the error
      and do nothing more. */
  datatype Step = Accepted | Retry | GaveUp | Lost | Halted

  function OnPing(attempts: int, reply: Reply): Step
  {
    match reply
    case Success(_) => Accepted
    case Unauthorized => if attempts > RetryLimit then GaveUp else Retry
    case Failed(_) => Halted
    case NoResponse(_) => Lost
  }

  /** The console lines and the exit that follow a ping with the given reply. */
  function PingReport(attempts: int, reply: Reply): seq<Event>
  {
    match reply
    case Success(_) => []
    case Unauthorized =>
      [Report(KeysRejected)] + (if attempts > RetryLimit then ErrorOutEvents(Quitting) else [])
    case Failed(err) => [Report(HttpError(err))]
    case NoResponse(err) => [Report(HttpError(err)), Exit(1)]
  }

  /** How a chain of pings ends: the last step, the pair last tested, the counter, how
      many pings and prompts have happened in all, and the events of the chain. */
  datatype AuthEnd = AuthEnd(step: Step, cred: Credential, attempts: int, pings: nat, prompts: nat,
                             events: seq<Event>)

  /** The chain of pings starting with pair `c` when `attempts` is the counter and `pings`
      pings and `prompts` prompts have happened before: on each retried 401 the counter is
      bumped, the user is prompted, and the new pair is pinged. */
  function Settle(attempts: int, c: Credential, pings: nat, prompts: nat, w: World): (r: AuthEnd)
    requires 0 <= attempts <= RetryLimit + 1
    decreases RetryLimit + 1 - attempts
    ensures attempts <= r.attempts <= RetryLimit + 1
    ensures r.pings == pings + (r.attempts - attempts) + 1
    ensures r.step != Retry && r.step == OnPing(r.attempts, PingReply(w, r.pings - 1))
    ensures r.prompts == prompts + (r.attempts - attempts)
    ensures forall k :: pings <= k < r.pings - 1 ==> PingReply(w, k) == Unauthorized
    ensures r.cred == if r.pings == pings + 1 then c else Answer(w, r.prompts - 1)
  {
    var reply := PingReply(w, pings);
    var here := [Ping(c, reply)] + PingReport(attempts, reply);
    if OnPing(attempts, reply) == Retry then
      var next := Answer(w, prompts);
      var rest := Settle(attempts + 1, next, pings + 1, prompts + 1, w);
      rest.(events := here + PromptEvents(next) + rest.events)
    else
      AuthEnd(OnPing(attempts, reply), c, attempts, pings + 1, prompts, here)
  }

  /** Each ping of a chain is one that `Settle` counts. */
  lemma {:induction false} SettlePings(attempts: int, c: Credential, pings: nat, prompts: nat, w: World)
    requires 0 <= attempts <= RetryLimit + 1
    decreases RetryLimit + 1 - attempts
    ensures Pings(Settle(attempts, c, pings, prompts, w).events)
            == Settle(attempts, c, pings, prompts, w).pings - pings
  {
    var reply := PingReply(w, pings);
    var report := PingReport(attempts, reply);
    NoPings(report);
    PingsAppend([Ping(c, reply)], report);
    if OnPing(attempts, reply) == Retry {
      var next := Answer(w, prompts);
      SettlePings(attempts + 1, next, pings + 1, prompts + 1, w);
      NoPings(PromptEvents(next));
      PingsAppend([Ping(c, reply)] + report, PromptEvents(next));
      PingsAppend([Ping(c, reply)] + report + PromptEvents(next),
                  Settle(attempts + 1, next, pings + 1, prompts + 1, w).events);
    }
  }

  /** One retried 401: the ping, its console line, the prompt, then the rest of the chain. */
  lemma SettleRetry(attempts: int, c: Credential, pings: nat, prompts: nat, w: World)
    requires 0 <= attempts <= RetryLimit + 1
    requires OnPing(attempts, PingReply(w, pings)) == Retry
    ensures var r := Settle(attempts, c, pings, prompts, w);
            var rest := Settle(attempts + 1, Answer(w, prompts), pings + 1, prompts + 1, w);
            && r.step == rest.step && r.cred == rest.cred && r.attempts == rest.attempts
            && r.pings == rest.pings && r.prompts == rest.prompts
            && r.events == [Ping(c, PingReply(w, pings)), Report(KeysRejected)]
                           + PromptEvents(Answer(w, prompts)) + rest.events
  {
  }

  /** Any other reply ends the chain with that ping and its report. */
  lemma SettleLast(attempts: int, c: Credential, pings: nat, prompts: nat, w: World)
    requires 0 <= attempts <= RetryLimit + 1
    requires OnPing(attempts, PingReply(w, pings)) != Retry
    ensures Settle(attempts, c, pings, prompts, w)
            == AuthEnd(OnPing(attempts, PingReply(w, pings)), c, attempts, pings + 1, prompts,
                       [Ping(c, PingReply(w, pings))] + PingReport(attempts, PingReply(w, pings)))
  {
  }

  /** A chain begins with the ping of the pair it was started with. */
  lemma SettleFirst(attempts: int, c: Credential, pings: nat, prompts: nat, w: World)
    requires 0 <= attempts <= RetryLimit + 1
    ensures var r := Settle(attempts, c, pings, prompts, w);
            |r.events| > 0 && r.events[0] == Ping(c, PingReply(w, pings))
  {
    if OnPing(attempts, PingReply(w, pings)) == Retry {
      SettleRetry(attempts, c, pings, prompts, w);
    } else {
      SettleLast(attempts, c, pings, prompts, w);
    }
  }

  /** A chain ends with the ping that was accepted when it succeeds, and with exit status
      1 when it gives up or gets no response. */
  lemma {:induction false} SettleEnding(attempts: int, c: Credential, pings: nat, prompts: nat, w: World)
    requires 0 <= attempts <= RetryLimit + 1
    decreases RetryLimit + 1 - attempts
    ensures EndsAsStep(Settle(attempts, c, pings, prompts, w), w)
  {
    var reply := PingReply(w, pings);
    if OnPing(attempts, reply) == Retry {
      SettleEnding(attempts + 1, Answer(w, prompts), pings + 1, prompts + 1, w);
      SettleRetry(attempts, c, pings, prompts, w);
      AppendKeepsEnding(Settle(attempts + 1, Answer(w, prompts), pings + 1, prompts + 1, w),
                        [Ping(c, reply), Report(KeysRejected)] + PromptEvents(Answer(w, prompts)), w);
    } else {
      SettleLast(attempts, c, pings, prompts, w);
      FinalPingEnding(attempts, c, pings, prompts, w);
    }
  }

  lemma FinalPingEnding(attempts: int, c: Credential, pings: nat, prompts: nat, w: World)
    requires OnPing(attempts, PingReply(w, pings)) != Retry
    ensures var reply := PingReply(w, pings);
            EndsAsStep(AuthEnd(OnPing(attempts, reply), c, attempts, pings + 1, prompts,
                               [Ping(c, reply)] + PingReport(attempts, reply)), w)
  {
    if PingReply(w, pings) == Unauthorized {
      assert PingReport(attempts, PingReply(w, pings)) == [Report(KeysRejected), Report(Hinted(Quitting)), Exit(1)];
    }
  }

  ghost predicate EndsAsStep(r: AuthEnd, w: World)
    requires r.pings > 0
  {
    && (r.step == Accepted ==>
          |r.events| > 0 && r.events[|r.events| - 1] == Ping(r.cred, PingReply(w, r.pings - 1)))
    && (r.step == GaveUp || r.step == Lost ==> |r.events| > 0 && r.events[|r.events| - 1] == Exit(1))
  }

  lemma AppendKeepsEnding(rest: AuthEnd, front: seq<Event>, w: World)
    requires rest.pings > 0 && EndsAsStep(rest, w)
    ensures EndsAsStep(rest.(events := front + rest.events), w)
  {
  }

  /** A chain never requests metrics, and it exits, if at all, with status 1 as its last
      event, after giving up or getting no response. */
  lemma {:induction false} SettleExits(attempts: int, c: Credential, pings: nat, prompts: nat, w: World)
    requires 0 <= attempts <= RetryLimit + 1
    decreases RetryLimit + 1 - attempts
    ensures ExitsLast(Settle(attempts, c, pings, prompts, w))
  {
    var reply := PingReply(w, pings);
    if OnPing(attempts, reply) == Retry {
      var front := [Ping(c, reply), Report(KeysRejected)] + PromptEvents(Answer(w, prompts));
      SettleExits(attempts + 1, Answer(w, prompts), pings + 1, prompts + 1, w);
      SettleRetry(attempts, c, pings, prompts, w);
      PrefixKeepsExitsLast(Settle(attempts + 1, Answer(w, prompts), pings + 1, prompts + 1, w), front);
    } else {
      SettleLast(attempts, c, pings, prompts, w);
      FinalPingExitsLast(attempts, c, pings, prompts, reply);
    }
  }

  lemma FinalPingExitsLast(attempts: int, c: Credential, pings: nat, prompts: nat, reply: Reply)
    requires OnPing(attempts, reply) != Retry
    ensures ExitsLast(AuthEnd(OnPing(attempts, reply), c, attempts, pings + 1, prompts,
                              [Ping(c, reply)] + PingReport(attempts, reply)))
  {
    if reply == Unauthorized {
      assert PingReport(attempts, reply) == [Report(KeysRejected), Report(Hinted(Quitting)), Exit(1)];
    }
  }

  /** No metrics request, and an exit only as the last event, with status 1, after giving
      up or getting no response. */
  ghost predicate ExitsLast(r: AuthEnd)
  {
    forall i :: 0 <= i < |r.events| ==>
      && !r.events[i].Fetch?
      && (r.events[i].Exit? ==>
            i == |r.events| - 1 && r.events[i] == Exit(1) && (r.step == GaveUp || r.step == Lost))
  }

  lemma PrefixKeepsExitsLast(rest: AuthEnd, front: seq<Event>)
    requires ExitsLast(rest)
    requires forall i :: 0 <= i < |front| ==> !front[i].Fetch? && !front[i].Exit?
    ensures ExitsLast(rest.(events := front + rest.events))
  {
    var events := front + rest.events;
    forall i | |front| <= i < |events|
      ensures events[i] == rest.events[i - |front|]
    {
    }
  }

  /** A run of events without pings counts none. */
  lemma {:induction false} NoPings(s: seq<Event>)
    requires forall i :: 0 <= i < |s| ==> !s[i].Ping?
    ensures Pings(s) == 0
  {
    if s != [] {
      NoPings(s[1..]);
    }
  }

  /** Starting from counter `attempts`, the chain gives up exactly when the next
      `5 - attempts` pings are all rejected, and it then has made that many pings; from a
      fresh counter that is the fifth consecutive rejection. */
  lemma GiveUpIffRejected(attempts: int, c: Credential, pings: nat, prompts: nat, w: World)
    requires 0 <= attempts <= RetryLimit + 1
    ensures var r := Settle(attempts, c, pings, prompts, w);
            r.step == GaveUp <==> AllRejected(w, pings, pings + RetryLimit + 2 - attempts)
    ensures var r := Settle(attempts, c, pings, prompts, w);
            r.step == GaveUp ==> r.attempts == RetryLimit + 1 && r.pings == pings + RetryLimit + 2 - attempts
  {
    GiveUpMeansRejected(attempts, c, pings, prompts, w);
    if AllRejected(w, pings, pings + RetryLimit + 2 - attempts) {
      RejectedMeansGiveUp(attempts, c, pings, prompts, w);
    }
  }

  lemma GiveUpMeansRejected(attempts: int, c: Credential, pings: nat, prompts: nat, w: World)
    requires 0 <= attempts <= RetryLimit + 1
    ensures var r := Settle(attempts, c, pings, prompts, w);
            r.step == GaveUp ==>
              && r.attempts == RetryLimit + 1 && r.pings == pings + RetryLimit + 2 - attempts
              && AllRejected(w, pings, pings + RetryLimit + 2 - attempts)
  {
    GaveUpAfterRejections(Settle(attempts, c, pings, prompts, w), attempts, pings, w);
  }

  lemma GaveUpAfterRejections(r: AuthEnd, attempts: int, pings: nat, w: World)
    requires attempts <= r.attempts <= RetryLimit + 1
    requires r.pings == pings + (r.attempts - attempts) + 1
    requires r.step != Retry && r.step == OnPing(r.attempts, PingReply(w, r.pings - 1))
    requires forall k :: pings <= k < r.pings - 1 ==> PingReply(w, k) == Unauthorized
    ensures r.step == GaveUp ==>
              && r.attempts == RetryLimit + 1 && r.pings == pings + RetryLimit + 2 - attempts
              && AllRejected(w, pings, pings + RetryLimit + 2 - attempts)
  {
    if r.step == GaveUp {
      assert PingReply(w, r.pings - 1) == Unauthorized;
    }
  }

  lemma {:induction false} RejectedMeansGiveUp(attempts: int, c: Credential, pings: nat, prompts: nat, w: World)
    requires 0 <= attempts <= RetryLimit + 1
    requires AllRejected(w, pings, pings + RetryLimit + 2 - attempts)
    ensures Settle(attempts, c, pings, prompts, w).step == GaveUp
    decreases RetryLimit + 1 - attempts
  {
    assert PingReply(w, pings) == Unauthorized;
    if attempts <= RetryLimit {
      RejectedMeansGiveUp(attempts + 1, Answer(w, prompts), pings + 1, prompts + 1, w);
    }
  }

  /** Every ping numbered from `lo` up to but excluding `hi` is answered with a 401. */
  ghost predicate AllRejected(w: World, lo: nat, hi: nat)
  {
    forall k :: lo <= k < hi ==> PingReply(w, k) == Unauthorized
  }

  /** The counter never passes 4, so a chain makes at most five pings. */
  lemma AtMostFivePings(attempts: int, c: Credential, pings: nat, prompts: nat, w: World)
    requires 0 <= attempts <= RetryLimit + 1
    ensures Pings(Settle(attempts, c, pings, prompts, w).events) <= RetryLimit + 2 - attempts
  {
    SettlePings(attempts, c, pings, prompts, w);
  }

  /** The quitting message is printed in a chain exactly when the chain gives up. */
  lemma {:induction false} SettleQuits(attempts: int, c: Credential, pings: nat, prompts: nat, w: World)
    requires 0 <= attempts <= RetryLimit + 1
    decreases RetryLimit + 1 - attempts
    ensures QuitsIffGaveUp(Settle(attempts, c, pings, prompts, w))
  {
    var reply := PingReply(w, pings);
    if OnPing(attempts, reply) == Retry {
      SettleQuits(attempts + 1, Answer(w, prompts), pings + 1, prompts + 1, w);
      SettleRetry(attempts, c, pings, prompts, w);
      PrefixKeepsQuits(Settle(attempts + 1, Answer(w, prompts), pings + 1, prompts + 1, w),
                       [Ping(c, reply), Report(KeysRejected)] + PromptEvents(Answer(w, prompts)));
    } else {
      SettleLast(attempts, c, pings, prompts, w);
      FinalPingQuits(attempts, c, pings, prompts, reply);
    }
  }

  ghost predicate QuitsIffGaveUp(r: AuthEnd)
  {
    Report(Hinted(Quitting)) in r.events <==> r.step == GaveUp
  }

  lemma FinalPingQuits(attempts: int, c: Credential, pings: nat, prompts: nat, reply: Reply)
    requires OnPing(attempts, reply) != Retry
    ensures QuitsIffGaveUp(AuthEnd(OnPing(attempts, reply), c, attempts, pings + 1, prompts,
                                   [Ping(c, reply)] + PingReport(attempts, reply)))
  {
    if reply == Unauthorized {
      assert PingReport(attempts, reply) == [Report(KeysRejected), Report(Hinted(Quitting)), Exit(1)];
    }
  }

  lemma PrefixKeepsQuits(rest: AuthEnd, front: seq<Event>)
    requires QuitsIffGaveUp(rest) && Report(Hinted(Quitting)) !in front
    ensures QuitsIffGaveUp(rest.(events := front + rest.events))
  {
  }
}
