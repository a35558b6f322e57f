/**
 * The retry state machine of `YouTubeScraper._make_request`
 * (youtube_scraper/scraper.py), stated as functions of the scripted answers
 * the network gives. One frame of the recursion is `Attempt`; its `except`
 * handler is `Recover`. A deeper frame's failure propagates into the frame
 * that called it, and that frame's handler retries once more: the recursion
 * is modelled exactly as written, not as a loop.
 */
module Retry {

  import opened Wrappers
  import opened Records
  import opened Backoff
  import opened Proxies

  /** The constructor arguments `_make_request` reads. */
  datatype Config = Config(useProxies: bool, maxRetries: int, sleepInterval: real)

  /** A GET request issued by the scraper's session. */
  datatype Sent = Sent(url: string, proxy: Option<string>)

  /** The part of the scraper's state a request touches: the proxy pool and
      its refresh time, and the logs of requested sleeps and sent requests. */
  datatype Net = Net(pool: seq<string>, lastRefresh: real, waits: seq<Wait>, sent: seq<Sent>)

  /** The answer to one GET: it raised, or it has a status and a body whose
      `json()` either decodes (Some) or raises (None). */
  datatype Reply = Raised | Answered(status: int, json: Option<Json>)

  /** Everything the outside world decides for one attempt: the clock and the
      proxy lists' answers for `_get_proxy`, its random pick, and the reply. */
  datatype Draw = Draw(now: real, sources: SourceReplies, pick: nat, reply: Reply)

  /** The exception a failed call ends with: `Exception("Max retries
      exceeded")` from `_handle_rate_limit`, or one raised by the request. */
  datatype Failure = MaxRetriesExceeded | RequestRaised

  /** How a call ends: the decoded body, an exception, or still running when
      the scripted draws ran out. */
  datatype Fetch = Fetched(json: Json) | Failed(why: Failure) | Pending

  /** The end of a call: how it ended, the new state and the unused draws. */
  datatype Outcome = Outcome(fetch: Fetch, net: Net, rest: seq<Draw>)

  /** A reply `_make_request` returns: neither 429 nor 403, with a body that decodes. */
  predicate Accepted(reply: Reply) {
    reply.Answered? && reply.status != 429 && reply.status != 403 && reply.json.Some?
  }

  /** The proxy used for an attempt and the state once it is sent. */
  datatype Issued = Issued(proxy: Option<string>, net: Net)

  /** `proxy = await self._get_proxy() if self.use_proxies else None`, then the GET. */
  function Issue(cfg: Config, url: string, now: real, sources: SourceReplies, pick: nat, net: Net): (r: Issued)
    ensures r.net.waits == net.waits && r.net.sent == net.sent + [Sent(url, r.proxy)]
    ensures r.proxy.Some? ==> r.proxy.value in r.net.pool
    ensures !cfg.useProxies ==> r.proxy.None? && r.net.pool == net.pool && r.net.lastRefresh == net.lastRefresh
  {
    if cfg.useProxies then
      var p := GetProxy(net.pool, net.lastRefresh, now, sources, pick);
      Issued(p.proxy, Net(p.pool, p.lastRefresh, net.waits, net.sent + [Sent(url, p.proxy)]))
    else Issued(None, net.(sent := net.sent + [Sent(url, None)]))
  }

  /** The pool after a 403: `if proxy: self.proxy_pool.remove(proxy)`. The
      proxy was just picked from the pool, so `remove` always finds it. */
  function Blocked(i: Issued): Net {
    if i.proxy.Some? && i.proxy.value != "" then i.net.(pool := RemoveFirst(i.net.pool, i.proxy.value))
    else i.net
  }

  /** The sleep of the `except` handler: `uniform(sleep_interval, 2 * sleep_interval)`. */
  function RetryPause(cfg: Config): Wait {
    Wait(cfg.sleepInterval, 2.0 * cfg.sleepInterval)
  }

  /** `rest` is what remains of `script` once a prefix is consumed. */
  predicate Suffix<T(==)>(rest: seq<T>, script: seq<T>) {
    |rest| <= |script| && rest == script[|script| - |rest|..]
  }

  predicate Prefix<T(==)>(a: seq<T>, b: seq<T>) {
    |a| <= |b| && b[..|a|] == a
  }

  /** What every part of a call guarantees about the state it leaves behind:
      it consumed a prefix of the draws, sent one request per draw consumed,
      only appended to the logs, and used up the draws when it is still
      pending; a body it returns is the body of the last reply it consumed;
      without proxies the pool is untouched. */
  predicate Advances(cfg: Config, script: seq<Draw>, net: Net, r: Outcome) {
    && Suffix(r.rest, script)
    && |r.net.sent| == |net.sent| + (|script| - |r.rest|) && Prefix(net.sent, r.net.sent)
    && Prefix(net.waits, r.net.waits)
    && (r.fetch.Pending? ==> r.rest == [])
    && (r.fetch.Fetched? ==>
          && |r.rest| < |script|
          && Accepted(script[|script| - |r.rest| - 1].reply)
          && script[|script| - |r.rest| - 1].reply.json == Some(r.fetch.json))
    && (!cfg.useProxies ==> r.net.pool == net.pool && r.net.lastRefresh == net.lastRefresh)
  }

  /** Two parts run one after the other advance like one part. */
  lemma AdvancesTrans(cfg: Config, script: seq<Draw>, net: Net, first: Outcome, second: Outcome)
    requires first.fetch.Failed?
    requires Advances(cfg, script, net, first) && Advances(cfg, first.rest, first.net, second)
    ensures Advances(cfg, script, net, second)
  {
    var k := |script| - |first.rest|;
    assert second.rest == script[|script| - |second.rest|..];
    if second.fetch.Fetched? {
      assert first.rest[|first.rest| - |second.rest| - 1] == script[|script| - |second.rest| - 1];
    }
    assert second.net.sent[..|net.sent|] == second.net.sent[..|first.net.sent|][..|net.sent|];
    assert second.net.waits[..|net.waits|] == second.net.waits[..|first.net.waits|][..|net.waits|];
  }

  /** The first step of a frame: the request is sent and, perhaps, a sleep logged. */
  lemma AdvancesIssue(cfg: Config, url: string, script: seq<Draw>, net: Net, mid: Net)
    requires script != []
    requires mid.sent == Issue(cfg, url, script[0].now, script[0].sources, script[0].pick, net).net.sent
    requires Prefix(net.waits, mid.waits)
    requires !cfg.useProxies ==> mid.pool == net.pool && mid.lastRefresh == net.lastRefresh
    ensures Advances(cfg, script, net, Outcome(Failed(RequestRaised), mid, script[1..]))
  {
    assert mid.sent[..|net.sent|] == net.sent;
  }

  /** One frame, `_make_request(url, retryCount)`, run on the draws `script`.
      Every frame consumes at least one draw. */
  function Attempt(cfg: Config, url: string, retryCount: nat, script: seq<Draw>, net: Net): (r: Outcome)
    ensures Advances(cfg, script, net, r)
    ensures script != [] ==> |r.rest| < |script|
    decreases |script|, 0
  {
    if script == [] then Outcome(Pending, net, [])
    else
      var i := Issue(cfg, url, script[0].now, script[0].sources, script[0].pick, net);
      var step := Outcome(Failed(RequestRaised), i.net, script[1..]);
      AdvancesIssue(cfg, url, script, net, i.net);
      match script[0].reply
      case Raised =>
        var r := Recover(cfg, url, retryCount, RequestRaised, script[1..], i.net);
        AdvancesTrans(cfg, script, net, step, r); r
      case Answered(status, json) =>
        if status == 429 then
          var w := RateLimitWait(cfg.maxRetries, retryCount);
          if w.None? then
            var r := Recover(cfg, url, retryCount, MaxRetriesExceeded, script[1..], i.net);
            AdvancesTrans(cfg, script, net, step, r); r
          else
            var mid := i.net.(waits := i.net.waits + [w.value]);
            AdvancesIssue(cfg, url, script, net, mid);
            var r := Deeper(cfg, url, retryCount, script[1..], mid);
            AdvancesTrans(cfg, script, net, step.(net := mid), r); r
        else if status == 403 then
          var mid := Blocked(i);
          AdvancesIssue(cfg, url, script, net, mid);
          var r := Deeper(cfg, url, retryCount, script[1..], mid);
          AdvancesTrans(cfg, script, net, step.(net := mid), r); r
        else if json.None? then
          var r := Recover(cfg, url, retryCount, RequestRaised, script[1..], i.net);
          AdvancesTrans(cfg, script, net, step, r); r
        else Outcome(Fetched(json.value), i.net, script[1..])
  }

  /** A frame returns a body using only its first draw exactly when that
      draw's reply is accepted; the body is then that reply's JSON, and the
      frame sent one request and slept not at all. */
  lemma AcceptedAtOnce(cfg: Config, url: string, retryCount: nat, script: seq<Draw>, net: Net)
    requires script != []
    ensures var r := Attempt(cfg, url, retryCount, script, net);
      Accepted(script[0].reply) <==> r.fetch.Fetched? && r.rest == script[1..]
    ensures Accepted(script[0].reply) ==>
      Attempt(cfg, url, retryCount, script, net)
        == Outcome(Fetched(script[0].reply.json.value), Issue(cfg, url, script[0].now, script[0].sources, script[0].pick, net).net, script[1..])
  {
    var r := Attempt(cfg, url, retryCount, script, net);
    if r.fetch.Fetched? && r.rest == script[1..] {
      assert |script| - |r.rest| - 1 == 0;
    }
  }

  /** `return await self._make_request(url, retryCount + 1)` inside the
      frame's `try`: an exception from the deeper frame reaches this frame's
      handler. */
  function Deeper(cfg: Config, url: string, retryCount: nat, script: seq<Draw>, net: Net): (r: Outcome)
    ensures Advances(cfg, script, net, r)
    decreases |script|, 2
  {
    var d := Attempt(cfg, url, retryCount + 1, script, net);
    if d.fetch.Failed? then
      var r := Recover(cfg, url, retryCount, d.fetch.why, d.rest, d.net);
      AdvancesTrans(cfg, script, net, d, r); r
    else d
  }

  /** The frame's `except` handler: below the ceiling it sleeps and calls the
      next frame, outside the `try`, so that frame's exception leaves this
      frame; at the ceiling it re-raises. */
  function Recover(cfg: Config, url: string, retryCount: nat, why: Failure, script: seq<Draw>, net: Net): (r: Outcome)
    ensures Advances(cfg, script, net, r)
    ensures retryCount >= cfg.maxRetries ==> r == Outcome(Failed(why), net, script)
    decreases |script|, 1
  {
    if retryCount < cfg.maxRetries then
      var mid := net.(waits := net.waits + [RetryPause(cfg)]);
      var r := Attempt(cfg, url, retryCount + 1, script, mid);
      assert mid.waits[..|net.waits|] == net.waits;
      AdvancesTrans(cfg, script, net, Outcome(Failed(why), mid, script), r); r
    else Outcome(Failed(why), net, script)
  }

  /** Every reply in the script has this status. */
  predicate AllStatus(script: seq<Draw>, status: int) {
    forall i :: 0 <= i < |script| ==> script[i].reply.Answered? && script[i].reply.status == status
  }

  /** Every reply in the script raises: the GET itself, or `json()`. */
  predicate AllRaise(script: seq<Draw>) {
    forall i :: 0 <= i < |script| ==>
      script[i].reply.Raised? || (script[i].reply.status != 429 && script[i].reply.status != 403 && script[i].reply.json.None?)
  }

  /** The retries a frame has left before the ceiling. */
  function Headroom(cfg: Config, retryCount: nat): nat {
    if retryCount < cfg.maxRetries then cfg.maxRetries - retryCount else 0
  }

  lemma SuffixAllStatus(script: seq<Draw>, rest: seq<Draw>, status: int)
    requires AllStatus(script, status) && Suffix(rest, script)
    ensures AllStatus(rest, status)
  {
    forall i | 0 <= i < |rest| ensures rest[i].reply.Answered? && rest[i].reply.status == status {
      assert rest[i] == script[|script| - |rest| + i];
    }
  }

  /** A frame whose first reply is a 429 below the ceiling goes one frame
      deeper after the backoff sleep; at the ceiling it fails. */
  lemma RateLimitedFrame(cfg: Config, url: string, retryCount: nat, script: seq<Draw>, net: Net)
    requires script != [] && script[0].reply.Answered? && script[0].reply.status == 429
    ensures var i := Issue(cfg, url, script[0].now, script[0].sources, script[0].pick, net);
      && (retryCount < cfg.maxRetries ==>
            var mid := i.net.(waits := i.net.waits + [RateLimitWait(cfg.maxRetries, retryCount).value]);
            Attempt(cfg, url, retryCount, script, net) == Deeper(cfg, url, retryCount, script[1..], mid))
      && (retryCount >= cfg.maxRetries ==>
            Attempt(cfg, url, retryCount, script, net) == Recover(cfg, url, retryCount, MaxRetriesExceeded, script[1..], i.net))
  {
  }

  /** Below the ceiling, a deeper frame that fails is followed by the
      handler's sleep and one more frame. */
  lemma DeeperFailed(cfg: Config, url: string, retryCount: nat, script: seq<Draw>, net: Net)
    requires retryCount < cfg.maxRetries
    ensures var d := Attempt(cfg, url, retryCount + 1, script, net);
      d.fetch.Failed? ==>
        Deeper(cfg, url, retryCount, script, net) ==
          Attempt(cfg, url, retryCount + 1, d.rest, d.net.(waits := d.net.waits + [RetryPause(cfg)]))
  {
  }

  /** A server that always answers 429: every frame below the ceiling sleeps,
      calls the next frame, and when that one fails calls it once more from
      its handler. With `h` retries left the call fails with "Max retries
      exceeded" after 2^(h+1) - 1 requests. */
  lemma {:induction false} AlwaysRateLimited(cfg: Config, url: string, retryCount: nat, script: seq<Draw>, net: Net)
    requires AllStatus(script, 429)
    requires |script| >= Pow2(Headroom(cfg, retryCount) + 1) - 1
    ensures var r := Attempt(cfg, url, retryCount, script, net);
      && r.fetch == Failed(MaxRetriesExceeded)
      && |script| - |r.rest| == Pow2(Headroom(cfg, retryCount) + 1) - 1
    decreases Headroom(cfg, retryCount)
  {
    var h := Headroom(cfg, retryCount);
    var i := Issue(cfg, url, script[0].now, script[0].sources, script[0].pick, net);
    RateLimitedFrame(cfg, url, retryCount, script, net);
    if retryCount < cfg.maxRetries {
      var mid := i.net.(waits := i.net.waits + [RateLimitWait(cfg.maxRetries, retryCount).value]);
      assert Headroom(cfg, retryCount + 1) + 1 == h;
      var p := Pow2(h);
      assert Pow2(h + 1) == 2 * p && Pow2(Headroom(cfg, retryCount + 1) + 1) == p;
      SuffixAllStatus(script, script[1..], 429);
      AlwaysRateLimited(cfg, url, retryCount + 1, script[1..], mid);
      var d := Attempt(cfg, url, retryCount + 1, script[1..], mid);
      var again := d.net.(waits := d.net.waits + [RetryPause(cfg)]);
      SuffixAllStatus(script[1..], d.rest, 429);
      AlwaysRateLimited(cfg, url, retryCount + 1, d.rest, again);
      DeeperFailed(cfg, url, retryCount, script[1..], mid);
      var e := Attempt(cfg, url, retryCount + 1, d.rest, again);
      assert Attempt(cfg, url, retryCount, script, net) == e;
    } else {
      assert Pow2(h + 1) == 2;
    }
  }

  /** With the default `max_retries = 3`, a first call that only ever gets
      429 sends 15 requests before it gives up. */
  lemma DefaultRateLimitedRequests(url: string, sleepInterval: real, useProxies: bool, script: seq<Draw>, net: Net)
    requires AllStatus(script, 429) && |script| >= 15
    ensures var r := Attempt(Config(useProxies, 3, sleepInterval), url, 0, script, net);
      r.fetch == Failed(MaxRetriesExceeded) && |r.net.sent| == |net.sent| + 15
  {
    AlwaysRateLimited(Config(useProxies, 3, sleepInterval), url, 0, script, net);
    assert Pow2(4) == 16;
  }

  /** A request that always raises is retried by the handler, each retry one
      frame deeper and outside the `try`: with `h` retries left the call
      fails after h + 1 requests and h sleeps of the handler's length. */
  lemma {:induction false} AlwaysRaising(cfg: Config, url: string, retryCount: nat, script: seq<Draw>, net: Net)
    requires AllRaise(script)
    requires |script| >= Headroom(cfg, retryCount) + 1
    ensures var r := Attempt(cfg, url, retryCount, script, net);
      && r.fetch == Failed(RequestRaised)
      && |script| - |r.rest| == Headroom(cfg, retryCount) + 1
      && |r.net.waits| == |net.waits| + Headroom(cfg, retryCount)
      && forall k :: |net.waits| <= k < |r.net.waits| ==> r.net.waits[k] == RetryPause(cfg)
    decreases Headroom(cfg, retryCount)
  {
    var i := Issue(cfg, url, script[0].now, script[0].sources, script[0].pick, net);
    if retryCount < cfg.maxRetries {
      var mid := i.net.(waits := i.net.waits + [RetryPause(cfg)]);
      assert AllRaise(script[1..]) by {
        forall k | 0 <= k < |script[1..]| ensures script[1..][k] == script[k + 1] { }
      }
      AlwaysRaising(cfg, url, retryCount + 1, script[1..], mid);
      var r := Attempt(cfg, url, retryCount + 1, script[1..], mid);
      assert Attempt(cfg, url, retryCount, script, net) == r;
      forall k | |net.waits| <= k < |r.net.waits| ensures r.net.waits[k] == RetryPause(cfg) {
        if k < |mid.waits| {
          assert r.net.waits[..|mid.waits|] == mid.waits;
          assert r.net.waits[k] == mid.waits[k];
        }
      }
    }
  }

  /** A server that always answers 403 is retried at once, with no sleep and
      no ceiling whatever the retry count: no status check, retry ceiling or
      wait ever stops the call, which uses up every draw, one request each.
      Only the interpreter's recursion limit would stop it. */
  lemma {:induction false} EndlessBlocks(cfg: Config, url: string, retryCount: nat, script: seq<Draw>, net: Net)
    requires AllStatus(script, 403)
    ensures var r := Attempt(cfg, url, retryCount, script, net);
      && r.fetch == Pending && r.rest == []
      && |r.net.sent| == |net.sent| + |script|
      && r.net.waits == net.waits
    decreases |script|
  {
    if script != [] {
      var i := Issue(cfg, url, script[0].now, script[0].sources, script[0].pick, net);
      SuffixAllStatus(script, script[1..], 403);
      EndlessBlocks(cfg, url, retryCount + 1, script[1..], Blocked(i));
    }
  }

  /** A 403 with a proxy takes exactly one occurrence of that proxy out of
      the pool and keeps every other entry. */
  lemma BlockDropsOneOccurrence(cfg: Config, url: string, d: Draw, net: Net)
    requires cfg.useProxies
    ensures var i := Issue(cfg, url, d.now, d.sources, d.pick, net);
      && (i.proxy.None? <==> i.net.pool == [])
      && (i.proxy.Some? && i.proxy.value != "" ==>
            && |Blocked(i).pool| == |i.net.pool| - 1
            && multiset(Blocked(i).pool) == multiset(i.net.pool) - multiset{i.proxy.value})
  {
    var i := Issue(cfg, url, d.now, d.sources, d.pick, net);
    if i.proxy.Some? && i.proxy.value != "" {
      RemoveFirstOneOccurrence(i.net.pool, i.proxy.value);
    }
  }
}
