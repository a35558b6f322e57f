/**
 * The candidate-URL loop of `YouTubeScraper.scrape_channel`
 * (youtube_scraper/scraper.py) and the record it returns, stated as
 * functions of the answers the three candidate pages give.
 */
module Channels {

  import opened Wrappers
  import opened Text
  import opened Backoff
  import opened Proxies
  import opened Records
  import opened Retry

  /** `s.split(sep)[-1]`. */
  function LastPart(s: string, sep: char): string {
    var parts := Split(s, sep);
    parts[|parts| - 1]
  }

  /** The channel handle: the text after the last `@`, or when there is
      none, after the last `/`. */
  function ChannelHandle(url: string): string {
    if '@' in url then LastPart(url, '@') else LastPart(url, '/')
  }

  /** The handle is the tail of the URL after its last `@` (or, without
      one, its last `/`, or the whole URL when it has neither). */
  lemma ChannelHandleRule(url: string)
    ensures var h := ChannelHandle(url);
      && ('@' in url ==> '@' !in h && exists prefix :: url == prefix + ['@'] + h)
      && ('@' !in url && '/' in url ==> '/' !in h && exists prefix :: url == prefix + ['/'] + h)
      && ('@' !in url && '/' !in url ==> h == url)
  {
    var h := ChannelHandle(url);
    if '@' in url {
      assert h == LastPart(url, '@');
      SplitLastPart(url, '@');
    } else {
      assert h == LastPart(url, '/');
      SplitLastPart(url, '/');
    }
  }

  const ChannelHost: string := "https://www.youtube.com/"

  /** The pages tried, in order: `@handle`, `c/handle`, `channel/handle`. */
  function ChannelCandidates(handle: string): (urls: seq<string>)
    ensures |urls| == 3
  {
    [ChannelHost + "@" + handle, ChannelHost + "c/" + handle, ChannelHost + "channel/" + handle]
  }

  /** The answer to one candidate: the GET raised, or a status and a body
      whose `text()` either reads (Some) or raises (None). */
  datatype PageReply = PageRaised | PageAnswered(status: int, text: Option<string>)

  /** What the outside world decides for one candidate. */
  datatype PageDraw = PageDraw(now: real, sources: SourceReplies, pick: nat, reply: PageReply)

  /** The sleep after a candidate that raised: `uniform(1, 2)`. */
  const FailPause: Wait := Wait(1.0, 2.0)

  /** The sleep after a status other than 200, 403 and 429: `uniform(2, 4)`. */
  const OtherStatusPause: Wait := Wait(2.0, 4.0)

  /** A candidate that ends the loop: a 200 whose body was read. */
  predicate Delivered(d: PageDraw) {
    d.reply.PageAnswered? && d.reply.status == 200 && d.reply.text.Some?
  }

  /** One candidate: the page text when it ends the loop, and the state. */
  datatype Step = Step(html: Option<string>, net: Net)

  /** One pass of the loop body on the candidate `url`. A 429 calls
      `_handle_rate_limit(0)`, whose exception (when `max_retries <= 0`) the
      loop's own handler catches. */
  function TryOne(cfg: Config, url: string, d: PageDraw, net: Net): (r: Step)
    ensures r.html.Some? <==> Delivered(d)
    ensures r.html.Some? ==> r.html == d.reply.text
    ensures |r.net.sent| == |net.sent| + 1 && Prefix(net.sent, r.net.sent) && r.net.sent[|net.sent|].url == url
    ensures Prefix(net.waits, r.net.waits) && |r.net.waits| <= |net.waits| + 1
    ensures |r.net.waits| == |net.waits| + 1 ==>
      r.net.waits[|net.waits|] in {FailPause, OtherStatusPause, Wait(1.0, 1.1)}
  {
    var i := Issue(cfg, url, d.now, d.sources, d.pick, net);
    assert i.net.sent[..|net.sent|] == net.sent;
    var failed := i.net.(waits := i.net.waits + [FailPause]);
    assert failed.waits[..|net.waits|] == net.waits;
    match d.reply
    case PageRaised => Step(None, failed)
    case PageAnswered(status, text) =>
      if status == 200 then
        if text.Some? then Step(text, i.net) else Step(None, failed)
      else if status == 429 then
        var w := RateLimitWait(cfg.maxRetries, 0);
        if w.None? then Step(None, failed)
        else
          var waited := i.net.(waits := i.net.waits + [w.value]);
          assert waited.waits[..|net.waits|] == net.waits;
          Step(None, waited)
      else if status == 403 then Step(None, Blocked(i))
      else
        var paused := i.net.(waits := i.net.waits + [OtherStatusPause]);
        assert paused.waits[..|net.waits|] == net.waits;
        Step(None, paused)
  }

  /** How one candidate reacts to each answer that does not deliver it: a
      429 waits `_handle_rate_limit(0)`'s 1 to 1.1 s (or, when that raises
      because `max_retries <= 0`, the handler's 1 to 2 s); a 403 drops one
      occurrence of the proxy and waits nothing; any other status waits 2 to
      4 s; an exception waits 1 to 2 s. No candidate changes the pool except
      through the proxy refresh and the 403 drop. */
  lemma TryOneReactions(cfg: Config, url: string, d: PageDraw, net: Net)
    ensures var i := Issue(cfg, url, d.now, d.sources, d.pick, net);
      var r := TryOne(cfg, url, d, net);
      && (d.reply.PageRaised? ==> r.net == i.net.(waits := net.waits + [FailPause]))
      && (d.reply.PageAnswered? && d.reply.status == 429 ==>
            r.net == i.net.(waits := net.waits + [if cfg.maxRetries > 0 then Wait(1.0, 1.1) else FailPause]))
      && (d.reply.PageAnswered? && d.reply.status == 403 ==>
            && r.net.waits == net.waits && r.net.sent == i.net.sent
            && (i.proxy.Some? && i.proxy.value != "" ==>
                  multiset(r.net.pool) == multiset(i.net.pool) - multiset{i.proxy.value})
            && (i.proxy.None? || i.proxy.value == "" ==> r.net.pool == i.net.pool))
      && (d.reply.PageAnswered? && d.reply.status != 200 && d.reply.status != 403 && d.reply.status != 429 ==>
            r.net == i.net.(waits := net.waits + [OtherStatusPause]))
  {
    var i := Issue(cfg, url, d.now, d.sources, d.pick, net);
    if d.reply.PageAnswered? && d.reply.status == 403 && i.proxy.Some? && i.proxy.value != "" {
      RemoveFirstOneOccurrence(i.net.pool, i.proxy.value);
    }
  }

  /** What the loop leaves: the page text and the URL it came from, if any. */
  datatype Found = Found(html: Option<string>, usedUrl: Option<string>, net: Net)

  /** `for try_url in urls_to_try`, with one draw per candidate. */
  function TryCandidates(cfg: Config, urls: seq<string>, draws: seq<PageDraw>, net: Net): Found
    requires |draws| == |urls|
  {
    if urls == [] then Found(None, None, net)
    else
      var s := TryOne(cfg, urls[0], draws[0], net);
      if s.html.Some? then Found(s.html, Some(urls[0]), s.net)
      else TryCandidates(cfg, urls[1..], draws[1..], s.net)
  }

  /** The loop from candidate `i` on: that candidate, then, if it did not
      deliver, the rest. */
  lemma TryCandidatesStep(cfg: Config, urls: seq<string>, draws: seq<PageDraw>, net: Net, i: nat)
    requires |draws| == |urls| && i < |urls|
    ensures var s := TryOne(cfg, urls[i], draws[i], net);
      TryCandidates(cfg, urls[i..], draws[i..], net) ==
        if s.html.Some? then Found(s.html, Some(urls[i]), s.net) else TryCandidates(cfg, urls[i + 1..], draws[i + 1..], s.net)
  {
    assert urls[i..][0] == urls[i] && urls[i..][1..] == urls[i + 1..];
    assert draws[i..][0] == draws[i] && draws[i..][1..] == draws[i + 1..];
  }

  /** The loop finds a page exactly when some candidate delivers, and then
      it is the first delivering candidate's page and URL, after one request
      to it and to each candidate before it. */
  lemma {:induction false} TryCandidatesFinds(cfg: Config, urls: seq<string>, draws: seq<PageDraw>, net: Net)
    requires |draws| == |urls|
    ensures var r := TryCandidates(cfg, urls, draws, net);
      && (r.html.Some? <==> exists j :: 0 <= j < |urls| && Delivered(draws[j]))
      && (r.html.Some? ==> exists j :: (0 <= j < |urls| && Delivered(draws[j])
            && (forall i :: 0 <= i < j ==> !Delivered(draws[i]))
            && r.html == draws[j].reply.text && r.usedUrl == Some(urls[j])
            && |r.net.sent| == |net.sent| + j + 1))
      && (r.html.None? ==> r.usedUrl.None? && |r.net.sent| == |net.sent| + |urls|)
  {
    if urls != [] {
      var s := TryOne(cfg, urls[0], draws[0], net);
      if s.html.None? {
        TryCandidatesFinds(cfg, urls[1..], draws[1..], s.net);
        var t := TryCandidates(cfg, urls[1..], draws[1..], s.net);
        assert TryCandidates(cfg, urls, draws, net) == t;
        assert forall j :: 1 <= j < |urls| ==> draws[j] == draws[1..][j - 1] && urls[j] == urls[1..][j - 1];
        if t.html.Some? {
          var j :| 0 <= j < |urls[1..]| && Delivered(draws[1..][j])
            && (forall i :: 0 <= i < j ==> !Delivered(draws[1..][i]))
            && t.html == draws[1..][j].reply.text && t.usedUrl == Some(urls[1..][j])
            && |t.net.sent| == |s.net.sent| + j + 1;
          assert forall i :: 0 <= i < j + 1 ==> !Delivered(draws[i]);
          assert Delivered(draws[j + 1]);
        }
      } else {
        assert Delivered(draws[0]);
      }
    }
  }

  /** The requests go to the candidates in order, one each; the logs only
      grow; and there is at most one sleep per request. */
  lemma {:induction false} TryCandidatesSends(cfg: Config, urls: seq<string>, draws: seq<PageDraw>, net: Net)
    requires |draws| == |urls|
    ensures var r := TryCandidates(cfg, urls, draws, net);
      && Prefix(net.sent, r.net.sent)
      && |r.net.sent| <= |net.sent| + |urls|
      && (forall i :: |net.sent| <= i < |r.net.sent| ==> r.net.sent[i].url == urls[i - |net.sent|])
      && Prefix(net.waits, r.net.waits)
      && |r.net.waits| - |net.waits| <= |r.net.sent| - |net.sent|
  {
    if urls != [] {
      var s := TryOne(cfg, urls[0], draws[0], net);
      if s.html.None? {
        TryCandidatesSends(cfg, urls[1..], draws[1..], s.net);
        var r := TryCandidates(cfg, urls[1..], draws[1..], s.net);
        assert TryCandidates(cfg, urls, draws, net) == r;
        assert r.net.sent[..|net.sent|] == r.net.sent[..|s.net.sent|][..|net.sent|];
        assert r.net.waits[..|net.waits|] == r.net.waits[..|s.net.waits|][..|net.waits|];
        forall i | |net.sent| <= i < |r.net.sent| ensures r.net.sent[i].url == urls[i - |net.sent|] {
          if i == |net.sent| {
            assert r.net.sent[i] == r.net.sent[..|s.net.sent|][i];
          } else {
            assert urls[i - |net.sent|] == urls[1..][i - |s.net.sent|];
          }
        }
      }
    }
  }

  /** The record returned when no page was read or it was empty: the handle
      as id and title, the input URL as custom URL, zero counts. */
  function FallbackChannel(handle: string, url: string): (c: ChannelMetadata)
    ensures c.channelId == handle && c.title == handle && c.customUrl == Some(url)
    ensures c.subscriberCount == Some(0) && c.videoCount == 0 && c.viewCount == 0
  {
    ChannelMetadata(handle, handle, Some(""), Some(0), 0, 0, None, Some(""), Some(url), "")
  }

  /** The record built from a page the HTML parser read. */
  function PageChannel(handle: string, url: string, usedUrl: string, page: ChannelPage): (c: ChannelMetadata)
    ensures c.channelId == handle
    ensures c.title == (if page.title.Some? then page.title.value else handle)
    ensures c.customUrl == Some(if usedUrl != "" then usedUrl else url)
  {
    ChannelMetadata(handle, page.title.GetOr(handle), Some(page.description), Some(page.subscriberCount),
                    page.videoCount, page.viewCount, None, Some(""),
                    Some(if usedUrl != "" then usedUrl else url), page.thumbnail)
  }

  /** The record `scrape_channel` returns once the loop ended: the parsed
      page when a non-empty one was read and its extraction did not raise,
      the fallback record otherwise. */
  function ChannelFrom(handle: string, url: string, found: Found, parse: string -> Option<ChannelPage>): ChannelMetadata {
    if found.html.Some? && found.html.value != "" && found.usedUrl.Some? && parse(found.html.value).Some? then
      PageChannel(handle, url, found.usedUrl.value, parse(found.html.value).value)
    else FallbackChannel(handle, url)
  }

  /** Without a delivering candidate, or with an empty page, the call
      returns the fallback record. */
  lemma FallbackWhenNothingRead(cfg: Config, url: string, draws: seq<PageDraw>, net: Net, parse: string -> Option<ChannelPage>)
    requires |draws| == 3
    requires forall j :: 0 <= j < 3 ==> !Delivered(draws[j]) || draws[j].reply.text == Some("")
    ensures var h := ChannelHandle(url);
      ChannelFrom(h, url, TryCandidates(cfg, ChannelCandidates(h), draws, net), parse) == FallbackChannel(h, url)
  {
    var h := ChannelHandle(url);
    TryCandidatesFinds(cfg, ChannelCandidates(h), draws, net);
  }
}
