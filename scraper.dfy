/**
 * The `YouTubeScraper` class of youtube_scraper/scraper.py: its settings,
 * its counters and its proxy pool, and the methods that update them. The
 * outside world (clock, random draws, the network, `yt_dlp`, the HTML
 * parser) comes in as parameters. Two logs stand for the effects the class
 * cannot hold: `waits`, the sleeps requested, and `sent`, the requests its
 * own session sent. Each method is proved against the function of the
 * modules it imports that states what the call computes.
 */
module Scraper {

  import opened Wrappers
  import Text
  import opened Dates
  import opened Records
  import opened Urls
  import opened Backoff
  import opened Proxies
  import opened Identity
  import opened Retry
  import opened Stats
  import opened Batches
  import opened Channels
  import opened Calls
  import Http = Fetch

  /** The replies of one comment, read one after the other; stops at the
      first one that cannot be built. */
  method ReadReplies(rs: seq<ReplyData>, parentId: string, strptime: Strptime) returns (out: Option<seq<Comment>>)
    ensures out == RepliesOf(rs, parentId, strptime)
  {
    var acc: seq<Comment> := [];
    var j := 0;
    assert rs[j..] == rs;
    while j < |rs|
      invariant 0 <= j <= |rs|
      invariant RepliesOf(rs, parentId, strptime) == Then(acc, RepliesOf(rs[j..], parentId, strptime))
    {
      RepliesOfStep(rs, parentId, strptime, j);
      var c := ReplyComment(rs[j], parentId, strptime);
      if c.None? {
        return None;
      }
      ThenThen(acc, [c.value], RepliesOf(rs[j + 1..], parentId, strptime));
      acc := acc + [c.value];
      j := j + 1;
    }
    assert rs[j..] == [];
    assert acc + [] == acc;
    out := Some(acc);
  }

  /** One comment of `scrape_comments`, followed by its replies when they
      are included and present. */
  method ReadThread(c: CommentData, includeReplies: bool, strptime: Strptime) returns (t: Option<seq<Comment>>)
    ensures t == Thread(c, includeReplies, strptime)
  {
    var top := TopComment(c, strptime);
    if top.None? {
      return None;
    }
    t := Some([top.value]);
    if includeReplies && c.replies.Value? && c.replies.v != [] {
      var rs := ReadReplies(c.replies.v, top.value.commentId, strptime);
      if rs.None? {
        return None;
      }
      t := Some([top.value] + rs.value);
    }
  }

  /** The comments list of `scrape_comments` for the comments `cs`, built
      thread by thread; None at the first comment or reply that cannot be built. */
  method ReadComments(cs: seq<CommentData>, includeReplies: bool, strptime: Strptime) returns (out: Option<seq<Comment>>)
    ensures out == Flatten(cs, includeReplies, strptime)
  {
    var comments: seq<Comment> := [];
    var i := 0;
    assert cs[i..] == cs;
    while i < |cs|
      invariant 0 <= i <= |cs|
      invariant Flatten(cs, includeReplies, strptime) == Then(comments, Flatten(cs[i..], includeReplies, strptime))
    {
      FlattenStep(cs, includeReplies, strptime, i);
      var t := ReadThread(cs[i], includeReplies, strptime);
      if t.None? {
        return None;
      }
      ThenThen(comments, t.value, Flatten(cs[i + 1..], includeReplies, strptime));
      comments := comments + t.value;
      i := i + 1;
    }
    assert cs[i..] == [];
    assert comments + [] == comments;
    out := Some(comments);
  }

  /** The videos of `scrape_channel_videos` for the listed `entries`, in
      order, skipping the entries that fail. */
  method KeepVideos(entries: seq<VideoEntry>, deep: string -> Option<VideoInfo>, strptime: Strptime) returns (videos: seq<VideoMetadata>)
    ensures videos == KeptVideos(entries, deep, strptime)
  {
    videos := [];
    var i := 0;
    assert entries[i..] == entries;
    while i < |entries|
      invariant 0 <= i <= |entries|
      invariant KeptVideos(entries, deep, strptime) == videos + KeptVideos(entries[i..], deep, strptime)
    {
      KeptVideosStep(entries, deep, strptime, i);
      var v := VideoFromEntry(entries[i], deep, strptime);
      if v.Some? {
        videos := videos + [v.value];
      }
      i := i + 1;
    }
    assert entries[i..] == [];
  }

  /** The playlists read from one page's entries, skipping the entries
      `PlaylistValid` refuses. */
  method ReadPlaylists(entries: seq<PlaylistEntry>, now: DateTime) returns (playlists: seq<PlaylistMetadata>)
    ensures playlists == PlaylistsOf(entries, now)
  {
    playlists := [];
    var j := 0;
    assert entries[j..] == entries;
    while j < |entries|
      invariant 0 <= j <= |entries|
      invariant PlaylistsOf(entries, now) == playlists + PlaylistsOf(entries[j..], now)
    {
      PlaylistsOfStep(entries, now, j);
      var p := PlaylistFrom(entries[j], now);
      if p.Some? {
        playlists := playlists + [p.value];
      }
      j := j + 1;
    }
    assert entries[j..] == [];
  }

  /** The candidate loop of `scrape_playlists`: candidates are tried in
      order until one yields a playlist. */
  method FindPlaylists(cands: seq<Option<string>>, listings: string -> Listing<PlaylistEntry>, now: DateTime)
    returns (playlists: seq<PlaylistMetadata>)
    ensures playlists == FirstProductive(cands, listings, now)
  {
    playlists := [];
    var i := 0;
    assert cands[i..] == cands;
    while i < |cands| && playlists == []
      invariant 0 <= i <= |cands|
      invariant FirstProductive(cands, listings, now) ==
        if playlists == [] then FirstProductive(cands[i..], listings, now) else playlists
    {
      FirstProductiveStep(cands, listings, now, i);
      if cands[i].Some? {
        var info := listings(cands[i].value);
        if info.Entries? {
          playlists := ReadPlaylists(info.items, now);
        }
      }
      i := i + 1;
    }
  }

  /** The posts of a community page, one per element in order; None at the
      first element that does not convert. */
  method ReadPosts(es: seq<PostElement>, strptime: Strptime) returns (out: Option<seq<CommunityPost>>)
    ensures out == PostsFrom(es, strptime)
  {
    var posts: seq<CommunityPost> := [];
    var i := 0;
    assert es[i..] == es;
    while i < |es|
      invariant 0 <= i <= |es|
      invariant PostsFrom(es, strptime) == Then(posts, PostsFrom(es[i..], strptime))
    {
      PostsFromStep(es, strptime, i);
      var post := PostFrom(es[i], strptime);
      if post.None? {
        return None;
      }
      ThenThen(posts, [post.value], PostsFrom(es[i + 1..], strptime));
      posts := posts + [post.value];
      i := i + 1;
    }
    assert es[i..] == [];
    assert posts + [] == posts;
    out := Some(posts);
  }

  /** The entries the proxy lists add, source by source: a list that
      answered 200 contributes its non-blank lines, any other none. */
  method HarvestSources(replies: seq<SourceReply>) returns (added: seq<string>)
    ensures added == Harvest(replies)
    ensures forall e :: e in added ==> ProxyShaped(e)
  {
    added := [];
    var i := 0;
    while i < |replies|
      invariant 0 <= i <= |replies|
      invariant added == Harvest(replies[..i])
    {
      HarvestStep(replies, i);
      var r := replies[i];
      if r.SourceAnswered? && r.status == 200 {
        added := added + ProxyEntries(r.text);
      }
      i := i + 1;
    }
    assert replies[..i] == replies;
    HarvestShaped(replies);
  }

  /** The part of `scrape_community_posts` after `make_request`: nothing
      for a missing or empty page, an error when the agent could not be
      built or a post element does not convert, else the posts in order. */
  method ReadCommunityPage(page: Http.TextResult, parsePosts: string -> seq<PostElement>, strptime: Strptime)
    returns (posts: seq<CommunityPost>, tally: Tally)
    ensures Done(posts, tally) == PostsCall(page, parsePosts, strptime)
  {
    if page.AgentRaised? {
      return [], Errored;
    }
    if page.body.None? || page.body.value == "" {
      return [], Neither;
    }
    var out := ReadPosts(parsePosts(page.body.value), strptime);
    if out.None? {
      return [], Errored;
    }
    return out.value, Succeeded;
  }

  /** The part of `scrape_video` after `_make_request`: nothing for an
      empty body, an error for a failed request or a body that does not
      build, else the record under the id taken from the URL. A call still
      pending counts nothing more. */
  method ReadVideo(videoId: string, fetch: Fetch, build: Json -> Option<VideoMetadata>)
    returns (video: Option<VideoMetadata>, tally: Tally)
    ensures var e := VideoCall(videoId, fetch, build);
      tally == Counted(e) && video == (if e.Done? then e.result else None)
  {
    match fetch
    case Pending =>
      return None, Neither;
    case Failed(_) =>
      return None, Errored;
    case Fetched(info) =>
      if !Truthy(info) {
        return None, Neither;
      }
      var v := build(info);
      if v.None? {
        return None, Errored;
      }
      return Some(v.value.(videoId := videoId)), Succeeded;
  }

  class YouTubeScraper {

    const useProxies: bool
    const maxRetries: int
    const batchSize: int
    const outputFormat: string
    const sleepInterval: real
    /** `self.user_agents`. */
    const userAgents: seq<string>
    /** `self.yt_opts['http_headers']`, drawn once at construction. */
    const ytHeaders: map<string, string>

    var stats: ScrapingStats
    var proxyPool: seq<string>
    var lastProxyRefresh: real
    /** The sleeps requested so far, oldest first. */
    var waits: seq<Wait>
    /** The requests the scraper's session sent so far, oldest first. */
    var sent: seq<Sent>

    /** What holds between calls: there is an agent to choose from, the
        counters are consistent and every pooled proxy is an address read
        from a proxy list. */
    predicate Valid()
      reads this
    {
      && userAgents != []
      && Consistent(stats)
      && (forall p :: p in proxyPool ==> ProxyShaped(p))
    }

    /** The settings `_make_request` reads. */
    function Cfg(): Config {
      Config(useProxies, maxRetries, sleepInterval)
    }

    /** The part of the state a request touches. */
    function NetState(): Net
      reads this
    {
      Net(proxyPool, lastProxyRefresh, waits, sent)
    }

    /** `YouTubeScraper(...)` followed by `_setup_yt_dlp()`. `supplied` is
        `user_agents`; `generated` the ten draws of `UserAgent().random`, or
        None when `UserAgent()` raised; the picks, `rtt` and `downlink` are
        the random draws of `_setup_yt_dlp`; `startTime` the clock. */
    constructor (useProxies: bool, maxRetries: int, batchSize: int, outputFormat: string, sleepInterval: real,
                 supplied: Option<seq<string>>, generated: Option<seq<string>>, startTime: DateTime,
                 profilePick: nat, agentPick: nat, rtt: nat, downlink: string)
      requires generated.Some? ==> |generated.value| == GeneratedAgentCount
      requires MinRtt <= rtt <= MaxRtt
      ensures Valid()
      ensures this.useProxies == useProxies && this.maxRetries == maxRetries && this.batchSize == batchSize
      ensures this.outputFormat == outputFormat && this.sleepInterval == sleepInterval
      ensures userAgents == UserAgentPool(supplied, generated)
      ensures ytHeaders == Headers(Choose(userAgents, agentPick), ChooseProfile(profilePick), rtt, downlink)
      ensures "User-Agent" in ytHeaders && ytHeaders["User-Agent"] in userAgents
      ensures "RTT" in ytHeaders && Text.AllDigits(ytHeaders["RTT"]) && MinRtt <= Text.DecimalValue(ytHeaders["RTT"]) <= MaxRtt
      ensures stats == Initial(startTime)
      ensures proxyPool == [] && lastProxyRefresh == 0.0 && waits == [] && sent == []
    {
      this.useProxies := useProxies;
      this.maxRetries := maxRetries;
      this.batchSize := batchSize;
      this.outputFormat := outputFormat;
      this.sleepInterval := sleepInterval;
      var agents := UserAgentPool(supplied, generated);
      userAgents := agents;
      ytHeaders := GenerateHeaders(agents, ChooseProfile(profilePick), agentPick, rtt, downlink);
      stats := Initial(startTime);
      proxyPool := [];
      lastProxyRefresh := 0.0;
      waits := [];
      sent := [];
    }

    /** `_get_proxy()` at clock reading `now`, with the three lists' answers
        and the random pick. */
    method GetProxy(now: real, replies: SourceReplies, pick: nat) returns (proxy: Option<string>)
      requires Valid()
      modifies this`proxyPool, this`lastProxyRefresh
      ensures Valid()
      ensures var p := Proxies.GetProxy(old(proxyPool), old(lastProxyRefresh), now, replies, pick);
        proxyPool == p.pool && lastProxyRefresh == p.lastRefresh && proxy == p.proxy
    {
      if proxyPool == [] || now - lastProxyRefresh > ProxyRefreshInterval {
        var added := HarvestSources(replies);
        proxyPool := proxyPool + added;
        lastProxyRefresh := now;
      }
      if proxyPool == [] {
        return None;
      }
      proxy := Some(Choose(proxyPool, pick));
    }

    /** `_handle_rate_limit(retryCount)`: raises at the ceiling, otherwise
        sleeps the backoff. */
    method HandleRateLimit(retryCount: nat) returns (raised: bool)
      modifies this`waits
      ensures raised <==> retryCount >= maxRetries
      ensures var w := RateLimitWait(maxRetries, retryCount);
        waits == old(waits) + (if w.Some? then [w.value] else [])
    {
      if retryCount >= maxRetries {
        return true;
      }
      var base := BaseDelay(retryCount) as real;
      waits := waits + [Wait(base, base + 0.1 * base)];
      raised := false;
    }

    /** The start of a frame: `proxy = await self._get_proxy() if
        self.use_proxies else None`, then the GET is sent. */
    method IssueRequest(url: string, d: Draw) returns (proxy: Option<string>)
      requires Valid()
      modifies this`proxyPool, this`lastProxyRefresh, this`sent
      ensures Valid()
      ensures Issued(proxy, NetState()) == Issue(Cfg(), url, d.now, d.sources, d.pick, old(NetState()))
    {
      proxy := None;
      if useProxies {
        proxy := GetProxy(d.now, d.sources, d.pick);
      }
      sent := sent + [Sent(url, proxy)];
    }

    /** `_make_request(url, retryCount)` on the draws `script`; `rest` is what
        it left unused. */
    method MakeRequest(url: string, retryCount: nat, script: seq<Draw>) returns (fetch: Fetch, rest: seq<Draw>)
      requires Valid()
      modifies this`proxyPool, this`lastProxyRefresh, this`waits, this`sent
      ensures Valid()
      ensures Outcome(fetch, NetState(), rest) == Attempt(Cfg(), url, retryCount, script, old(NetState()))
      decreases |script|, 0
    {
      if script == [] {
        return Pending, [];
      }
      var d := script[0];
      var proxy := IssueRequest(url, d);
      var left := script[1..];
      match d.reply {
        case Raised =>
          fetch, rest := HandleFailure(url, retryCount, RequestRaised, left);
        case Answered(status, json) =>
          if status == 429 {
            var raised := HandleRateLimit(retryCount);
            if raised {
              fetch, rest := HandleFailure(url, retryCount, MaxRetriesExceeded, left);
            } else {
              fetch, rest := RetryDeeper(url, retryCount, left);
            }
          } else if status == 403 {
            if proxy.Some? && proxy.value != "" {
              RemoveFirstKeeps(proxyPool, proxy.value);
              proxyPool := RemoveFirst(proxyPool, proxy.value);
            }
            fetch, rest := RetryDeeper(url, retryCount, left);
          } else if json.None? {
            fetch, rest := HandleFailure(url, retryCount, RequestRaised, left);
          } else {
            fetch, rest := Fetched(json.value), left;
          }
      }
    }

    /** `return await self._make_request(url, retryCount + 1)` inside the
        frame's `try`: a failure of the deeper frame goes to this frame's
        handler. */
    method RetryDeeper(url: string, retryCount: nat, script: seq<Draw>) returns (fetch: Fetch, rest: seq<Draw>)
      requires Valid()
      modifies this`proxyPool, this`lastProxyRefresh, this`waits, this`sent
      ensures Valid()
      ensures Outcome(fetch, NetState(), rest) == Retry.Deeper(Cfg(), url, retryCount, script, old(NetState()))
      decreases |script|, 2
    {
      fetch, rest := MakeRequest(url, retryCount + 1, script);
      if fetch.Failed? {
        fetch, rest := HandleFailure(url, retryCount, fetch.why, rest);
      }
    }

    /** The `except` handler of `_make_request`. */
    method HandleFailure(url: string, retryCount: nat, why: Failure, script: seq<Draw>) returns (fetch: Fetch, rest: seq<Draw>)
      requires Valid()
      modifies this`proxyPool, this`lastProxyRefresh, this`waits, this`sent
      ensures Valid()
      ensures Outcome(fetch, NetState(), rest) == Retry.Recover(Cfg(), url, retryCount, why, script, old(NetState()))
      decreases |script|, 1
    {
      if retryCount < maxRetries {
        ghost var mid := NetState().(waits := waits + [RetryPause(Cfg())]);
        assert Retry.Recover(Cfg(), url, retryCount, why, script, NetState())
          == Attempt(Cfg(), url, retryCount + 1, script, mid);
        waits := waits + [RetryPause(Cfg())];
        assert NetState() == mid;
        fetch, rest := MakeRequest(url, retryCount + 1, script);
      } else {
        fetch, rest := Failed(why), script;
      }
    }

    /** `scrape_video(url)`; `build` turns a decoded body into a record. */
    method ScrapeVideo(url: string, script: seq<Draw>, build: Json -> Option<VideoMetadata>)
      returns (video: Option<VideoMetadata>, rest: seq<Draw>)
      requires Valid()
      modifies this`stats, this`proxyPool, this`lastProxyRefresh, this`waits, this`sent
      ensures Valid()
      ensures ExtractVideoId(url).None? ==>
        video.None? && rest == script && stats == old(stats) && NetState() == old(NetState())
      ensures ExtractVideoId(url).Some? ==>
        var o := Attempt(Cfg(), url, 0, script, old(NetState()));
        var e := VideoCall(ExtractVideoId(url).value, o.fetch, build);
        && NetState() == o.net && rest == o.rest
        && stats == Count(old(stats), Counted(e))
        && video == (if e.Done? then e.result else None)
    {
      var videoId := ExtractVideoId(url);
      if videoId.None? {
        return None, script;
      }
      stats := stats.(totalRequests := stats.totalRequests + 1);
      var fetch, tally;
      fetch, rest := MakeRequest(url, 0, script);
      ghost var o := Attempt(Cfg(), url, 0, script, old(NetState()));
      assert o.fetch == fetch && o.net == NetState() && o.rest == rest;
      video, tally := ReadVideo(videoId.value, fetch, build);
      if tally == Errored {
        stats := stats.(errorCount := stats.errorCount + 1);
      } else if tally == Succeeded {
        stats := stats.(successCount := stats.successCount + 1);
      }
    }

    /** `scrape_comments(url, max_comments, include_replies)`; `listings`
        answers `extract_info`. */
    method ScrapeComments(url: string, listings: string -> Listing<CommentData>, maxComments: Option<int>,
                          includeReplies: bool, strptime: Strptime) returns (comments: seq<Comment>)
      requires Valid()
      modifies this`stats
      ensures Valid()
      ensures ExtractVideoId(url).None? ==> comments == [] && stats == old(stats)
      ensures ExtractVideoId(url).Some? ==>
        var e := CommentsCall(url, listings, maxComments, includeReplies, strptime);
        comments == e.result && stats == Count(old(stats), e.tally)
    {
      if ExtractVideoId(url).None? {
        return [];
      }
      stats := stats.(totalRequests := stats.totalRequests + 1);
      var info := listings(url);
      if info.ListingRaised? {
        stats := stats.(errorCount := stats.errorCount + 1);
        return [];
      }
      if info.NoEntries? {
        return [];
      }
      var out := ReadComments(Take(info.items, maxComments), includeReplies, strptime);
      if out.None? {
        stats := stats.(errorCount := stats.errorCount + 1);
        return [];
      }
      comments := out.value;
      stats := stats.(successCount := stats.successCount + 1);
    }

    /** One candidate page of `scrape_channel`'s loop. */
    method TryPage(url: string, d: PageDraw) returns (html: Option<string>)
      requires Valid()
      modifies this`proxyPool, this`lastProxyRefresh, this`waits, this`sent
      ensures Valid()
      ensures Step(html, NetState()) == TryOne(Cfg(), url, d, old(NetState()))
    {
      var proxy: Option<string> := None;
      if useProxies {
        proxy := GetProxy(d.now, d.sources, d.pick);
      }
      sent := sent + [Sent(url, proxy)];
      html := None;
      match d.reply {
        case PageRaised =>
          waits := waits + [FailPause];
        case PageAnswered(status, text) =>
          if status == 200 {
            if text.Some? {
              return text;
            }
            waits := waits + [FailPause];
          } else if status == 429 {
            var raised := HandleRateLimit(0);
            if raised {
              waits := waits + [FailPause];
            }
          } else if status == 403 {
            if proxy.Some? && proxy.value != "" {
              RemoveFirstKeeps(proxyPool, proxy.value);
              proxyPool := RemoveFirst(proxyPool, proxy.value);
            }
          } else {
            waits := waits + [OtherStatusPause];
          }
      }
    }

    /** The candidate loop of `scrape_channel`: each page is tried in order
        until one delivers. */
    method TryCandidatePages(urls: seq<string>, draws: seq<PageDraw>) returns (html: Option<string>, usedUrl: Option<string>)
      requires Valid()
      requires |draws| == |urls|
      modifies this`proxyPool, this`lastProxyRefresh, this`waits, this`sent
      ensures Valid()
      ensures Found(html, usedUrl, NetState()) == TryCandidates(Cfg(), urls, draws, old(NetState()))
      ensures html.Some? ==> usedUrl.Some?
    {
      html, usedUrl := None, None;
      var i := 0;
      while i < |urls| && html.None?
        invariant 0 <= i <= |urls|
        invariant Valid()
        invariant html.None? ==> usedUrl.None?
        invariant html.None? ==>
          TryCandidates(Cfg(), urls, draws, old(NetState())) == TryCandidates(Cfg(), urls[i..], draws[i..], NetState())
        invariant html.Some? ==> usedUrl.Some?
        invariant html.Some? ==>
          TryCandidates(Cfg(), urls, draws, old(NetState())) == Found(html, usedUrl, NetState())
      {
        TryCandidatesStep(Cfg(), urls, draws, NetState(), i);
        var page := TryPage(urls[i], draws[i]);
        if page.Some? {
          html, usedUrl := page, Some(urls[i]);
        }
        i := i + 1;
      }
      if html.None? {
        assert urls[i..] == [] && draws[i..] == [];
      }
    }

    /** `scrape_channel(url)`; one draw per candidate page. `sessionFails`
        says that creating the session raised; `parse` reads a page, None
        where the extraction raises. */
    method ScrapeChannel(url: string, sessionFails: bool, draws: seq<PageDraw>, parse: string -> Option<ChannelPage>)
      returns (channel: Option<ChannelMetadata>)
      requires Valid()
      requires |draws| == 3
      modifies this`stats, this`proxyPool, this`lastProxyRefresh, this`waits, this`sent
      ensures Valid()
      ensures sessionFails ==> NetState() == old(NetState())
      ensures var found := TryCandidates(Cfg(), ChannelCandidates(ChannelHandle(url)), draws, old(NetState()));
        && (!sessionFails ==> NetState() == found.net)
        && var e := ChannelCall(url, sessionFails, found, parse);
        && channel == e.result && stats == Count(old(stats), e.tally)
    {
      stats := stats.(totalRequests := stats.totalRequests + 1);
      if sessionFails {
        stats := stats.(errorCount := stats.errorCount + 1);
        return None;
      }
      var handle := ChannelHandle(url);
      var html, usedUrl := TryCandidatePages(ChannelCandidates(handle), draws);
      if html.None? || html.value == "" {
        stats := stats.(errorCount := stats.errorCount + 1);
        return Some(FallbackChannel(handle, url));
      }
      var page := parse(html.value);
      if page.None? {
        stats := stats.(errorCount := stats.errorCount + 1);
        return Some(FallbackChannel(handle, url));
      }
      channel := Some(PageChannel(handle, url, usedUrl.value, page.value));
      stats := stats.(successCount := stats.successCount + 1);
    }

    /** `scrape_channel_videos(url, max_videos)`; `listings` answers the
        channel's list and `deep` each video's full lookup. */
    method ScrapeChannelVideos(url: string, listings: string -> Listing<VideoEntry>, maxVideos: Option<int>,
                               deep: string -> Option<VideoInfo>, strptime: Strptime) returns (videos: seq<VideoMetadata>)
      requires Valid()
      modifies this`stats
      ensures Valid()
      ensures var e := ChannelVideosCall(url, listings, maxVideos, deep, strptime);
        videos == e.result && stats == Count(old(stats), e.tally)
    {
      stats := stats.(totalRequests := stats.totalRequests + 1);
      var info := listings(url + VideosSuffix);
      if info.ListingRaised? {
        stats := stats.(errorCount := stats.errorCount + 1);
        return [];
      }
      if info.NoEntries? {
        return [];
      }
      videos := KeepVideos(VideoLimit(info.items, maxVideos), deep, strptime);
      stats := stats.(successCount := stats.successCount + 1);
    }

    /** `scrape_playlists(url)`; `listings` answers `extract_info` and `now`
        is the clock. */
    method ScrapePlaylists(url: string, listings: string -> Listing<PlaylistEntry>, now: DateTime)
      returns (playlists: seq<PlaylistMetadata>)
      requires Valid()
      modifies this`stats
      ensures Valid()
      ensures var e := PlaylistsCall(url, listings, now);
        playlists == e.result && stats == Count(old(stats), e.tally)
    {
      stats := stats.(totalRequests := stats.totalRequests + 1);
      playlists := FindPlaylists(PlaylistCandidates(url), listings, now);
      if playlists != [] {
        stats := stats.(successCount := stats.successCount + 1);
      }
    }

    /** `scrape_community_posts(url)`. `agent` and `reply` are what
        `make_request` meets: the user agent (None when `UserAgent()` raised)
        and the answer to each attempt; `parsePosts` reads the page. */
    method ScrapeCommunityPosts(url: string, agent: Option<string>, reply: nat -> Http.HttpReply,
                                parsePosts: string -> seq<PostElement>, strptime: Strptime)
      returns (posts: seq<CommunityPost>)
      requires Valid()
      modifies this`stats
      ensures Valid()
      ensures ExtractChannelId(url).None? ==> posts == [] && stats == old(stats)
      ensures ExtractChannelId(url).Some? ==>
        var page := if agent.None? then Http.AgentRaised
                    else Http.Returned(Http.Attempts(CommunityRetries, 0, reply).body);
        var e := PostsCall(page, parsePosts, strptime);
        posts == e.result && stats == Count(old(stats), e.tally)
    {
      if ExtractChannelId(url).None? {
        return [];
      }
      stats := stats.(totalRequests := stats.totalRequests + 1);
      var page, _, _ := Http.MakeRequest(url + CommunitySuffix, None, CommunityRetries, agent, reply);
      var tally;
      posts, tally := ReadCommunityPage(page, parsePosts, strptime);
      if tally == Errored {
        stats := stats.(errorCount := stats.errorCount + 1);
      } else if tally == Succeeded {
        stats := stats.(successCount := stats.successCount + 1);
      }
    }

    /** `get_stats()` at clock reading `now`. */
    method GetStats(now: DateTime) returns (s: ScrapingStats)
      requires Valid()
      modifies this`stats
      ensures Valid()
      ensures stats == Stamped(old(stats), now) && s == stats
    {
      stats := Stamped(stats, now);
      s := stats;
    }
  }
}
