/**
 * How each `scrape_*` method of `YouTubeScraper` (youtube_scraper/scraper.py)
 * ends once it got past its URL check: the value it returns and whether it
 * counts a success, an error or neither, given what `_make_request`,
 * `yt_dlp`, `make_request` and the HTML parser reported. The class in
 * scraper.dfy performs these calls on its state; this module states what
 * they return.
 */
module Calls {

  import opened Wrappers
  import opened Dates
  import opened Records
  import opened Retry
  import opened Stats
  import opened Batches
  import opened Channels
  import Http = Fetch

  /** How a call ends: it returned `result` and counted `tally`, or it is
      still inside `_make_request` when the scripted draws ran out. */
  datatype Ended<T> = Done(result: T, tally: Tally) | Stalled

  /** What the counters see of a call: a stalled one has only counted its request. */
  function Counted<T>(e: Ended<T>): Tally {
    if e.Stalled? then Neither else e.tally
  }

  // ---------------------------------------------------------------------
  // scrape_video
  // ---------------------------------------------------------------------

  /** `scrape_video` once `_make_request(url)` ended with `fetch`. `build`
      stands for the key lookups, `parse_date` and the model validation that
      turn the body into a `VideoMetadata`; None is the exception one of them
      raises. The id is the one taken from the URL. */
  function VideoCall(videoId: string, fetch: Fetch, build: Json -> Option<VideoMetadata>): (r: Ended<Option<VideoMetadata>>)
    ensures r.Stalled? <==> fetch.Pending?
    ensures r.Done? ==> (r.result.Some? <==> r.tally == Succeeded)
    ensures r.Done? && r.result.Some? ==>
      fetch.Fetched? && Truthy(fetch.json) && build(fetch.json).Some? && r.result.value.videoId == videoId
    ensures r.Done? && r.tally == Errored <==>
      fetch.Failed? || (fetch.Fetched? && Truthy(fetch.json) && build(fetch.json).None?)
  {
    match fetch
    case Pending => Stalled
    case Failed(_) => Done(None, Errored)
    case Fetched(info) =>
      if !Truthy(info) then Done(None, Neither)
      else
        var v := build(info);
        if v.None? then Done(None, Errored) else Done(Some(v.value.(videoId := videoId)), Succeeded)
  }

  /** With the default three retries, a video whose server answers 429 to
      every one of the fifteen requests the retry recursion makes is counted
      as an error and yields nothing. */
  lemma RateLimitedVideoIsError(videoId: string, url: string, useProxies: bool, sleepInterval: real,
                                script: seq<Draw>, net: Net, build: Json -> Option<VideoMetadata>)
    requires AllStatus(script, 429) && |script| >= 15
    ensures VideoCall(videoId, Attempt(Config(useProxies, 3, sleepInterval), url, 0, script, net).fetch, build)
      == Done(None, Errored)
  {
    DefaultRateLimitedRequests(url, sleepInterval, useProxies, script, net);
  }

  // ---------------------------------------------------------------------
  // scrape_comments
  // ---------------------------------------------------------------------

  /** `scrape_comments` when `extract_info(url)` gives `listings(url)`. A
      missing `"comments"` list returns `[]` without counting anything. */
  function CommentsCall(url: string, listings: string -> Listing<CommentData>, maxComments: Option<int>,
                        includeReplies: bool, strptime: Strptime): (r: Ended<seq<Comment>>)
    ensures r.Done?
    ensures r.result != [] ==> r.tally == Succeeded
    ensures r.tally == Neither <==> listings(url).NoEntries?
  {
    match listings(url)
    case ListingRaised => Done([], Errored)
    case NoEntries => Done([], Neither)
    case Entries(cs) =>
      var out := Flatten(Take(cs, maxComments), includeReplies, strptime);
      if out.None? then Done([], Errored) else Done(out.value, Succeeded)
  }

  /** The call fails exactly when `extract_info` raised or one of the first
      `max_comments` comments, or one of their included replies, cannot be
      built (a required key missing, a `None` where the record refuses it,
      a timestamp that does not parse). When it succeeds, its top-level comments are the
      first `max_comments` ones in order, each reply follows its own parent,
      and there is one entry per comment plus, with replies included, one
      per reply. */
  lemma CommentsCallRule(url: string, listings: string -> Listing<CommentData>, maxComments: Option<int>,
                         includeReplies: bool, strptime: Strptime)
    ensures var r := CommentsCall(url, listings, maxComments, includeReplies, strptime);
      && (r.tally == Errored <==>
            listings(url).ListingRaised?
            || (listings(url).Entries? &&
                exists k :: 0 <= k < |Take(listings(url).items, maxComments)|
                  && !ThreadValid(Take(listings(url).items, maxComments)[k], includeReplies, strptime)))
      && (r.tally == Succeeded ==>
            && listings(url).Entries?
            && var cs := Take(listings(url).items, maxComments);
            && |Tops(r.result)| == |cs|
            && (forall k :: 0 <= k < |cs| ==> Some(Tops(r.result)[k]) == TopComment(cs[k], strptime))
            && RepliesFollowParents(r.result)
            && |r.result| == |cs| + (if includeReplies then TotalReplies(cs) else 0))
  {
    if listings(url).Entries? {
      var cs := Take(listings(url).items, maxComments);
      FlattenValid(cs, includeReplies, strptime);
      if Flatten(cs, includeReplies, strptime).Some? {
        FlattenShape(cs, includeReplies, strptime);
      }
    }
  }

  // ---------------------------------------------------------------------
  // scrape_channel_videos
  // ---------------------------------------------------------------------

  const VideosSuffix: string := "/videos"

  /** `scrape_channel_videos` when `extract_info(url + "/videos")` gives
      `listings(url + "/videos")`; `deep` answers the per-video lookups. */
  function ChannelVideosCall(url: string, listings: string -> Listing<VideoEntry>, maxVideos: Option<int>,
                             deep: string -> Option<VideoInfo>, strptime: Strptime): (r: Ended<seq<VideoMetadata>>)
    ensures r.Done?
    ensures r.tally == Errored <==> listings(url + VideosSuffix).ListingRaised?
    ensures r.tally == Succeeded <==> listings(url + VideosSuffix).Entries?
    ensures r.tally != Succeeded ==> r.result == []
  {
    match listings(url + VideosSuffix)
    case ListingRaised => Done([], Errored)
    case NoEntries => Done([], Neither)
    case Entries(es) => Done(KeptVideos(VideoLimit(es, maxVideos), deep, strptime), Succeeded)
  }

  /** A listed channel is a success whatever its entries do: each video
      returned comes from an entry within the limit and carries its id and
      title, in entry order; when every entry converts, there is one video
      per entry. */
  lemma ChannelVideosCallRule(url: string, listings: string -> Listing<VideoEntry>, maxVideos: Option<int>,
                              deep: string -> Option<VideoInfo>, strptime: Strptime)
    requires listings(url + VideosSuffix).Entries?
    ensures var r := ChannelVideosCall(url, listings, maxVideos, deep, strptime);
      var es := VideoLimit(listings(url + VideosSuffix).items, maxVideos);
      && r.tally == Succeeded
      && |r.result| <= |es|
      && (forall v :: v in r.result ==> exists k :: 0 <= k < |es| && es[k].id == Value(v.videoId) && es[k].title == Value(v.title))
      && (AllConvert(es, deep, strptime) ==>
            |r.result| == |es| && forall k :: 0 <= k < |es| ==> es[k].id == Value(r.result[k].videoId))
  {
    var es := VideoLimit(listings(url + VideosSuffix).items, maxVideos);
    KeptVideosFrom(es, deep, strptime);
    var vs := KeptVideos(es, deep, strptime);
    forall v | v in vs ensures exists k :: 0 <= k < |es| && es[k].id == Value(v.videoId) && es[k].title == Value(v.title) {
      var k :| 0 <= k < |es| && VideoFromEntry(es[k], deep, strptime) == Some(v);
    }
    if AllConvert(es, deep, strptime) {
      KeptVideosInOrder(es, deep, strptime);
      forall k | 0 <= k < |es| ensures es[k].id == Value(vs[k].videoId) {
        assert VideoFromEntry(es[k], deep, strptime) == Some(vs[k]);
      }
    }
  }

  // ---------------------------------------------------------------------
  // scrape_playlists
  // ---------------------------------------------------------------------

  /** `scrape_playlists`: the first candidate page that yields a playlist
      gives the result; `now` is the clock reading stamped on each record.
      Nothing in its `try` block raises, so it never counts an error. */
  function PlaylistsCall(url: string, listings: string -> Listing<PlaylistEntry>, now: DateTime): (r: Ended<seq<PlaylistMetadata>>)
    ensures r.Done? && r.tally != Errored
    ensures r.tally == Succeeded <==> r.result != []
  {
    var ps := FirstProductive(PlaylistCandidates(url), listings, now);
    Done(ps, if ps != [] then Succeeded else Neither)
  }

  /** The call succeeds exactly when some candidate page yields a playlist,
      and then returns the playlists of the first such page, all stamped
      with `now`. */
  lemma PlaylistsCallRule(url: string, listings: string -> Listing<PlaylistEntry>, now: DateTime)
    ensures var r := PlaylistsCall(url, listings, now);
      var cands := PlaylistCandidates(url);
      && (r.tally == Succeeded <==> exists k :: 0 <= k < |cands| && Yield(cands[k], listings, now) != [])
      && (r.tally == Succeeded ==> exists k :: (0 <= k < |cands| && r.result == Yield(cands[k], listings, now)
            && forall j :: 0 <= j < k ==> Yield(cands[j], listings, now) == []))
  {
    FirstProductiveRule(PlaylistCandidates(url), listings, now);
  }

  // ---------------------------------------------------------------------
  // scrape_channel
  // ---------------------------------------------------------------------

  /** `scrape_channel` once the candidate loop left `found`. `sessionFails`
      says that creating the session raised before the handle was computed:
      the handler then counts the error and itself raises on the unbound
      handle, so the call returns nothing (None). Otherwise a non-empty page
      whose extraction does not raise gives the parsed record and a success,
      and anything else the fallback record and an error. `parse` is the
      extraction, None where it raises: `import re` inside the script loop
      makes `re` local to the whole function, so a script mentioning
      "viewCountText" or "videoCountText" before any script mentioning
      "subscriberCountText" raises `UnboundLocalError`. */
  function ChannelCall(url: string, sessionFails: bool, found: Found, parse: string -> Option<ChannelPage>): (r: Ended<Option<ChannelMetadata>>)
    ensures r.Done? && r.tally != Neither
    ensures r.result.None? <==> sessionFails
    ensures r.tally == Succeeded <==>
      !sessionFails && found.html.Some? && found.html.value != "" && found.usedUrl.Some? && parse(found.html.value).Some?
    ensures r.result.Some? ==> r.result.value.channelId == ChannelHandle(url)
  {
    if sessionFails then Done(None, Errored)
    else
      var handle := ChannelHandle(url);
      var ok := found.html.Some? && found.html.value != "" && found.usedUrl.Some? && parse(found.html.value).Some?;
      Done(Some(ChannelFrom(handle, url, found, parse)), if ok then Succeeded else Errored)
  }

  /** Run on the three candidate pages, the call succeeds only through the
      first candidate that answered 200 with a readable body, and only when
      that body is not empty and its extraction does not raise; the record
      then names that candidate as its custom URL. Every other run ends with
      the fallback record. */
  lemma ChannelCallRule(cfg: Config, url: string, draws: seq<PageDraw>, net: Net, parse: string -> Option<ChannelPage>)
    requires |draws| == 3
    ensures var h := ChannelHandle(url);
      var cands := ChannelCandidates(h);
      var r := ChannelCall(url, false, TryCandidates(cfg, cands, draws, net), parse);
      && (r.tally == Succeeded ==> exists j :: (0 <= j < 3 && Delivered(draws[j])
            && (forall i :: 0 <= i < j ==> !Delivered(draws[i]))
            && draws[j].reply.text.value != "" && parse(draws[j].reply.text.value).Some?
            && r.result.value.customUrl == Some(cands[j])))
      && (r.tally == Errored ==> r.result == Some(FallbackChannel(h, url)))
  {
    var h := ChannelHandle(url);
    var cands := ChannelCandidates(h);
    var found := TryCandidates(cfg, cands, draws, net);
    TryCandidatesFinds(cfg, cands, draws, net);
    if found.html.Some? {
      var j :| 0 <= j < |cands| && Delivered(draws[j])
        && (forall i :: 0 <= i < j ==> !Delivered(draws[i]))
        && found.html == draws[j].reply.text && found.usedUrl == Some(cands[j])
        && |found.net.sent| == |net.sent| + j + 1;
      assert cands[j] != "";
    }
  }

  // ---------------------------------------------------------------------
  // scrape_community_posts
  // ---------------------------------------------------------------------

  /** The retries `scrape_community_posts` gives `make_request`: its default. */
  const CommunityRetries: int := 3

  const CommunitySuffix: string := "/community"

  /** `scrape_community_posts` once `make_request(url + "/community")` ended
      with `page`; `parsePosts` stands for the HTML parser's list of post
      elements. An empty or missing page returns `[]` without counting. */
  function PostsCall(page: Http.TextResult, parsePosts: string -> seq<PostElement>, strptime: Strptime): (r: Ended<seq<CommunityPost>>)
    ensures r.Done?
    ensures r.tally == Neither <==> page.Returned? && (page.body.None? || page.body.value == "")
    ensures r.tally == Errored <==>
      page.AgentRaised? || (page.body.Some? && page.body.value != "" && !PostsConvert(parsePosts(page.body.value), strptime))
    ensures r.tally == Succeeded ==>
      var es := parsePosts(page.body.value);
      |r.result| == |es| && forall i :: 0 <= i < |es| ==> PostFrom(es[i], strptime) == Some(r.result[i])
    ensures r.tally != Succeeded ==> r.result == []
  {
    match page
    case AgentRaised => Done([], Errored)
    case Returned(body) =>
      if body.None? || body.value == "" then Done([], Neither)
      else
        var ps := PostsFrom(parsePosts(body.value), strptime);
        if ps.None? then Done([], Errored)
        else
          PostsFromElements(parsePosts(body.value), strptime);
          Done(ps.value, Succeeded)
  }

  /** A community page that never answers yields nothing and counts neither
      a success nor an error, after `make_request` tried it three times. */
  lemma UnreachableCommunityCountsNeither(reply: nat -> Http.HttpReply, parsePosts: string -> seq<PostElement>, strptime: Strptime)
    requires forall k :: reply(k) == Http.Unreachable
    ensures var run := Http.Attempts(CommunityRetries, 0, reply);
      && run.requests == 3
      && PostsCall(Http.Returned(run.body), parsePosts, strptime) == Done([], Neither)
  {
    Http.FirstDeliveryWins(CommunityRetries, 0, reply);
  }

  // ---------------------------------------------------------------------
  // The counters
  // ---------------------------------------------------------------------

  /** Whatever a call returns, counting it keeps the counters consistent,
      and a call that returns records counts a success. */
  lemma CountedCallKeepsConsistent<T>(s: ScrapingStats, e: Ended<T>)
    requires Consistent(s)
    ensures Consistent(Count(s, Counted(e)))
    ensures Count(s, Counted(e)).totalRequests == s.totalRequests + 1
  {
    CountKeepsConsistent(s, Counted(e));
  }
}
