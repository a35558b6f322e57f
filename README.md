# youtube_scraper in Dafny

A model of the retry, fallback and bookkeeping layer of the `youtube_scraper`
package, with proofs about it. Two parts are modelled:

- the `YouTubeScraper` class of `youtube_scraper/scraper.py`;
- the URL, request, date and file helpers of `youtube_scraper/utils.py`.

The network, the clock, the random picks, `yt_dlp`'s answers, `strptime` and
the HTML parsers are inputs to the model:

- `_make_request` is recursive and has no bound on 403 answers. It runs on a
  scripted sequence of draws (`Retry.Draw`). Each draw carries the clock, the
  proxy-source replies, a random index and the reply. When the script runs
  out, the outcome is `Pending`.
- `utils.make_request` runs a bounded loop. Its replies are a function of the
  attempt number (`Fetch.HttpReply`).
- `yt_dlp` lookups, the page parsers, `strptime` and the construction of
  `scrape_video`'s record from the decoded body (`build`) are function-typed
  parameters.
- A dictionary that `extract_info` returns is a record whose every key is a
  `Records.Field`: absent, holding `None`, or holding a value. `d[k]` raises
  on an absent key, `d.get(k, default)` passes a stored `None` through, and
  a record field that is not `Optional` refuses `None`.
- A random choice is any `nat` index, used modulo the length of the list.
- Sleeps are not performed. Each one is recorded as an interval
  `Wait(lo, hi)` in the scraper's `waits` log.
- Every request the scraper's own session sends is recorded in `sent`.

The class `Scraper.YouTubeScraper` keeps the mutable state of the Python
object as fields: `stats`, `proxyPool`, `lastProxyRefresh`, `waits` and
`sent`. Its methods update them in place, and each method is proved equal to
a pure specification function in `Retry`, `Channels`, `Calls` or `Proxies`.
The properties are proved about those functions:

- `_make_request` is modelled as written. An exception raised in a deeper
  frame is caught again by every shallower frame, and that frame retries once
  more. So a run of 429 answers sends 2^(h+1) - 1 requests, where h is the
  headroom `max_retries - retry_count`; that is 15 for the default of 3.
- No status check, retry ceiling or wait ever stops a run of 403 answers;
  only the interpreter's recursion limit would (see "Left out").
- The counters in `ScrapingStats` keep
  `success_count + error_count <= total_requests`.
- `rate_limits_hit` is never incremented.

Where the code and its description disagree, the model follows the code:

- `last_proxy_refresh` is set even when every proxy source failed (though
  not when creating the session itself raises; see "Left out").
- A blocked proxy loses only one occurrence, so a duplicate of it can still
  be chosen.
- `scrape_playlists` never increments `error_count` on its normal paths.
- `max_comments = 0` keeps no comments, but `max_videos = 0` keeps every
  video.
- Caller-supplied `user_agents` are ignored when `UserAgent()` failed, because
  of Python's operator precedence.

`scrape_channel` has a latent defect. If creating the session raises before
line 397, the handler reads `channel_id` before it is bound. The model keeps
this as written: with `sessionFails` the call counts an error and then yields
no record (`None`), which stands for the `UnboundLocalError` leaving the
method.

## Model

| member | source | states |
|---|---|---|
| Backoff.BaseDelay | youtube_scraper/scraper.py:194 | the base delay is between 1 and 300 seconds |
| Backoff.BaseDelayMonotone | youtube_scraper/scraper.py:194 | the base delay never decreases as the retry count grows |
| Backoff.BaseDelayValues | youtube_scraper/scraper.py:194 | the base delay is 2^n up to n = 8 and the cap of 300 from n = 9 on |
| Backoff.RateLimitWait | youtube_scraper/scraper.py:189-198 | no wait (the call raises) iff retry_count >= max_retries; otherwise the wait is the base plus jitter of at most a tenth of the base, within [1, 330] seconds |
| Text.Strip | youtube_scraper/scraper.py:175 | `str.strip`: the result is the slice of the input between its leading and its trailing whitespace; everything cut at either end is whitespace, and the result has no whitespace at either end |
| Text.RStrip | youtube_scraper/scraper.py:592 | `str.rstrip(c)`: a prefix of the input that does not end in `c`, and everything cut off is `c` |
| Text.Split | youtube_scraper/scraper.py:397 | `str.split(sep)` yields at least one part |
| Text.SplitPartsFree | youtube_scraper/scraper.py:397 | no part of a split contains the separator |
| Text.JoinSplit | youtube_scraper/scraper.py:397 | joining the parts of a split with the separator gives back the input |
| Text.SplitLastPart | youtube_scraper/scraper.py:397 | the last part (`[-1]`) holds no separator; it is the text after the last separator, or the whole input when there is none |
| Text.Decimal | youtube_scraper/scraper.py:149-152 | `str(n)` of a natural is a non-empty digit string without a leading zero |
| Text.DecimalRoundTrip | youtube_scraper/scraper.py:149-152 | reading back `str(n)` gives `n` |
| Text.ParseInt | youtube_scraper/utils.py:77 | `int(text)` succeeds only on text that holds a digit; otherwise it raises |
| Text.ParseIntDigits | youtube_scraper/utils.py:77 | `int(t)` of a digit string is its decimal value |
| Text.ParseIntDecimal | youtube_scraper/utils.py:77 | `int(str(n))` gives back `n` |
| Text.ParseIntNegative | youtube_scraper/utils.py:77 | `int()` of a minus sign followed by digits is the negated decimal value |
| Stats.Initial | youtube_scraper/scraper.py:58-67 | the first stats record has all counters at zero and is consistent |
| Stats.CountKeepsConsistent | youtube_scraper/models.py:61-69 | one counted call adds exactly 1 to total_requests and at most 1 to success_count or error_count, and leaves rate_limits_hit and the timestamps alone |
| Stats.NeitherLeavesGap | youtube_scraper/models.py:61-69 | after any run of calls, total - success - error grows by exactly the number of calls that counted neither |
| Stats.Stamped | youtube_scraper/scraper.py:687-690 | `get_stats` sets end_time to now and changes nothing else |
| Urls.FirstVideoHit | youtube_scraper/utils.py:33-36 | `re.search` for the first pattern: the leftmost position where `v=` or `/` is followed by 11 id characters |
| Urls.FirstMarkerVideoHit | youtube_scraper/utils.py:33-36 | `re.search` for the `embed/` and `shorts/` patterns: the leftmost match, or none |
| Urls.ExtractVideoId | youtube_scraper/utils.py:25-37 | the result is None or exactly 11 characters from `[0-9A-Za-z_-]` |
| Urls.ExtractVideoIdLeftmost | youtube_scraper/utils.py:25-37 | an id is found iff some position matches the first pattern, and it is the 11 characters after the leftmost such `v=` or `/` |
| Urls.EmbedAndShortsNeverDecide | youtube_scraper/utils.py:27-31 | the `embed/` and `shorts/` patterns never succeed where the first one failed, so the result is always the first pattern's |
| Urls.MarkerHitIsSlashHit | youtube_scraper/utils.py:28-30 | a match of a marker ending in `/` is also a match of the first pattern at that slash |
| Urls.IdRunEnd | youtube_scraper/utils.py:42-45 | the greedy `[0-9A-Za-z_-]+` run ends at the first non-id character or the end of the string |
| Urls.FirstChannelHit | youtube_scraper/utils.py:48-51 | `re.search` for one channel pattern: the leftmost occurrence of the marker followed by an id character |
| Urls.SearchChannelPattern | youtube_scraper/utils.py:49-51 | a match yields a non-empty run of id characters |
| Urls.FirstChannelPattern | youtube_scraper/utils.py:48-52 | the pattern loop yields a non-empty run of id characters or None |
| Urls.ExtractChannelId | youtube_scraper/utils.py:39-52 | the channel id is None or a non-empty run of id characters |
| Urls.ChannelIdFirstPatternWins | youtube_scraper/utils.py:41-52 | None iff no marker matches; otherwise the result is the first pattern in list order that matches at all, whatever its position in the URL |
| Urls.ChannelPatternOrderBeatsPosition | youtube_scraper/utils.py:41-52 | in `@ab/c/xy` the `c/` pattern wins although `@` comes first: the id is `xy` |
| Dates.NormaliseDateInsertsDashes | youtube_scraper/utils.py:98-100 | an 8-digit string becomes `YYYY-MM-DD` with the same digits; any other string is left alone |
| Dates.FirstFormatRule | youtube_scraper/utils.py:102-108 | the format loop fails iff every format refuses the text; otherwise it returns the parse of the first format that accepts |
| Dates.ParseDateRule | youtube_scraper/utils.py:87-108 | `parse_date` raises iff every format refuses the normalised text; otherwise it returns the first accepting format's parse |
| Files.Name | youtube_scraper/utils.py:113-120 | `Path.name` holds no `/` |
| Files.Suffix | youtube_scraper/utils.py:119 | `Path.suffix` is empty or a dot followed by at least one character |
| Files.SaveToFileRule | youtube_scraper/utils.py:110-130 | the parent directory is always created first; a file is written iff the format is csv, json or excel and the name is not empty; a name without a suffix gets `.format` appended |
| Files.SuffixKeptOverFormat | youtube_scraper/utils.py:119-123 | `report.v2` saved as csv keeps its name: the `.v2` suffix blocks the `.csv` extension |
| Files.TrailingDotIsNoSuffix | youtube_scraper/utils.py:119-126 | `archive.` has no suffix, so it is saved as `archive..json` |
| Identity.ChooseProfile | youtube_scraper/scraper.py:129 | `random.choice` over the three browser profiles returns one of them |
| Identity.UserAgentPool | youtube_scraper/scraper.py:102-108 | the user-agent list is never empty |
| Identity.UserAgentPrecedence | youtube_scraper/scraper.py:102-108 | with no `UserAgent()` the fixed three agents are used, even when the caller supplied a list; otherwise a non-empty caller list wins over the ten generated agents |
| Identity.HeadersNames | youtube_scraper/scraper.py:133-156 | the User-Agent header is the drawn agent and Sec-CH-UA-Platform is the profile's platform in quotes |
| Identity.HeadersValues | youtube_scraper/scraper.py:149-152 | RTT, Viewport-Width and DPR read back as the drawn RTT, the viewport width and the pixel ratio; RTT has 2 or 3 digits |
| Identity.RttDigits | youtube_scraper/scraper.py:152 | `str(randint(50, 150))` has 2 or 3 digits |
| Proxies.ProxyLines | youtube_scraper/scraper.py:175 | the comprehension keeps at most one entry per line |
| Proxies.EntryShaped | youtube_scraper/scraper.py:175 | `http://` plus a stripped non-blank line is a well-shaped proxy entry |
| Proxies.ProxyLinesShape | youtube_scraper/scraper.py:175 | one entry per non-blank line, each `http://` followed by the stripped line |
| Proxies.ProxyEntriesShape | youtube_scraper/scraper.py:174-175 | a source's text yields one well-shaped entry per non-blank line |
| Proxies.HarvestShaped | youtube_scraper/scraper.py:170-176 | every entry harvested from the sources is well shaped |
| Proxies.Choose | youtube_scraper/scraper.py:187 | `random.choice` returns a member of the pool |
| Proxies.GetProxy | youtube_scraper/scraper.py:158-187 | None iff the pool is empty after the refresh step, otherwise a member of the pool; the old pool is kept as a prefix |
| Proxies.GetProxyRefreshRule | youtube_scraper/scraper.py:159-180 | a refresh happens iff the pool is empty or more than 300 s have passed; it appends every harvested entry and sets the refresh time even when nothing was harvested; otherwise nothing changes and a proxy is returned |
| Proxies.RemoveFirstOneOccurrence | youtube_scraper/scraper.py:253-254 | `list.remove` drops exactly one occurrence of the proxy: one shorter, multiset minus that proxy |
| Proxies.IndexOf | youtube_scraper/scraper.py:253-254 | the position `list.remove` acts on: an occurrence of the proxy with none before it |
| Proxies.RemoveFirstAtFirst | youtube_scraper/scraper.py:253-254 | `list.remove` takes out the first occurrence and keeps every other entry in order |
| Proxies.RemoveFirstKeeps | youtube_scraper/scraper.py:253-254 | `list.remove` adds nothing to the pool |
| Proxies.BlockedProxyCanComeBack | youtube_scraper/scraper.py:253-254 | a proxy listed twice can still be chosen after it was blocked once |
| Retry.Issue | youtube_scraper/scraper.py:241-247 | one request is sent to the URL, through the proxy drawn from the pool when proxies are on and through none otherwise |
| Retry.Attempt | youtube_scraper/scraper.py:237-263 | one `_make_request` frame consumes at least one draw, keeps the earlier requests and waits, and returns a success only with the JSON of an accepted reply |
| Retry.AcceptedAtOnce | youtube_scraper/scraper.py:245-257 | a frame returns a body after its first draw iff that reply is neither 429 nor 403 and decodes; it then returns that JSON with one request sent and no sleep |
| Retry.Deeper | youtube_scraper/scraper.py:248-255 | the recursive call inside the frame's `try` keeps the same invariants |
| Retry.Recover | youtube_scraper/scraper.py:259-263 | at retry_count >= max_retries the error is re-raised with nothing else changed |
| Retry.RateLimitedFrame | youtube_scraper/scraper.py:248-250 | a 429 below the ceiling records the backoff wait and recurses at retry_count + 1; at the ceiling it raises into the frame's handler |
| Retry.DeeperFailed | youtube_scraper/scraper.py:259-262 | when the deeper frame raises, this frame pauses once and retries at retry_count + 1 |
| Retry.AlwaysRateLimited | youtube_scraper/scraper.py:237-263 | with only 429 answers the call fails with "Max retries exceeded" after exactly 2^(h+1) - 1 requests |
| Retry.DefaultRateLimitedRequests | youtube_scraper/scraper.py:237-263 | with max_retries = 3 and only 429 answers, the call makes 15 requests |
| Retry.AlwaysRaising | youtube_scraper/scraper.py:259-263 | with only exceptions the call fails after exactly h + 1 requests and h pauses, each between sleep_interval and twice that |
| Retry.EndlessBlocks | youtube_scraper/scraper.py:252-255 | with only 403 answers no status check, retry ceiling or wait stops the call: it uses up every draw, one request each, with no wait |
| Retry.BlockDropsOneOccurrence | youtube_scraper/scraper.py:252-254 | a 403 through a proxy removes exactly one occurrence of that proxy from the pool |
| Fetch.Attempts | youtube_scraper/utils.py:70-85 | the loop makes at most `retries` requests and waits at most once per request |
| Fetch.Paused | youtube_scraper/utils.py:76-84 | an attempt waits at most once |
| Fetch.RateLimitPause | youtube_scraper/utils.py:76-84 | after a 429 the pause is the `Retry-After` number when the header is a decimal, 60 without the header, and `2 ** attempt` when `int()` refuses the header |
| Fetch.RateLimitWaits | youtube_scraper/utils.py:70-84 | in the loop, a 429 attempt that is not the last adds exactly that pause before the waits of the later attempts |
| Fetch.MakeRequest | youtube_scraper/utils.py:66-85 | the loop returns what the attempt rule gives; every request carries the one User-Agent drawn up front, and a failing `UserAgent()` sends nothing |
| Fetch.FirstDeliveryWins | youtube_scraper/utils.py:70-85 | a body is returned iff some attempt answers 200 with text; it is the first such attempt's body after exactly that many requests; otherwise all `retries` requests are made |
| Fetch.UnreachableDoublesWaits | youtube_scraper/utils.py:82-84 | when every request raises, attempt k waits 2^k seconds and none succeeds |
| Fetch.OtherStatusNoWait | youtube_scraper/utils.py:80-81 | statuses other than 200 and 429 never wait |
| Channels.ChannelHandleRule | youtube_scraper/scraper.py:397 | the handle is the text after the last `@`, or after the last `/` when there is no `@`, or the whole URL |
| Channels.ChannelCandidates | youtube_scraper/scraper.py:400-404 | there are exactly three candidate pages |
| Channels.TryOne | youtube_scraper/scraper.py:410-444 | one candidate sends one request to its URL; it yields the page iff it answered 200 with text, and waits at most once |
| Channels.TryOneReactions | youtube_scraper/scraper.py:429-444 | a 429 waits the backoff for retry 0 (1 to 1.1 s), or 1 to 2 s when that raises; a 403 waits nothing and drops exactly one occurrence of a non-empty proxy; another status waits 2 to 4 s; an exception waits 1 to 2 s |
| Channels.TryCandidatesFinds | youtube_scraper/scraper.py:409-444 | a page is found iff some candidate answers 200 with text; it is the first one, it names the URL used, and exactly that many requests were sent; otherwise every candidate was tried once |
| Channels.TryCandidatesSends | youtube_scraper/scraper.py:409-444 | the candidates are requested in order, each at most once, with at most one wait per request |
| Channels.FallbackChannel | youtube_scraper/scraper.py:518-529 | the fallback record has zero counts, the handle as id and title, and the given URL as custom URL |
| Channels.PageChannel | youtube_scraper/scraper.py:497-508 | a parsed record has the handle as id, the page title or else the handle as title, and the URL used as custom URL |
| Channels.FallbackWhenNothingRead | youtube_scraper/scraper.py:446-447 | when no candidate answers 200 with a non-empty body, the result is the fallback record |
| Batches.SliceEnd | youtube_scraper/scraper.py:321 | Python's `[:stop]` keeps at most the whole list |
| Batches.ReplyComment | youtube_scraper/scraper.py:337-348 | a reply record exists iff `id`, `text`, `author` and `timestamp` are present and not `None`, `like_count` is not a stored `None` and the timestamp parses; it is a reply with zero replies, the parent's id, the reply's id, `author_id` or None, and `like_count` or 0 |
| Batches.TopComment | youtube_scraper/scraper.py:322-332 | a top-level record exists iff `id`, `text`, `author` and `timestamp` are present and not `None`, neither count is a stored `None` and the timestamp parses; it is not a reply, and carries the comment's id, `author_id` or None, and each count or 0 |
| Batches.RepliesOf | youtube_scraper/scraper.py:336-349 | the replies convert iff every reply can be built |
| Batches.RepliesOfElements | youtube_scraper/scraper.py:336-349 | the converted replies are the replies one for one, in order |
| Batches.ThreadShape | youtube_scraper/scraper.py:321-349 | a thread is its parent followed by all its replies (when included), and each reply follows its parent |
| Batches.ThreadValidIff | youtube_scraper/scraper.py:322-349 | a thread converts iff its comment can be built and, when `include_replies` is set and `replies` is a non-empty list, so can every reply |
| Batches.FlattenValid | youtube_scraper/scraper.py:321-349 | the comment loop finishes iff every thread converts; otherwise a lookup, `parse_date` or the record validation raises |
| Batches.FlattenShape | youtube_scraper/scraper.py:321-349 | the output holds one top-level record per comment, in order, each followed by its replies; its length is comments plus replies |
| Batches.VideoFromEntry | youtube_scraper/scraper.py:553-575 | a video is built iff the entry's `id` and `title` are present and not `None`, the full lookup of its watch URL answers, no defaulted key the record refuses as `None` holds `None`, and the upload date (default "20000101") parses; it keeps the entry's id and title and the info's counts, 0 where absent |
| Batches.KeptVideos | youtube_scraper/scraper.py:550-576 | the video loop keeps at most one video per entry |
| Batches.KeptVideosCount | youtube_scraper/scraper.py:550-576 | every entry is kept iff every entry converts |
| Batches.KeptVideosInOrder | youtube_scraper/scraper.py:550-576 | when every entry converts, the videos are the entries' conversions in entry order |
| Batches.KeptVideosFrom | youtube_scraper/scraper.py:550-576 | every kept video is the conversion of some entry |
| Batches.VideoLimitRule | youtube_scraper/scraper.py:546 | `entries[:max_videos] if max_videos else entries`: None or 0 keeps everything, a positive limit keeps a prefix, a negative one drops from the end |
| Batches.ZeroLimitContrast | youtube_scraper/scraper.py:321 | a comment limit of 0 keeps no comments, while a video limit of 0 keeps every video |
| Batches.PlaylistCandidates | youtube_scraper/scraper.py:590-594 | there are exactly three playlist candidates |
| Batches.PlaylistCandidatesRepeat | youtube_scraper/scraper.py:590-594 | the first two candidates coincide unless the URL ends in `/`; the third exists iff a channel id can be extracted |
| Batches.PlaylistFrom | youtube_scraper/scraper.py:608-620 | a playlist record exists iff `id` and `title` are present and not `None` and neither `video_count` nor `channel_id` holds `None`; it keeps the id and title, `video_count` or 0, `view_count` or 0 (None kept), and stamps `now` |
| Batches.PlaylistsOf | youtube_scraper/scraper.py:606-620 | the entry loop keeps at most one playlist per entry |
| Batches.PlaylistsOfRule | youtube_scraper/scraper.py:606-620 | no playlist is kept iff no entry can be built, and every kept playlist comes from an entry |
| Batches.FirstProductiveRule | youtube_scraper/scraper.py:597-626 | the candidate loop returns nothing iff no candidate yields a playlist; otherwise it returns the first productive candidate's playlists |
| Batches.PostFrom | youtube_scraper/scraper.py:660-668 | a post exists iff its text and a parseable date are present; it keeps the id (or "") and the text, and has no counts |
| Batches.PostsFrom | youtube_scraper/scraper.py:659-669 | the post loop finishes iff every element converts |
| Batches.PostsFromElements | youtube_scraper/scraper.py:659-669 | the posts are the elements' conversions one for one, in order |
| Calls.VideoCall | youtube_scraper/scraper.py:272-297 | a video is returned iff the call succeeds; an error is counted iff the request failed or the record could not be built; an empty answer counts neither |
| Calls.RateLimitedVideoIsError | youtube_scraper/scraper.py:272-297 | with default settings and only 429 answers, `scrape_video` returns None and counts an error |
| Calls.CommentsCall | youtube_scraper/scraper.py:312-356 | a non-empty result counts a success; neither counter moves iff the answer has no comments |
| Calls.CommentsCallRule | youtube_scraper/scraper.py:312-356 | an error is counted iff the lookup raised or a kept comment or included reply cannot be built; on success the result has the shape of the flattened threads |
| Calls.ChannelVideosCall | youtube_scraper/scraper.py:537-583 | an error is counted iff the listing raised and a success iff it had entries; otherwise the result is empty |
| Calls.ChannelVideosCallRule | youtube_scraper/scraper.py:546-579 | on success every video comes from a kept entry, and when all convert they appear in entry order |
| Calls.PlaylistsCall | youtube_scraper/scraper.py:587-637 | the call never counts an error, and counts a success iff it found playlists |
| Calls.PlaylistsCallRule | youtube_scraper/scraper.py:590-633 | success iff some candidate yields playlists, and then the result is the first such candidate's |
| Calls.ChannelCall | youtube_scraper/scraper.py:387-529 | no record iff the session fails; a success iff a non-empty page was read and its extraction did not raise; every record has the handle as id |
| Calls.ChannelCallRule | youtube_scraper/scraper.py:409-529 | a success comes from the first candidate that delivered a non-empty page whose extraction did not raise, and names it as custom URL; an error yields the fallback record |
| Calls.PostsCall | youtube_scraper/scraper.py:647-676 | no body counts neither; a failing `UserAgent()` or an unconvertible post counts an error; a success returns one post per element in order |
| Calls.UnreachableCommunityCountsNeither | youtube_scraper/scraper.py:650-652 | when every request raises, three requests are made and the call returns nothing and counts neither |
| Calls.CountedCallKeepsConsistent | youtube_scraper/models.py:61-69 | any counted call keeps the stats consistent and adds 1 to total_requests |
| Scraper.ReadReplies | youtube_scraper/scraper.py:336-349 | the reply loop computes the replies' conversion |
| Scraper.ReadThread | youtube_scraper/scraper.py:322-349 | one comment and its replies are converted as the thread rule says |
| Scraper.ReadComments | youtube_scraper/scraper.py:321-349 | the comment loop computes the flattened threads |
| Scraper.KeepVideos | youtube_scraper/scraper.py:550-576 | the video loop keeps the entries that convert, in order |
| Scraper.ReadPlaylists | youtube_scraper/scraper.py:606-620 | the entry loop is `PlaylistsOf`: it keeps, in order, the records of the entries `PlaylistValid` accepts |
| Scraper.FindPlaylists | youtube_scraper/scraper.py:597-626 | the candidate loop stops at the first candidate that yields playlists |
| Scraper.ReadPosts | youtube_scraper/scraper.py:659-669 | the post loop converts every element or fails |
| Scraper.HarvestSources | youtube_scraper/scraper.py:170-176 | the source loop appends the entries of every source that answered 200, all well shaped |
| Scraper.ReadCommunityPage | youtube_scraper/scraper.py:651-676 | the page is turned into posts and a tally as the community rule says |
| Scraper.ReadVideo | youtube_scraper/scraper.py:275-297 | the fetched JSON is turned into a video and a tally as the video rule says |
| Scraper.YouTubeScraper.constructor | youtube_scraper/scraper.py:38-131 | settings stored, user agents chosen by the precedence rule, headers drawn once with an agent from `user_agents` and an RTT within 50..150, zero stats, empty pool, refresh time 0 |
| Identity.GenerateHeaders | youtube_scraper/scraper.py:133-156 | for an RTT drawn by `randint(50, 150)`: the User-Agent header is a member of the given user-agent list (the constructor passes `user_agents`), the platform header names the profile's platform, and the RTT header reads back within 50..150 |
| Scraper.YouTubeScraper.GetProxy | youtube_scraper/scraper.py:158-187 | the pool, refresh time and answer become those of the refresh-and-pick rule, and every pool entry stays well shaped |
| Scraper.YouTubeScraper.HandleRateLimit | youtube_scraper/scraper.py:189-198 | raises iff retry_count >= max_retries, otherwise logs one backoff wait |
| Scraper.YouTubeScraper.IssueRequest | youtube_scraper/scraper.py:241-247 | picks the proxy and logs the request as the issue rule says |
| Scraper.YouTubeScraper.MakeRequest | youtube_scraper/scraper.py:237-263 | the recursive method leaves the outcome, pool, waits and requests of one `_make_request` frame |
| Scraper.YouTubeScraper.RetryDeeper | youtube_scraper/scraper.py:248-255 | the nested retry leaves the state the deeper-frame rule gives |
| Scraper.YouTubeScraper.HandleFailure | youtube_scraper/scraper.py:259-263 | the exception handler re-raises at the ceiling or pauses and retries, as the recovery rule says |
| Scraper.YouTubeScraper.ScrapeVideo | youtube_scraper/scraper.py:265-297 | an invalid URL changes nothing; otherwise one `_make_request` run and the counters move by the video rule's tally |
| Scraper.YouTubeScraper.ScrapeComments | youtube_scraper/scraper.py:299-356 | an invalid URL changes nothing; otherwise the comments and counters follow the comments rule |
| Scraper.YouTubeScraper.TryPage | youtube_scraper/scraper.py:410-444 | one candidate page: request, wait and pool change as the candidate rule says |
| Scraper.YouTubeScraper.TryCandidatePages | youtube_scraper/scraper.py:406-444 | the candidate loop leaves the page, URL and network state the fallback rule gives |
| Scraper.YouTubeScraper.ScrapeChannel | youtube_scraper/scraper.py:387-529 | a failing session sends nothing; otherwise the candidates are tried in order, and the record and counters follow the channel rule, with a raising extraction giving the fallback record and an error |
| Scraper.YouTubeScraper.ScrapeChannelVideos | youtube_scraper/scraper.py:531-583 | the videos and counters follow the channel-videos rule |
| Scraper.YouTubeScraper.ScrapePlaylists | youtube_scraper/scraper.py:585-637 | the playlists and counters follow the playlists rule |
| Scraper.YouTubeScraper.ScrapeCommunityPosts | youtube_scraper/scraper.py:639-676 | an invalid channel URL changes nothing; otherwise three `make_request` attempts and the posts and counters follow the community rule |
| Scraper.YouTubeScraper.GetStats | youtube_scraper/scraper.py:687-690 | stamps end_time and returns the counters |

## Left out

- The aiohttp session, its creation, the visit to the trending page, cookies and `close()`: network I/O. A failing session creation is the `sessionFails` input of `ScrapeChannel`.
- `async`/`await` and real sleeping: each sleep is logged as an interval instead.
- The sleeps of `utils.make_request`: they are returned by `Fetch.MakeRequest`, not added to the scraper's `waits` log.
- Requests made by `yt_dlp` and by `utils.make_request`: they are not added to the scraper's `sent` log. Only the class's own session requests are.
- Per-request headers: a logged request records its URL and proxy, not the headers drawn for it.
- The dict order of the header map: it is a Dafny `map`.
- The `Downlink` header value and the jitter value: they are floats. The model keeps the drawn Downlink string as an input and only the jitter's bounds.
- `yt_dlp.extract_info`: its answers are inputs.
- BeautifulSoup and regex scraping of channel pages and community posts: the parsed page is an input. For channel pages it is None when the extraction raises, for instance on the unbound local `re`; when that happens is not modelled.
- `datetime.now()` and `time.time()`: they are inputs. `ScrapePlaylists` uses one `now` for every playlist record.
- `str.isdigit` and `int()`: the model accepts only ASCII digits, where Python also accepts other Unicode digits; `int()` also accepts `_` between digits, which the model refuses.
- `Path.resolve()`: `Files.SaveToFile` takes the filename already made absolute.
- `_handle_cookie_error`, `get_random_proxy`, `format_number`, the progress bar, `save_results`, logging: they only build messages, render numbers, or forward to modelled code.
- `cli.py` and `config/settings.py`: a command-line front end and constants that the scraper does not import.
- The `ValueError` of `list.remove`: it cannot happen, because the proxy removed was just chosen from the pool.
- `Scraper.YouTubeScraper.GetProxy`: the pool is extended once with all harvested entries, not once per source. The resulting list is the same.
- Retry.AlwaysRateLimited: the number of backoff waits (2^(h+1) - 2) is not stated; only the outcome and the request count are.
- Proxies.GetProxy: the outer `except` of `_get_proxy` (youtube_scraper/scraper.py:181-182) is not modelled. When creating the `ClientSession` raises, the source harvests nothing and does not stamp `last_proxy_refresh`; the model always stamps it on a refresh.
- Calls.VideoCall: the construction of the `VideoMetadata` in `scrape_video` (youtube_scraper/scraper.py:278-291) is the unconstrained `build` parameter; which bodies it accepts is not modelled.
- Calls.PlaylistsCall: `playlists` is shared by all candidates in `scrape_playlists`. An exception that escapes the per-entry handler, such as `entry.get` on an entry that is `None` (youtube_scraper/scraper.py:619), keeps the partial list, and later candidates append to it. `Batches.FirstProductive` takes each candidate's list on its own, so it cannot express this.
- Batches.ReplyComment, Batches.TopComment, Batches.VideoFromEntry, Batches.PlaylistFrom: values are taken to have the type the record field expects. pydantic's coercions, such as a numeric id turned into a string, and the validation errors of other wrongly typed values, are not modelled. List items are always dictionaries.
- Retry.EndlessBlocks: the interpreter's recursion limit is not modelled. Every 403 awaits `_make_request` one frame deeper (youtube_scraper/scraper.py:252-255), so in CPython an all-403 run eventually raises `RecursionError`. The handlers at youtube_scraper/scraper.py:259-263 catch it, and the call ends with an error after finitely many requests. The model assumes an unbounded stack.
