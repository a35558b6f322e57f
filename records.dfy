/**
 * The record shapes of youtube_scraper/models.py, and the shapes of the data
 * the scraper receives from outside: decoded JSON bodies and the result
 * dictionaries of `yt_dlp`'s `extract_info`.
 */
module Records {

  import opened Wrappers
  import opened Dates

  /** `ScrapingStats`: the run counters. */
  datatype ScrapingStats = ScrapingStats(
    startTime: DateTime,
    endTime: Option<DateTime>,
    totalItems: int,
    processedItems: int,
    successCount: int,
    errorCount: int,
    rateLimitsHit: int,
    totalRequests: int)

  datatype VideoMetadata = VideoMetadata(
    videoId: string,
    title: string,
    description: Option<string>,
    uploadDate: DateTime,
    viewCount: int,
    likeCount: Option<int>,
    commentCount: Option<int>,
    duration: int,
    tags: seq<string>,
    thumbnailUrl: string,
    channelId: string,
    channelTitle: string)

  datatype Comment = Comment(
    commentId: string,
    text: string,
    author: string,
    authorChannelId: Option<string>,
    likeCount: int,
    replyCount: int,
    publishedAt: DateTime,
    updatedAt: Option<DateTime>,
    isReply: bool,
    parentId: Option<string>)

  datatype ChannelMetadata = ChannelMetadata(
    channelId: string,
    title: string,
    description: Option<string>,
    subscriberCount: Option<int>,
    videoCount: int,
    viewCount: int,
    joinedDate: Option<DateTime>,
    country: Option<string>,
    customUrl: Option<string>,
    thumbnailUrl: string)

  datatype PlaylistMetadata = PlaylistMetadata(
    playlistId: string,
    title: string,
    description: Option<string>,
    videoCount: int,
    viewCount: Option<int>,
    lastUpdated: DateTime,
    channelId: string)

  datatype CommunityPost = CommunityPost(
    postId: string,
    text: string,
    publishedAt: DateTime,
    likeCount: Option<int>,
    replyCount: Option<int>,
    attachmentType: Option<string>,
    attachmentUrl: Option<string>)

  /** A decoded JSON value (`response.json()`). */
  datatype Json =
    | JNull
    | JBool(b: bool)
    | JNumber(n: real)
    | JString(s: string)
    | JArray(items: seq<Json>)
    | JObject(fields: map<string, Json>)

  /** Python truthiness of a decoded JSON value (`if not info`). */
  predicate Truthy(j: Json) {
    match j
    case JNull => false
    case JBool(b) => b
    case JNumber(n) => n != 0.0
    case JString(s) => s != ""
    case JArray(items) => items != []
    case JObject(fields) => fields != map[]
  }

  /** An `extract_info` result that should hold a list under `"entries"` or
      `"comments"`: the call raised, the list is missing, or the list. A
      result of `None`, or `None` under the key, makes the next step raise
      and is written `ListingRaised`. */
  datatype Listing<T> = ListingRaised | NoEntries | Entries(items: seq<T>)

  /** The value under one key of a dictionary `extract_info` returned: the
      key is absent, it holds `None`, or it holds a value. */
  datatype Field<+T> = Missing | Null | Value(v: T)

  /** `d.get(k, default)`: the default only when the key is absent, so a
      stored `None` comes through as None. */
  function Get<T>(f: Field<T>, default: T): (r: Option<T>)
    ensures r.None? <==> f.Null?
    ensures f.Missing? ==> r == Some(default)
  {
    match f
    case Missing => Some(default)
    case Null => None
    case Value(x) => Some(x)
  }

  /** `d.get(k)`, and `d[k]` once the key is known to be present: None
      when the key is absent or holds `None`. */
  function Lookup<T>(f: Field<T>): (r: Option<T>)
    ensures r.Some? <==> f.Value?
  {
    if f.Value? then Some(f.v) else None
  }

  /** A flat entry of a channel's video list. */
  datatype VideoEntry = VideoEntry(id: Field<string>, title: Field<string>)

  /** The full `extract_info` dictionary of one video. */
  datatype VideoInfo = VideoInfo(
    description: Field<string>,
    uploadDate: Field<string>,
    viewCount: Field<int>,
    likeCount: Field<int>,
    commentCount: Field<int>,
    duration: Field<int>,
    tags: Field<seq<string>>,
    thumbnail: Field<string>,
    channelId: Field<string>,
    channel: Field<string>)

  /** A reply under a top-level comment. */
  datatype ReplyData = ReplyData(
    id: Field<string>, text: Field<string>, author: Field<string>, authorId: Field<string>,
    likeCount: Field<int>, timestamp: Field<string>)

  /** A top-level comment of a video's `"comments"` list. */
  datatype CommentData = CommentData(
    id: Field<string>, text: Field<string>, author: Field<string>, authorId: Field<string>,
    likeCount: Field<int>, replyCount: Field<int>, timestamp: Field<string>,
    replies: Field<seq<ReplyData>>)

  /** A flat entry of a channel's playlist list. */
  datatype PlaylistEntry = PlaylistEntry(
    id: Field<string>, title: Field<string>, description: Field<string>,
    videoCount: Field<int>, viewCount: Field<int>, channelId: Field<string>)

  /** What the HTML parser finds on a channel page (the BeautifulSoup and
      regular-expression extraction is not part of this model). */
  datatype ChannelPage = ChannelPage(
    title: Option<string>,
    description: string,
    thumbnail: string,
    subscriberCount: int,
    videoCount: int,
    viewCount: int)

  /** One post element of a community page, as the HTML parser finds it:
      its `id` attribute, and the text of its content and published-time
      children (None where the child is missing). */
  datatype PostElement = PostElement(id: Option<string>, text: Option<string>, published: Option<string>)
}
