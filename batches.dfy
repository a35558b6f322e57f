/**
 * The list assembly of `scrape_comments`, `scrape_channel_videos` and
 * `scrape_playlists` (youtube_scraper/scraper.py): which records a call
 * returns, given what `yt_dlp` reported. The class in scraper.dfy builds
 * these lists with loops; this module states what they are.
 */
module Batches {

  import opened Wrappers
  import opened Text
  import opened Dates
  import opened Records
  import opened Urls

  // ---------------------------------------------------------------------
  // Slices
  // ---------------------------------------------------------------------

  /** The end index of the Python slice `s[:stop]` on a list of length `n`:
      None means the whole list, a negative stop counts from the end. */
  function SliceEnd(n: nat, stop: Option<int>): (k: nat)
    ensures k <= n
  {
    if stop.None? then n
    else if stop.value >= 0 then (if stop.value < n then stop.value else n)
    else if n + stop.value >= 0 then n + stop.value
    else 0
  }

  /** `s[:stop]`. */
  function Take<T>(s: seq<T>, stop: Option<int>): seq<T> {
    s[..SliceEnd(|s|, stop)]
  }

  /** `prefix` followed by the list `o`, when there is one. */
  function Then<T>(prefix: seq<T>, o: Option<seq<T>>): (r: Option<seq<T>>)
    ensures r.Some? <==> o.Some?
    ensures prefix == [] ==> r == o
  {
    if o.None? then None
    else
      assert prefix == [] ==> prefix + o.value == o.value;
      Some(prefix + o.value)
  }

  /** Appending in two steps is appending once. */
  lemma ThenThen<T>(a: seq<T>, b: seq<T>, o: Option<seq<T>>)
    ensures Then(a, Then(b, o)) == Then(a + b, o)
  {
    if o.Some? {
      assert a + (b + o.value) == (a + b) + o.value;
    }
  }

  // ---------------------------------------------------------------------
  // Comments
  // ---------------------------------------------------------------------

  /** What a reply needs for its `Comment` to be built: `id`, `text`,
      `author` and `timestamp` are present (`reply[k]` raises otherwise)
      and not `None` (the `str` fields refuse it, and so does `parse_date`),
      `like_count` is not a stored `None` (the `int` field refuses it), and
      the timestamp parses. `author_id` may be anything. */
  predicate ReplyValid(r: ReplyData, strptime: Strptime) {
    && r.id.Value? && r.text.Value? && r.author.Value? && !r.likeCount.Null?
    && r.timestamp.Value? && ParseDate(r.timestamp.v, strptime).Some?
  }

  /** One reply under the comment `parentId`; None when building it raises
      (the exception ends the whole call). */
  function ReplyComment(r: ReplyData, parentId: string, strptime: Strptime): (c: Option<Comment>)
    ensures c.Some? <==> ReplyValid(r, strptime)
    ensures c.Some? ==> (c.value.isReply && c.value.replyCount == 0 && c.value.parentId == Some(parentId)
      && r.id == Value(c.value.commentId) && c.value.authorChannelId == Lookup(r.authorId)
      && c.value.likeCount == (if r.likeCount.Value? then r.likeCount.v else 0))
  {
    if r.id.Missing? || r.text.Missing? || r.author.Missing? || r.timestamp.Missing? then None
    else
      var stamp := Lookup(r.timestamp);
      var published := if stamp.None? then None else ParseDate(stamp.value, strptime);
      var id, text, author, likes := Lookup(r.id), Lookup(r.text), Lookup(r.author), Get(r.likeCount, 0);
      if published.None? || id.None? || text.None? || author.None? || likes.None? then None
      else Some(Comment(id.value, text.value, author.value, Lookup(r.authorId), likes.value, 0,
                        published.value, None, true, Some(parentId)))
  }

  /** What a top-level comment needs for its `Comment` to be built: as for
      a reply, and `reply_count` is not a stored `None` either. */
  predicate TopValid(c: CommentData, strptime: Strptime) {
    && c.id.Value? && c.text.Value? && c.author.Value? && !c.likeCount.Null? && !c.replyCount.Null?
    && c.timestamp.Value? && ParseDate(c.timestamp.v, strptime).Some?
  }

  /** One top-level comment, without its replies; None when building it raises. */
  function TopComment(c: CommentData, strptime: Strptime): (t: Option<Comment>)
    ensures t.Some? <==> TopValid(c, strptime)
    ensures t.Some? ==> (!t.value.isReply && c.id == Value(t.value.commentId) && t.value.parentId.None?
      && t.value.authorChannelId == Lookup(c.authorId)
      && t.value.likeCount == (if c.likeCount.Value? then c.likeCount.v else 0)
      && t.value.replyCount == (if c.replyCount.Value? then c.replyCount.v else 0))
  {
    if c.id.Missing? || c.text.Missing? || c.author.Missing? || c.timestamp.Missing? then None
    else
      var stamp := Lookup(c.timestamp);
      var published := if stamp.None? then None else ParseDate(stamp.value, strptime);
      var id, text, author := Lookup(c.id), Lookup(c.text), Lookup(c.author);
      var likes, replies := Get(c.likeCount, 0), Get(c.replyCount, 0);
      if published.None? || id.None? || text.None? || author.None? || likes.None? || replies.None? then None
      else Some(Comment(id.value, text.value, author.value, Lookup(c.authorId), likes.value, replies.value,
                        published.value, None, false, None))
  }

  /** Every reply can be built. */
  predicate RepliesValid(rs: seq<ReplyData>, strptime: Strptime) {
    forall i :: 0 <= i < |rs| ==> ReplyValid(rs[i], strptime)
  }

  /** The replies of one comment, in order. */
  function RepliesOf(rs: seq<ReplyData>, parentId: string, strptime: Strptime): (out: Option<seq<Comment>>)
    ensures out.Some? <==> RepliesValid(rs, strptime)
  {
    if rs == [] then Some([])
    else
      var head := ReplyComment(rs[0], parentId, strptime);
      var tail := RepliesOf(rs[1..], parentId, strptime);
      assert forall i :: 1 <= i < |rs| ==> rs[i] == rs[1..][i - 1];
      if head.None? || tail.None? then None
      else Some([head.value] + tail.value)
  }

  /** The replies read, when they can all be built: one comment per reply, in order. */
  lemma {:induction false} RepliesOfElements(rs: seq<ReplyData>, parentId: string, strptime: Strptime)
    requires RepliesValid(rs, strptime)
    ensures var out := RepliesOf(rs, parentId, strptime).value;
      |out| == |rs| && forall i :: 0 <= i < |rs| ==> ReplyComment(rs[i], parentId, strptime) == Some(out[i])
  {
    if rs != [] {
      var tailRs := rs[1..];
      assert RepliesValid(tailRs, strptime) by {
        forall i | 0 <= i < |tailRs| ensures ReplyValid(tailRs[i], strptime) {
          assert tailRs[i] == rs[i + 1];
        }
      }
      RepliesOfElements(tailRs, parentId, strptime);
      var head := ReplyComment(rs[0], parentId, strptime);
      assert head.Some?;
      var tail := RepliesOf(tailRs, parentId, strptime).value;
      var out := RepliesOf(rs, parentId, strptime).value;
      assert out == [head.value] + tail;
      forall i | 0 <= i < |rs| ensures ReplyComment(rs[i], parentId, strptime) == Some(out[i]) {
        if i == 0 {
          assert out[0] == head.value;
        } else {
          assert out[i] == tail[i - 1] && rs[i] == tailRs[i - 1];
        }
      }
    }
  }

  /** The replies from position `j` on: reply `j`, then the ones after it. */
  lemma RepliesOfStep(rs: seq<ReplyData>, parentId: string, strptime: Strptime, j: nat)
    requires j < |rs|
    ensures var c := ReplyComment(rs[j], parentId, strptime);
      RepliesOf(rs[j..], parentId, strptime) == if c.None? then None else Then([c.value], RepliesOf(rs[j + 1..], parentId, strptime))
  {
    assert rs[j..][0] == rs[j] && rs[j..][1..] == rs[j + 1..];
  }

  /** The `replies` list of a comment; empty when the key is absent or
      holds `None`. */
  function Replies(c: CommentData): seq<ReplyData> {
    if c.replies.Value? then c.replies.v else []
  }

  /** Whether a comment's replies follow it: `include_replies` is set and
      `comment_data.get("replies")` is a non-empty list. */
  predicate WithReplies(c: CommentData, includeReplies: bool) {
    includeReplies && Replies(c) != []
  }

  /** A comment followed by its replies, when they are included. */
  function Thread(c: CommentData, includeReplies: bool, strptime: Strptime): Option<seq<Comment>> {
    var top := TopComment(c, strptime);
    if top.None? then None
    else if WithReplies(c, includeReplies) then
      var rs := RepliesOf(Replies(c), top.value.commentId, strptime);
      if rs.None? then None else Some([top.value] + rs.value)
    else Some([top.value])
  }

  /** The comments list of `scrape_comments` for the top-level comments
      `cs` (already cut to `max_comments`); None when some comment or
      included reply cannot be built, which makes the call return `[]` as an error. */
  function Flatten(cs: seq<CommentData>, includeReplies: bool, strptime: Strptime): Option<seq<Comment>> {
    if cs == [] then Some([])
    else
      var t := Thread(cs[0], includeReplies, strptime);
      var rest := Flatten(cs[1..], includeReplies, strptime);
      if t.None? || rest.None? then None else Some(t.value + rest.value)
  }

  /** The comments list from comment `i` on: its thread, then the rest. */
  lemma FlattenStep(cs: seq<CommentData>, includeReplies: bool, strptime: Strptime, i: nat)
    requires i < |cs|
    ensures var t := Thread(cs[i], includeReplies, strptime);
      Flatten(cs[i..], includeReplies, strptime) == if t.None? then None else Then(t.value, Flatten(cs[i + 1..], includeReplies, strptime))
  {
    assert cs[i..][0] == cs[i] && cs[i..][1..] == cs[i + 1..];
  }

  /** The top-level comments of a flattened list, in order. */
  function Tops(out: seq<Comment>): seq<Comment> {
    if out == [] then []
    else (if out[0].isReply then [] else [out[0]]) + Tops(out[1..])
  }

  /** Replies in the list, in all. */
  function TotalReplies(cs: seq<CommentData>): nat {
    if cs == [] then 0 else |Replies(cs[0])| + TotalReplies(cs[1..])
  }

  /** A comment can be built, and so can its replies when they are included. */
  predicate ThreadValid(c: CommentData, includeReplies: bool, strptime: Strptime) {
    TopValid(c, strptime) && (WithReplies(c, includeReplies) ==> RepliesValid(Replies(c), strptime))
  }

  /** The nearest top-level comment before position `j` is the parent that
      `out[j]` names, and only replies lie between them. */
  predicate ParentBefore(out: seq<Comment>, j: nat)
    requires j < |out|
  {
    exists k :: 0 <= k < j && !out[k].isReply && Some(out[k].commentId) == out[j].parentId
      && forall m :: k < m < j ==> out[m].isReply
  }

  /** Every reply has no replies of its own and directly follows its parent
      or a sibling. */
  predicate RepliesFollowParents(out: seq<Comment>) {
    forall j :: 0 <= j < |out| && out[j].isReply ==> out[j].replyCount == 0 && ParentBefore(out, j)
  }

  lemma {:induction false} TopsAppend(a: seq<Comment>, b: seq<Comment>)
    ensures Tops(a + b) == Tops(a) + Tops(b)
    decreases |a|
  {
    if a != [] {
      assert (a + b)[0] == a[0];
      assert (a + b)[1..] == a[1..] + b;
      TopsAppend(a[1..], b);
      var h := if a[0].isReply then [] else [a[0]];
      assert h + (Tops(a[1..]) + Tops(b)) == (h + Tops(a[1..])) + Tops(b);
    } else {
      assert a + b == b;
    }
  }

  lemma {:induction false} FollowAppend(a: seq<Comment>, b: seq<Comment>)
    requires RepliesFollowParents(a) && RepliesFollowParents(b)
    ensures RepliesFollowParents(a + b)
  {
    var ab := a + b;
    forall j | 0 <= j < |ab| && ab[j].isReply ensures ab[j].replyCount == 0 && ParentBefore(ab, j) {
      if j < |a| {
        assert ab[j] == a[j];
        var k :| 0 <= k < j && !a[k].isReply && Some(a[k].commentId) == a[j].parentId
          && forall m :: k < m < j ==> a[m].isReply;
        assert ab[k] == a[k];
        assert forall m :: k < m < j ==> ab[m] == a[m];
      } else {
        var jb := j - |a|;
        assert ab[j] == b[jb];
        var k :| 0 <= k < jb && !b[k].isReply && Some(b[k].commentId) == b[jb].parentId
          && forall m :: k < m < jb ==> b[m].isReply;
        assert ab[|a| + k] == b[k];
        assert forall m :: |a| + k < m < j ==> ab[m] == b[m - |a|];
      }
    }
  }

  /** One thread: its comment first, then exactly its replies, all naming it. */
  lemma ThreadShape(c: CommentData, includeReplies: bool, strptime: Strptime)
    requires Thread(c, includeReplies, strptime).Some?
    ensures var t := Thread(c, includeReplies, strptime).value;
      && |t| == 1 + (if includeReplies then |Replies(c)| else 0)
      && Tops(t) == [t[0]] && Some(t[0]) == TopComment(c, strptime)
      && RepliesFollowParents(t)
  {
    var top := TopComment(c, strptime).value;
    if WithReplies(c, includeReplies) {
      RepliesOfElements(Replies(c), top.commentId, strptime);
      var rs := RepliesOf(Replies(c), top.commentId, strptime).value;
      assert Thread(c, includeReplies, strptime).value == [top] + rs;
      ParentThenReplies(top, rs);
    } else {
      ParentThenReplies(top, []);
      assert [top] + [] == [top];
    }
  }

  /** A comment followed by replies that name it. */
  lemma ParentThenReplies(top: Comment, rs: seq<Comment>)
    requires !top.isReply
    requires forall i :: 0 <= i < |rs| ==> rs[i].isReply && rs[i].replyCount == 0 && rs[i].parentId == Some(top.commentId)
    ensures Tops([top] + rs) == [top]
    ensures RepliesFollowParents([top] + rs)
  {
    var t := [top] + rs;
    forall j | 0 <= j < |t| && t[j].isReply ensures t[j].replyCount == 0 && ParentBefore(t, j) {
      assert j > 0 && t[j] == rs[j - 1];
      assert forall m :: 0 < m < j ==> t[m] == rs[m - 1];
      assert t[0] == top;
    }
    TopsOfReplies(rs);
    assert t[0] == top && t[1..] == rs;
  }

  lemma {:induction false} TopsOfReplies(rs: seq<Comment>)
    requires forall j :: 0 <= j < |rs| ==> rs[j].isReply
    ensures Tops(rs) == []
  {
    if rs != [] {
      TopsOfReplies(rs[1..]);
    }
  }

  /** The comments list exists exactly when every comment and every included reply can be built. */
  lemma {:induction false} FlattenValid(cs: seq<CommentData>, includeReplies: bool, strptime: Strptime)
    ensures Flatten(cs, includeReplies, strptime).Some? <==>
      forall k :: 0 <= k < |cs| ==> ThreadValid(cs[k], includeReplies, strptime)
  {
    if cs != [] {
      var tail := cs[1..];
      FlattenValid(tail, includeReplies, strptime);
      ThreadValidIff(cs[0], includeReplies, strptime);
      assert Flatten(cs, includeReplies, strptime).Some? <==>
        Thread(cs[0], includeReplies, strptime).Some? && Flatten(tail, includeReplies, strptime).Some?;
      if forall k :: 0 <= k < |cs| ==> ThreadValid(cs[k], includeReplies, strptime) {
        forall k | 0 <= k < |tail| ensures ThreadValid(tail[k], includeReplies, strptime) {
          assert tail[k] == cs[k + 1];
        }
      } else {
        var k :| 0 <= k < |cs| && !ThreadValid(cs[k], includeReplies, strptime);
        if k > 0 {
          assert tail[k - 1] == cs[k];
        }
      }
    }
  }

  /** A thread exists exactly when its comment and its included replies can be built. */
  lemma ThreadValidIff(c: CommentData, includeReplies: bool, strptime: Strptime)
    ensures Thread(c, includeReplies, strptime).Some? <==> ThreadValid(c, includeReplies, strptime)
  {
  }

  /** The comments list, when it exists: its top-level comments are the
      given ones in order, every reply follows its own parent, and it holds
      one entry per comment plus one per reply when replies are included. */
  lemma {:induction false} FlattenShape(cs: seq<CommentData>, includeReplies: bool, strptime: Strptime)
    requires Flatten(cs, includeReplies, strptime).Some?
    ensures var out := Flatten(cs, includeReplies, strptime).value;
      && |Tops(out)| == |cs|
      && (forall k :: 0 <= k < |cs| ==> Some(Tops(out)[k]) == TopComment(cs[k], strptime))
      && RepliesFollowParents(out)
      && |out| == |cs| + (if includeReplies then TotalReplies(cs) else 0)
  {
    if cs != [] {
      var t := Thread(cs[0], includeReplies, strptime).value;
      var rest := Flatten(cs[1..], includeReplies, strptime).value;
      FlattenShape(cs[1..], includeReplies, strptime);
      ThreadShape(cs[0], includeReplies, strptime);
      TopsAppend(t, rest);
      FollowAppend(t, rest);
      var tops := Tops(t + rest);
      assert tops == [t[0]] + Tops(rest);
      forall k | 0 <= k < |cs| ensures Some(tops[k]) == TopComment(cs[k], strptime) {
        if k > 0 {
          assert tops[k] == Tops(rest)[k - 1];
          assert cs[k] == cs[1..][k - 1];
        }
      }
    }
  }

  // ---------------------------------------------------------------------
  // Channel videos
  // ---------------------------------------------------------------------

  const WatchPrefix: string := "https://www.youtube.com/watch?v="

  /** The upload date assumed when the full video info has none. */
  const DefaultUploadDate: string := "20000101"

  /** `info["entries"][:max_videos] if max_videos else info["entries"]`. */
  function VideoLimit<T>(entries: seq<T>, maxVideos: Option<int>): seq<T> {
    if maxVideos.Some? && maxVideos.value != 0 then Take(entries, maxVideos) else entries
  }

  /** The watch URL the full lookup of an entry asks for: an `id` holding
      `None` is formatted as the text `None`. */
  function WatchUrl(e: VideoEntry): string
    requires !e.id.Missing?
  {
    WatchPrefix + (if e.id.Value? then e.id.v else "None")
  }

  /** What the full info of a video needs for its record to be built: no
      stored `None` under a key read with a default into a field that
      refuses it (`view_count`, `duration`, `tags`, `thumbnail`,
      `channel_id`, `channel`, and `upload_date`, which `parse_date`
      refuses), and an upload date, "20000101" when absent, that parses. */
  predicate InfoValid(i: VideoInfo, strptime: Strptime) {
    && !i.viewCount.Null? && !i.duration.Null? && !i.tags.Null?
    && !i.thumbnail.Null? && !i.channelId.Null? && !i.channel.Null? && !i.uploadDate.Null?
    && ParseDate(if i.uploadDate.Value? then i.uploadDate.v else DefaultUploadDate, strptime).Some?
  }

  /** The record for one entry of the channel's list; None when the entry
      is skipped: its `id` or `title` is missing or `None`, the full lookup
      raised (or returned `None`), or the full info cannot be turned into a
      record. `deep` is `extract_info` on a watch URL. */
  function VideoFromEntry(e: VideoEntry, deep: string -> Option<VideoInfo>, strptime: Strptime): (v: Option<VideoMetadata>)
    ensures v.Some? <==> e.id.Value? && e.title.Value? && deep(WatchUrl(e)).Some? && InfoValid(deep(WatchUrl(e)).value, strptime)
    ensures v.Some? ==> (e.id == Value(v.value.videoId) && e.title == Value(v.value.title)
      && var i := deep(WatchUrl(e)).value;
      && v.value.description == Get(i.description, "") && v.value.likeCount == Lookup(i.likeCount)
      && v.value.viewCount == (if i.viewCount.Value? then i.viewCount.v else 0)
      && v.value.duration == (if i.duration.Value? then i.duration.v else 0))
  {
    if e.id.Missing? then None
    else
      var info := deep(WatchUrl(e));
      if info.None? || e.title.Missing? then None
      else
        var i := info.value;
        var date := Get(i.uploadDate, DefaultUploadDate);
        var uploaded := if date.None? then None else ParseDate(date.value, strptime);
        var views, duration, tags := Get(i.viewCount, 0), Get(i.duration, 0), Get(i.tags, []);
        var thumbnail, channelId, channel := Get(i.thumbnail, ""), Get(i.channelId, ""), Get(i.channel, "");
        if e.id.Null? || e.title.Null? || uploaded.None? || views.None? || duration.None? || tags.None?
          || thumbnail.None? || channelId.None? || channel.None? then None
        else Some(VideoMetadata(e.id.v, e.title.v, Get(i.description, ""), uploaded.value,
                                views.value, Lookup(i.likeCount), Lookup(i.commentCount), duration.value,
                                tags.value, thumbnail.value, channelId.value, channel.value))
  }

  /** The videos kept, in entry order, skipping the entries that fail. */
  function KeptVideos(entries: seq<VideoEntry>, deep: string -> Option<VideoInfo>, strptime: Strptime): (vs: seq<VideoMetadata>)
    ensures |vs| <= |entries|
  {
    if entries == [] then []
    else
      var v := VideoFromEntry(entries[0], deep, strptime);
      (if v.Some? then [v.value] else []) + KeptVideos(entries[1..], deep, strptime)
  }

  /** The videos from entry `i` on: that entry's video if it converts, then the rest. */
  lemma KeptVideosStep(entries: seq<VideoEntry>, deep: string -> Option<VideoInfo>, strptime: Strptime, i: nat)
    requires i < |entries|
    ensures var v := VideoFromEntry(entries[i], deep, strptime);
      KeptVideos(entries[i..], deep, strptime) == (if v.Some? then [v.value] else []) + KeptVideos(entries[i + 1..], deep, strptime)
  {
    assert entries[i..][0] == entries[i] && entries[i..][1..] == entries[i + 1..];
  }

  /** Keeping distributes over concatenation: the order of the entries is
      the order of the videos. */
  lemma {:induction false} KeptVideosAppend(a: seq<VideoEntry>, b: seq<VideoEntry>, deep: string -> Option<VideoInfo>, strptime: Strptime)
    ensures KeptVideos(a + b, deep, strptime) == KeptVideos(a, deep, strptime) + KeptVideos(b, deep, strptime)
    decreases |a|
  {
    if a != [] {
      assert (a + b)[0] == a[0];
      assert (a + b)[1..] == a[1..] + b;
      KeptVideosAppend(a[1..], b, deep, strptime);
      var v := VideoFromEntry(a[0], deep, strptime);
      var h := if v.Some? then [v.value] else [];
      assert h + (KeptVideos(a[1..], deep, strptime) + KeptVideos(b, deep, strptime))
        == (h + KeptVideos(a[1..], deep, strptime)) + KeptVideos(b, deep, strptime);
    } else {
      assert a + b == b;
    }
  }

  /** Every entry converts. */
  predicate AllConvert(entries: seq<VideoEntry>, deep: string -> Option<VideoInfo>, strptime: Strptime) {
    forall k :: 0 <= k < |entries| ==> VideoFromEntry(entries[k], deep, strptime).Some?
  }

  /** Nothing is lost but the failures: every entry is kept exactly when
      all of them convert. */
  lemma {:induction false} KeptVideosCount(entries: seq<VideoEntry>, deep: string -> Option<VideoInfo>, strptime: Strptime)
    ensures |KeptVideos(entries, deep, strptime)| == |entries| <==> AllConvert(entries, deep, strptime)
  {
    if entries != [] {
      var tail := entries[1..];
      KeptVideosCount(tail, deep, strptime);
      var v := VideoFromEntry(entries[0], deep, strptime);
      if AllConvert(entries, deep, strptime) {
        assert AllConvert(tail, deep, strptime) by {
          forall k | 0 <= k < |tail| ensures VideoFromEntry(tail[k], deep, strptime).Some? {
            assert tail[k] == entries[k + 1];
          }
        }
      } else if v.Some? {
        var k :| 0 <= k < |entries| && VideoFromEntry(entries[k], deep, strptime).None?;
        assert k > 0 && tail[k - 1] == entries[k];
      }
    }
  }

  /** When all entries convert, the k-th video is the k-th entry's. */
  lemma {:induction false} KeptVideosInOrder(entries: seq<VideoEntry>, deep: string -> Option<VideoInfo>, strptime: Strptime)
    requires AllConvert(entries, deep, strptime)
    ensures var vs := KeptVideos(entries, deep, strptime);
      |vs| == |entries| && forall k :: 0 <= k < |entries| ==> VideoFromEntry(entries[k], deep, strptime) == Some(vs[k])
  {
    if entries != [] {
      var tail := entries[1..];
      assert AllConvert(tail, deep, strptime) by {
        forall k | 0 <= k < |tail| ensures VideoFromEntry(tail[k], deep, strptime).Some? {
          assert tail[k] == entries[k + 1];
        }
      }
      KeptVideosInOrder(tail, deep, strptime);
      var v := VideoFromEntry(entries[0], deep, strptime);
      var rest := KeptVideos(tail, deep, strptime);
      var vs := KeptVideos(entries, deep, strptime);
      assert vs == [v.value] + rest;
      forall k | 0 <= k < |entries| ensures VideoFromEntry(entries[k], deep, strptime) == Some(vs[k]) {
        if k > 0 {
          assert vs[k] == rest[k - 1] && entries[k] == tail[k - 1];
        }
      }
    }
  }

  /** Every kept video comes from an entry that converts to it. */
  lemma {:induction false} KeptVideosFrom(entries: seq<VideoEntry>, deep: string -> Option<VideoInfo>, strptime: Strptime)
    ensures forall w :: w in KeptVideos(entries, deep, strptime) ==>
      exists k :: 0 <= k < |entries| && VideoFromEntry(entries[k], deep, strptime) == Some(w)
  {
    if entries != [] {
      var tail := entries[1..];
      KeptVideosFrom(tail, deep, strptime);
      var v := VideoFromEntry(entries[0], deep, strptime);
      var rest := KeptVideos(tail, deep, strptime);
      assert KeptVideos(entries, deep, strptime) == (if v.Some? then [v.value] else []) + rest;
      forall w | w in KeptVideos(entries, deep, strptime)
        ensures exists k :: 0 <= k < |entries| && VideoFromEntry(entries[k], deep, strptime) == Some(w)
      {
        if v.Some? && w == v.value {
          assert VideoFromEntry(entries[0], deep, strptime) == Some(w);
        } else {
          assert w in rest;
          var k :| 0 <= k < |tail| && VideoFromEntry(tail[k], deep, strptime) == Some(w);
          assert VideoFromEntry(entries[k + 1], deep, strptime) == Some(w);
        }
      }
    }
  }

  /** The video limit: no limit, None and 0 all mean every entry; a
      positive limit keeps the first ones; a negative one drops from the end. */
  lemma VideoLimitRule<T>(entries: seq<T>, maxVideos: Option<int>)
    ensures maxVideos.None? || maxVideos == Some(0) ==> VideoLimit(entries, maxVideos) == entries
    ensures maxVideos.Some? && maxVideos.value > 0 ==>
      VideoLimit(entries, maxVideos) == entries[..if maxVideos.value < |entries| then maxVideos.value else |entries|]
    ensures maxVideos.Some? && maxVideos.value < 0 ==>
      VideoLimit(entries, maxVideos) == entries[..if |entries| + maxVideos.value > 0 then |entries| + maxVideos.value else 0]
  {
  }

  /** A limit of 0 means "none" for comments but "all" for videos. */
  lemma ZeroLimitContrast(cs: seq<CommentData>, entries: seq<VideoEntry>, includeReplies: bool, strptime: Strptime)
    ensures Flatten(Take(cs, Some(0)), includeReplies, strptime) == Some([])
    ensures VideoLimit(entries, Some(0)) == entries
  {
    assert Take(cs, Some(0)) == [];
  }

  // ---------------------------------------------------------------------
  // Playlists
  // ---------------------------------------------------------------------

  const ChannelUrlPrefix: string := "https://www.youtube.com/channel/"
  const PlaylistsSuffix: string := "/playlists"

  /** The three playlist URLs, None where the third has no channel id. */
  function PlaylistCandidates(url: string): (cands: seq<Option<string>>)
    ensures |cands| == 3
  {
    var id := ExtractChannelId(url);
    [Some(url + PlaylistsSuffix),
     Some(RStrip(url, '/') + PlaylistsSuffix),
     if id.Some? then Some(ChannelUrlPrefix + id.value + PlaylistsSuffix) else None]
  }

  /** The first two candidates differ only when the URL ends with `/`:
      otherwise the same page is asked for twice. */
  lemma PlaylistCandidatesRepeat(url: string)
    ensures (url == [] || url[|url| - 1] != '/') ==> PlaylistCandidates(url)[0] == PlaylistCandidates(url)[1]
    ensures url != [] && url[|url| - 1] == '/' ==> PlaylistCandidates(url)[0] != PlaylistCandidates(url)[1]
    ensures PlaylistCandidates(url)[2].Some? <==> ExtractChannelId(url).Some?
  {
    if url != [] && url[|url| - 1] == '/' {
      var a := url + PlaylistsSuffix;
      var b := RStrip(url, '/') + PlaylistsSuffix;
      assert |b| < |a|;
    }
  }

  /** What a playlist entry needs for its record to be built: `id` and
      `title` present and not `None`, and no stored `None` under
      `video_count` or `channel_id` (their fields refuse it). */
  predicate PlaylistValid(e: PlaylistEntry) {
    e.id.Value? && e.title.Value? && !e.videoCount.Null? && !e.channelId.Null?
  }

  /** The record for one playlist entry; None when building it raises (the
      entry is skipped). `now` is `datetime.now()`. */
  function PlaylistFrom(e: PlaylistEntry, now: DateTime): (p: Option<PlaylistMetadata>)
    ensures p.Some? <==> PlaylistValid(e)
    ensures p.Some? ==> (e.id == Value(p.value.playlistId) && e.title == Value(p.value.title)
      && p.value.lastUpdated == now && p.value.description == Get(e.description, "")
      && p.value.videoCount == (if e.videoCount.Value? then e.videoCount.v else 0)
      && p.value.viewCount == Get(e.viewCount, 0))
  {
    if e.id.Missing? || e.title.Missing? then None
    else
      var videos, channelId := Get(e.videoCount, 0), Get(e.channelId, "");
      if e.id.Null? || e.title.Null? || videos.None? || channelId.None? then None
      else Some(PlaylistMetadata(e.id.v, e.title.v, Get(e.description, ""), videos.value,
                                 Get(e.viewCount, 0), now, channelId.value))
  }

  /** The playlists read from one page's entries, in order. */
  function PlaylistsOf(entries: seq<PlaylistEntry>, now: DateTime): (ps: seq<PlaylistMetadata>)
    ensures |ps| <= |entries|
  {
    if entries == [] then []
    else
      var p := PlaylistFrom(entries[0], now);
      (if p.Some? then [p.value] else []) + PlaylistsOf(entries[1..], now)
  }

  /** A page yields no playlist exactly when none of its entries can be
      built; every playlist it yields comes from one of its entries. */
  lemma {:induction false} PlaylistsOfRule(entries: seq<PlaylistEntry>, now: DateTime)
    ensures var ps := PlaylistsOf(entries, now);
      && (ps == [] <==> forall k :: 0 <= k < |entries| ==> !PlaylistValid(entries[k]))
      && (forall p :: p in ps ==> exists k :: 0 <= k < |entries| && PlaylistFrom(entries[k], now) == Some(p))
  {
    if entries != [] {
      PlaylistsOfRule(entries[1..], now);
      assert forall k :: 1 <= k < |entries| ==> entries[k] == entries[1..][k - 1];
      var ps := PlaylistsOf(entries, now);
      var head := PlaylistFrom(entries[0], now);
      forall p | p in ps ensures exists k :: 0 <= k < |entries| && PlaylistFrom(entries[k], now) == Some(p) {
        if head.Some? && p == head.value {
          assert PlaylistFrom(entries[0], now) == Some(p);
        } else {
          assert p in PlaylistsOf(entries[1..], now);
          var k :| 0 <= k < |entries[1..]| && PlaylistFrom(entries[1..][k], now) == Some(p);
          assert PlaylistFrom(entries[k + 1], now) == Some(p);
        }
      }
    }
  }

  /** The playlists from entry `j` on: that entry's playlist if it has one, then the rest. */
  lemma PlaylistsOfStep(entries: seq<PlaylistEntry>, now: DateTime, j: nat)
    requires j < |entries|
    ensures var p := PlaylistFrom(entries[j], now);
      PlaylistsOf(entries[j..], now) == (if p.Some? then [p.value] else []) + PlaylistsOf(entries[j + 1..], now)
  {
    assert entries[j..][0] == entries[j] && entries[j..][1..] == entries[j + 1..];
  }

  /** The playlists a candidate URL yields: none when it is absent, when
      `extract_info` raised or reported no entries. */
  function Yield(cand: Option<string>, listings: string -> Listing<PlaylistEntry>, now: DateTime): seq<PlaylistMetadata> {
    if cand.None? then []
    else
      var l := listings(cand.value);
      if l.Entries? then PlaylistsOf(l.items, now) else []
  }

  /** The candidate loop: the first candidate that yields any playlist
      gives the result; the ones before it yielded nothing. */
  function FirstProductive(cands: seq<Option<string>>, listings: string -> Listing<PlaylistEntry>, now: DateTime): seq<PlaylistMetadata> {
    if cands == [] then []
    else
      var ps := Yield(cands[0], listings, now);
      if ps != [] then ps else FirstProductive(cands[1..], listings, now)
  }

  /** The candidate loop from candidate `i` on. */
  lemma FirstProductiveStep(cands: seq<Option<string>>, listings: string -> Listing<PlaylistEntry>, now: DateTime, i: nat)
    requires i < |cands|
    ensures var ps := Yield(cands[i], listings, now);
      FirstProductive(cands[i..], listings, now) == if ps != [] then ps else FirstProductive(cands[i + 1..], listings, now)
  {
    assert cands[i..][0] == cands[i] && cands[i..][1..] == cands[i + 1..];
  }

  /** The result is empty exactly when no candidate yields anything, and
      otherwise is the yield of the first candidate that yields. */
  lemma {:induction false} FirstProductiveRule(cands: seq<Option<string>>, listings: string -> Listing<PlaylistEntry>, now: DateTime)
    ensures var r := FirstProductive(cands, listings, now);
      && (r == [] <==> forall k :: 0 <= k < |cands| ==> Yield(cands[k], listings, now) == [])
      && (r != [] ==> exists k :: (0 <= k < |cands| && r == Yield(cands[k], listings, now)
            && forall j :: 0 <= j < k ==> Yield(cands[j], listings, now) == []))
  {
    if cands != [] {
      FirstProductiveRule(cands[1..], listings, now);
      assert forall k :: 1 <= k < |cands| ==> cands[k] == cands[1..][k - 1];
      var r := FirstProductive(cands, listings, now);
      if Yield(cands[0], listings, now) == [] && r != [] {
        var k :| 0 <= k < |cands[1..]| && r == Yield(cands[1..][k], listings, now)
          && forall j :: 0 <= j < k ==> Yield(cands[1..][j], listings, now) == [];
        assert r == Yield(cands[k + 1], listings, now);
      }
    }
  }

  // ---------------------------------------------------------------------
  // Community posts
  // ---------------------------------------------------------------------

  /** The post for one element; None when a child is missing or the
      published time does not parse (the exception ends the whole call). */
  function PostFrom(e: PostElement, strptime: Strptime): (p: Option<CommunityPost>)
    ensures p.Some? <==> e.text.Some? && e.published.Some? && ParseDate(e.published.value, strptime).Some?
    ensures p.Some? ==> (p.value.postId == e.id.GetOr("") && p.value.text == e.text.value
      && p.value.likeCount.None? && p.value.replyCount.None?)
  {
    if e.text.None? || e.published.None? then None
    else
      var published := ParseDate(e.published.value, strptime);
      if published.None? then None
      else Some(CommunityPost(e.id.GetOr(""), e.text.value, published.value, None, None, None, None))
  }

  /** Every element converts. */
  predicate PostsConvert(es: seq<PostElement>, strptime: Strptime) {
    forall i :: 0 <= i < |es| ==> PostFrom(es[i], strptime).Some?
  }

  /** The posts of a page, one per element in order, or None when one fails. */
  function PostsFrom(es: seq<PostElement>, strptime: Strptime): (ps: Option<seq<CommunityPost>>)
    ensures ps.Some? <==> PostsConvert(es, strptime)
  {
    if es == [] then Some([])
    else
      var head := PostFrom(es[0], strptime);
      var tail := PostsFrom(es[1..], strptime);
      assert PostsConvert(es, strptime) <==> head.Some? && PostsConvert(es[1..], strptime) by {
        assert forall i :: 1 <= i < |es| ==> es[i] == es[1..][i - 1];
      }
      if head.None? || tail.None? then None else Some([head.value] + tail.value)
  }

  /** The posts from position `i` on: the post of element `i`, then the
      posts of the elements after it. */
  lemma PostsFromStep(es: seq<PostElement>, strptime: Strptime, i: nat)
    requires i < |es|
    ensures var p := PostFrom(es[i], strptime);
      PostsFrom(es[i..], strptime) == if p.None? then None else Then([p.value], PostsFrom(es[i + 1..], strptime))
  {
    assert es[i..][0] == es[i] && es[i..][1..] == es[i + 1..];
  }

  /** The posts, when there are any, are the elements' posts one for one. */
  lemma {:induction false} PostsFromElements(es: seq<PostElement>, strptime: Strptime)
    requires PostsFrom(es, strptime).Some?
    ensures var ps := PostsFrom(es, strptime).value;
      |ps| == |es| && forall i :: 0 <= i < |es| ==> PostFrom(es[i], strptime) == Some(ps[i])
  {
    if es != [] {
      PostsFromElements(es[1..], strptime);
      var ps := PostsFrom(es, strptime).value;
      var tail := PostsFrom(es[1..], strptime).value;
      forall i | 0 <= i < |es| ensures PostFrom(es[i], strptime) == Some(ps[i]) {
        if i > 0 {
          assert es[i] == es[1..][i - 1] && ps[i] == tail[i - 1];
        }
      }
    }
  }
}
