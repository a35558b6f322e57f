/**
 * Identifier extraction from YouTube URLs (`extract_video_id`,
 * `extract_channel_id` in youtube_scraper/utils.py). Each pattern is a
 * `re.search`: the leftmost position where the pattern matches wins, and the
 * patterns are tried in a fixed order, the first that matches anywhere wins.
 */
module Urls {

  import opened Wrappers

  /** The character class `[0-9A-Za-z_-]`. */
  predicate IsIdChar(c: char) {
    ('0' <= c <= '9') || ('A' <= c <= 'Z') || ('a' <= c <= 'z') || c == '_' || c == '-'
  }

  predicate AllIdChars(s: string) {
    forall k :: 0 <= k < |s| ==> IsIdChar(s[k])
  }

  /** `marker` occurs in `s` at position `i`. */
  predicate StartsAt(s: string, i: nat, marker: string) {
    i + |marker| <= |s| && s[i..i + |marker|] == marker
  }

  /** `n` id characters start at position `i`. */
  predicate IdRun(s: string, i: nat, n: nat) {
    i + n <= |s| && forall k :: i <= k < i + n ==> IsIdChar(s[k])
  }

  // ---------------------------------------------------------------- videos

  /** Length of a video id: the `{11}` of every video pattern. */
  const VideoIdLength: nat := 11

  /** `(?:v=|\/)([0-9A-Za-z_-]{11}).*` matches at position `i`. */
  predicate VideoHit(s: string, i: nat) {
    || (StartsAt(s, i, "v=") && IdRun(s, i + 2, VideoIdLength))
    || (StartsAt(s, i, "/") && IdRun(s, i + 1, VideoIdLength))
  }

  /** Where the captured group of a `VideoHit` at `i` starts. */
  function VideoGroupStart(s: string, i: nat): nat
    requires VideoHit(s, i)
  {
    if StartsAt(s, i, "v=") && IdRun(s, i + 2, VideoIdLength) then i + 2 else i + 1
  }

  /** `(?:marker)([0-9A-Za-z_-]{11})` matches at position `i`. */
  predicate MarkerVideoHit(s: string, i: nat, marker: string) {
    StartsAt(s, i, marker) && IdRun(s, i + |marker|, VideoIdLength)
  }

  /** The leftmost position at or after `i` where the first video pattern matches. */
  function FirstVideoHit(s: string, i: nat): (r: Option<nat>)
    requires i <= |s|
    ensures r.Some? ==> i <= r.value < |s| && VideoHit(s, r.value)
    ensures r.Some? ==> forall j :: i <= j < r.value ==> !VideoHit(s, j)
    ensures r.None? ==> forall j :: i <= j <= |s| ==> !VideoHit(s, j)
    decreases |s| - i
  {
    if i == |s| then None
    else if VideoHit(s, i) then Some(i)
    else FirstVideoHit(s, i + 1)
  }

  /** The leftmost position at or after `i` where `(?:marker)([...]{11})` matches. */
  function FirstMarkerVideoHit(s: string, marker: string, i: nat): (r: Option<nat>)
    requires i <= |s|
    ensures r.Some? ==> i <= r.value < |s| && MarkerVideoHit(s, r.value, marker)
    ensures r.Some? ==> forall j :: i <= j < r.value ==> !MarkerVideoHit(s, j, marker)
    ensures r.None? ==> forall j :: i <= j <= |s| ==> !MarkerVideoHit(s, j, marker)
    decreases |s| - i
  {
    if i == |s| then None
    else if MarkerVideoHit(s, i, marker) then Some(i)
    else FirstMarkerVideoHit(s, marker, i + 1)
  }

  /** The group of the first video pattern, if it matches anywhere. */
  function SearchVideoPattern(url: string): Option<string> {
    match FirstVideoHit(url, 0)
    case None => None
    case Some(i) =>
      var g := VideoGroupStart(url, i);
      Some(url[g..g + VideoIdLength])
  }

  /** The group of `(?:marker)([0-9A-Za-z_-]{11})`, if it matches anywhere. */
  function SearchMarkerVideoPattern(url: string, marker: string): Option<string> {
    match FirstMarkerVideoHit(url, marker, 0)
    case None => None
    case Some(i) => Some(url[i + |marker|..i + |marker| + VideoIdLength])
  }

  /** `extract_video_id`: the three patterns in order, the first that matches wins. */
  function ExtractVideoId(url: string): (r: Option<string>)
    ensures r.Some? ==> |r.value| == VideoIdLength && AllIdChars(r.value)
  {
    var first := SearchVideoPattern(url);
    if first.Some? then first
    else
      var embed := SearchMarkerVideoPattern(url, "embed/");
      if embed.Some? then embed
      else SearchMarkerVideoPattern(url, "shorts/")
  }

  /** A video id is found exactly when some position holds `v=` or `/` followed
      by eleven id characters, and it is the eleven characters after the
      leftmost such position. */
  lemma ExtractVideoIdLeftmost(url: string)
    ensures ExtractVideoId(url).Some? <==> exists i :: 0 <= i < |url| && VideoHit(url, i)
    ensures ExtractVideoId(url).Some? ==>
      exists i :: 0 <= i < |url| && VideoHit(url, i)
        && (forall j :: 0 <= j < i ==> !VideoHit(url, j))
        && ExtractVideoId(url).value == url[VideoGroupStart(url, i)..VideoGroupStart(url, i) + VideoIdLength]
  {
    EmbedAndShortsNeverDecide(url);
    var h := FirstVideoHit(url, 0);
    if h.Some? {
      assert VideoHit(url, h.value);
    }
  }

  /** A match of `embed/` or `shorts/` plus eleven id characters is also a
      match of the first pattern (at its closing `/`), so the second and third
      patterns can never decide the result. */
  lemma EmbedAndShortsNeverDecide(url: string)
    ensures ExtractVideoId(url) == SearchVideoPattern(url)
  {
    var embed := FirstMarkerVideoHit(url, "embed/", 0);
    if embed.Some? {
      MarkerHitIsSlashHit(url, embed.value, "embed/");
    }
    var shorts := FirstMarkerVideoHit(url, "shorts/", 0);
    if shorts.Some? {
      MarkerHitIsSlashHit(url, shorts.value, "shorts/");
    }
  }

  /** A hit of a pattern whose marker ends in `/` is a hit of the first
      pattern at that `/`. */
  lemma MarkerHitIsSlashHit(url: string, i: nat, marker: string)
    requires |marker| > 0 && marker[|marker| - 1] == '/'
    requires MarkerVideoHit(url, i, marker)
    ensures VideoHit(url, i + |marker| - 1)
  {
    var slash := i + |marker| - 1;
    assert url[slash] == url[i..i + |marker|][|marker| - 1];
    assert url[slash..slash + 1] == "/";
  }

  // -------------------------------------------------------------- channels

  /** `extract_channel_id`'s patterns, in the order they are tried; each is
      the marker followed by `([0-9A-Za-z_-]+)`. */
  const ChannelMarkers: seq<string> := ["channel/", "c/", "user/", "@"]

  /** `(?:marker)([0-9A-Za-z_-]+)` matches at position `i`. */
  predicate ChannelHit(s: string, i: nat, marker: string) {
    StartsAt(s, i, marker) && i + |marker| < |s| && IsIdChar(s[i + |marker|])
  }

  /** The end of the maximal run of id characters starting at `j` (greedy `+`). */
  function IdRunEnd(s: string, j: nat): (e: nat)
    requires j <= |s|
    ensures j <= e <= |s|
    ensures forall k :: j <= k < e ==> IsIdChar(s[k])
    ensures e == |s| || !IsIdChar(s[e])
    decreases |s| - j
  {
    if j < |s| && IsIdChar(s[j]) then IdRunEnd(s, j + 1) else j
  }

  /** The leftmost position at or after `i` where the channel pattern for `marker` matches. */
  function FirstChannelHit(s: string, marker: string, i: nat): (r: Option<nat>)
    requires i <= |s|
    ensures r.Some? ==> i <= r.value < |s| && ChannelHit(s, r.value, marker)
    ensures r.Some? ==> forall j :: i <= j < r.value ==> !ChannelHit(s, j, marker)
    ensures r.None? ==> forall j :: i <= j <= |s| ==> !ChannelHit(s, j, marker)
    decreases |s| - i
  {
    if i == |s| then None
    else if ChannelHit(s, i, marker) then Some(i)
    else FirstChannelHit(s, marker, i + 1)
  }

  /** `re.search` with one channel pattern: the maximal id run after the leftmost hit. */
  function SearchChannelPattern(url: string, marker: string): (r: Option<string>)
    ensures r.Some? ==> r.value != [] && AllIdChars(r.value)
  {
    match FirstChannelHit(url, marker, 0)
    case None => None
    case Some(i) =>
      var start := i + |marker|;
      var id := url[start..IdRunEnd(url, start)];
      assert forall k :: 0 <= k < |id| ==> id[k] == url[start + k];
      Some(id)
  }

  /** The loop over the patterns: the first one that matches anywhere wins. */
  function FirstChannelPattern(url: string, markers: seq<string>): (r: Option<string>)
    ensures r.Some? ==> r.value != [] && AllIdChars(r.value)
  {
    if markers == [] then None
    else
      var hit := SearchChannelPattern(url, markers[0]);
      if hit.Some? then hit else FirstChannelPattern(url, markers[1..])
  }

  /** `extract_channel_id`. */
  function ExtractChannelId(url: string): (r: Option<string>)
    ensures r.Some? ==> r.value != [] && AllIdChars(r.value)
  {
    FirstChannelPattern(url, ChannelMarkers)
  }

  /** The result of `extract_channel_id`, when there is one, is the maximal
      non-empty id run after the leftmost hit of the first pattern (in the order
      `channel/`, `c/`, `user/`, `@`) that has any hit; every earlier pattern
      has none. With no result, no pattern has a hit. */
  lemma {:induction false} ChannelIdFirstPatternWins(url: string, markers: seq<string>)
    ensures var r := FirstChannelPattern(url, markers);
      && (r.None? <==> forall m, i :: m in markers && 0 <= i <= |url| ==> !ChannelHit(url, i, m))
      && (r.Some? ==> exists p :: (0 <= p < |markers|
            && (forall q, i :: 0 <= q < p && 0 <= i <= |url| ==> !ChannelHit(url, i, markers[q]))
            && SearchChannelPattern(url, markers[p]) == r))
  {
    if markers != [] {
      ChannelIdFirstPatternWins(url, markers[1..]);
      var hit := SearchChannelPattern(url, markers[0]);
      if hit.None? {
        var r := FirstChannelPattern(url, markers[1..]);
        if r.Some? {
          var p :| 0 <= p < |markers[1..]|
            && (forall q, i :: 0 <= q < p && 0 <= i <= |url| ==> !ChannelHit(url, i, markers[1..][q]))
            && SearchChannelPattern(url, markers[1..][p]) == r;
          assert forall q, i :: 0 <= q < p + 1 && 0 <= i <= |url| ==> !ChannelHit(url, i, markers[q]) by {
            forall q, i | 0 <= q < p + 1 && 0 <= i <= |url| ensures !ChannelHit(url, i, markers[q]) {
              if q > 0 { assert markers[q] == markers[1..][q - 1]; }
            }
          }
        }
      } else {
        var i := FirstChannelHit(url, markers[0], 0).value;
        assert ChannelHit(url, i, markers[0]);
      }
    }
  }

  /** The pattern order decides, not the position in the URL: an `@` handle
      that comes first loses to a later `c/` path segment. */
  lemma ChannelPatternOrderBeatsPosition()
    ensures ExtractChannelId("@ab/c/xy") == Some("xy")
  {
    var url := "@ab/c/xy";
    var ms := ChannelMarkers;
    assert ms[0] == "channel/" && ms[1..][0] == "c/";
    assert SearchChannelPattern(url, "channel/").None? by {
      assert forall j | 0 <= j <= |url| :: !ChannelHit(url, j, "channel/");
    }
    assert FirstChannelPattern(url, ms) == FirstChannelPattern(url, ms[1..]);
    assert ChannelHit(url, 4, "c/") by {
      assert url[4..6] == "c/";
    }
    assert !ChannelHit(url, 0, "c/") && !ChannelHit(url, 1, "c/");
    assert !ChannelHit(url, 2, "c/") && !ChannelHit(url, 3, "c/");
    assert FirstChannelHit(url, "c/", 3) == Some(4);
    assert FirstChannelHit(url, "c/", 1) == FirstChannelHit(url, "c/", 3);
    assert FirstChannelHit(url, "c/", 0) == Some(4);
    assert IdRunEnd(url, 6) == 8;
    assert url[6..8] == "xy";
    assert SearchChannelPattern(url, "c/") == Some("xy");
  }

}
