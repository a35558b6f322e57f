/**
 * The proxy pool of `YouTubeScraper` (youtube_scraper/scraper.py): parsing
 * of the proxy lists, the refresh rule of `_get_proxy`, its random pick, and
 * `list.remove` on a blocked proxy. The class in scraper.dfy performs these
 * steps on its fields; this module states what they compute.
 */
module Proxies {

  import opened Wrappers
  import opened Text

  /** The three plain-text proxy lists `_get_proxy` reads, in order. */
  const ProxySources: seq<string> := [
    "https://raw.githubusercontent.com/TheSpeedX/PROXY-List/master/http.txt",
    "https://raw.githubusercontent.com/ShiftyTR/Proxy-List/master/http.txt",
    "https://raw.githubusercontent.com/monosans/proxy-list/main/proxies/http.txt"]

  /** Seconds after which the pool is refreshed even when not empty. */
  const ProxyRefreshInterval: real := 300.0

  const ProxyScheme: string := "http://"

  /** The answer of one proxy list. */
  datatype SourceReply =
    | SourceRaised                          // the GET or `response.text()` raised
    | SourceAnswered(status: int, text: string)

  /** One answer per entry of `ProxySources`, in the same order. */
  type SourceReplies = s: seq<SourceReply> | |s| == 3 witness [SourceRaised, SourceRaised, SourceRaised]

  /** `[f'http://{p.strip()}' for p in lines if p.strip()]`. */
  function ProxyLines(lines: seq<string>): (r: seq<string>)
    ensures |r| <= |lines|
  {
    if lines == [] then []
    else
      var t := Strip(lines[0]);
      (if t != "" then [ProxyScheme + t] else []) + ProxyLines(lines[1..])
  }

  /** The proxies one list contributes: one per non-blank line. */
  function ProxyEntries(text: string): seq<string> {
    ProxyLines(Split(text, '\n'))
  }

  /** The number of non-blank lines. */
  function CountNonBlank(lines: seq<string>): nat {
    if lines == [] then 0 else (if Strip(lines[0]) != "" then 1 else 0) + CountNonBlank(lines[1..])
  }

  /** `http://` followed by a non-empty, newline-free address without
      surrounding whitespace. */
  predicate ProxyShaped(e: string) {
    && |e| > |ProxyScheme| && e[..|ProxyScheme|] == ProxyScheme
    && '\n' !in e[|ProxyScheme|..]
    && !IsSpace(e[|ProxyScheme|]) && !IsSpace(e[|e| - 1])
  }

  lemma EntryShaped(line: string)
    requires '\n' !in line && Strip(line) != ""
    ensures ProxyShaped(ProxyScheme + Strip(line))
  {
    var t := Strip(line);
    var e := ProxyScheme + t;
    assert e[..|ProxyScheme|] == ProxyScheme;
    assert e[|ProxyScheme|..] == t;
    var off := |line| - |StripLeft(line)|;
    forall i | 0 <= i < |t| ensures t[i] != '\n' {
      assert t[i] == line[off + i];
    }
  }

  /** Every entry is shaped like a proxy address, one per non-blank line. */
  lemma {:induction false} ProxyLinesShape(lines: seq<string>)
    requires forall l :: l in lines ==> '\n' !in l
    ensures |ProxyLines(lines)| == CountNonBlank(lines)
    ensures forall e :: e in ProxyLines(lines) ==> ProxyShaped(e)
  {
    if lines != [] {
      ProxyLinesShape(lines[1..]);
      if Strip(lines[0]) != "" {
        EntryShaped(lines[0]);
      }
    }
  }

  /** The shape of `ProxyEntries` for any downloaded text. */
  lemma ProxyEntriesShape(text: string)
    ensures |ProxyEntries(text)| == CountNonBlank(Split(text, '\n'))
    ensures forall e :: e in ProxyEntries(text) ==> ProxyShaped(e)
  {
    SplitPartsFree(text, '\n');
    ProxyLinesShape(Split(text, '\n'));
  }

  /** What one source adds to the pool: its entries only when it answered 200. */
  function Harvested(reply: SourceReply): seq<string> {
    if reply.SourceAnswered? && reply.status == 200 then ProxyEntries(reply.text) else []
  }

  /** What the sources add, in source order (`extend` once per source). */
  function Harvest(replies: seq<SourceReply>): seq<string> {
    if replies == [] then [] else Harvest(replies[..|replies| - 1]) + Harvested(replies[|replies| - 1])
  }

  /** The sources up to `i + 1`: those up to `i`, then source `i`. */
  lemma HarvestStep(replies: seq<SourceReply>, i: nat)
    requires i < |replies|
    ensures Harvest(replies[..i + 1]) == Harvest(replies[..i]) + Harvested(replies[i])
  {
    assert replies[..i + 1][..i] == replies[..i];
  }

  /** Everything harvested is shaped like a proxy address. */
  lemma {:induction false} HarvestShaped(replies: seq<SourceReply>)
    ensures forall e :: e in Harvest(replies) ==> ProxyShaped(e)
  {
    if replies != [] {
      HarvestShaped(replies[..|replies| - 1]);
      var last := replies[|replies| - 1];
      if last.SourceAnswered? && last.status == 200 {
        ProxyEntriesShape(last.text);
      }
    }
  }

  /** The pool is refreshed when it is empty or strictly older than the interval. */
  predicate Stale(pool: seq<string>, lastRefresh: real, now: real) {
    pool == [] || now - lastRefresh > ProxyRefreshInterval
  }

  /** `random.choice(pool)` for the draw `pick`: any nat, reduced to an index. */
  function Choose(pool: seq<string>, pick: nat): (p: string)
    requires pool != []
    ensures p in pool
  {
    pool[pick % |pool|]
  }

  /** The state after `_get_proxy` and the proxy it returns. */
  datatype Picked = Picked(pool: seq<string>, lastRefresh: real, proxy: Option<string>)

  /** `_get_proxy()` at time `now`, with the sources' answers and the random draw. */
  function GetProxy(pool: seq<string>, lastRefresh: real, now: real, replies: SourceReplies, pick: nat): (r: Picked)
    ensures r.proxy.None? <==> r.pool == []
    ensures r.proxy.Some? ==> r.proxy.value in r.pool
    ensures |pool| <= |r.pool| && r.pool[..|pool|] == pool
  {
    var stale := Stale(pool, lastRefresh, now);
    var pool' := if stale then pool + Harvest(replies) else pool;
    var last' := if stale then now else lastRefresh;
    Picked(pool', last', if pool' == [] then None else Some(Choose(pool', pick)))
  }

  /** The refresh rule: only a stale pool is refreshed; a refresh appends what
      the sources sent (existing entries, duplicates included, stay) and stamps
      the time even when every source failed; a fresh pool is left alone. */
  lemma GetProxyRefreshRule(pool: seq<string>, lastRefresh: real, now: real, replies: SourceReplies, pick: nat)
    ensures var r := GetProxy(pool, lastRefresh, now, replies, pick);
      && (Stale(pool, lastRefresh, now) ==> r.pool == pool + Harvest(replies) && r.lastRefresh == now)
      && (!Stale(pool, lastRefresh, now) ==> r.pool == pool && r.lastRefresh == lastRefresh && r.proxy.Some?)
      && (Harvest(replies) == [] ==> r.pool == pool)
  {
  }

  /** `list.remove(p)`: the first occurrence of `p` removed. */
  function RemoveFirst(pool: seq<string>, p: string): (r: seq<string>)
  {
    if pool == [] then []
    else if pool[0] == p then pool[1..]
    else [pool[0]] + RemoveFirst(pool[1..], p)
  }

  /** Removing a member takes away exactly one occurrence and keeps the rest. */
  lemma {:induction false} RemoveFirstOneOccurrence(pool: seq<string>, p: string)
    requires p in pool
    ensures |RemoveFirst(pool, p)| == |pool| - 1
    ensures multiset(RemoveFirst(pool, p)) == multiset(pool) - multiset{p}
  {
    if pool[0] != p {
      RemoveFirstOneOccurrence(pool[1..], p);
      assert pool == [pool[0]] + pool[1..];
    } else {
      assert pool == [p] + pool[1..];
    }
  }

  /** `pool.index(p)`: the position of the first occurrence. */
  function IndexOf(pool: seq<string>, p: string): (i: nat)
    requires p in pool
    ensures i < |pool| && pool[i] == p && p !in pool[..i]
  {
    if pool[0] == p then 0
    else
      var j := IndexOf(pool[1..], p);
      assert pool[..j + 1] == [pool[0]] + pool[1..][..j];
      j + 1
  }

  /** `list.remove` takes out the first occurrence and keeps the order of
      everything else. */
  lemma {:induction false} RemoveFirstAtFirst(pool: seq<string>, p: string)
    requires p in pool
    ensures RemoveFirst(pool, p) == pool[..IndexOf(pool, p)] + pool[IndexOf(pool, p) + 1..]
  {
    if pool[0] != p {
      var tail := pool[1..];
      RemoveFirstAtFirst(tail, p);
      var j := IndexOf(tail, p);
      assert pool[..j + 1] == [pool[0]] + tail[..j];
      assert pool[j + 2..] == tail[j + 1..];
    }
  }

  /** Removing never adds an entry. */
  lemma {:induction false} RemoveFirstKeeps(pool: seq<string>, p: string)
    ensures forall x :: x in RemoveFirst(pool, p) ==> x in pool
  {
    if pool != [] && pool[0] != p {
      RemoveFirstKeeps(pool[1..], p);
    }
  }

  /** Because a refresh keeps duplicates and a block removes one occurrence
      only, a blocked proxy can still be picked afterwards. */
  lemma BlockedProxyCanComeBack()
    ensures var pool := RemoveFirst(["http://1.2.3.4:80", "http://1.2.3.4:80"], "http://1.2.3.4:80");
      pool == ["http://1.2.3.4:80"] && Choose(pool, 0) == "http://1.2.3.4:80"
  {
  }
}
