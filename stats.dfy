/**
 * The run counters of `YouTubeScraper` (`ScrapingStats` in
 * youtube_scraper/models.py, updated by every `scrape_*` method of
 * youtube_scraper/scraper.py).
 */
module Stats {

  import opened Wrappers
  import opened Dates
  import opened Records

  /** The counters at construction, all zero; `start_time` is the clock's
      reading then. */
  function Initial(startTime: DateTime): (s: ScrapingStats)
    ensures Consistent(s)
    ensures s.successCount == 0 && s.errorCount == 0 && s.totalRequests == 0
  {
    ScrapingStats(startTime, None, 0, 0, 0, 0, 0, 0)
  }

  /** How one `scrape_*` call that got past its id check ends for the
      counters: a success, an error, or neither (an empty result the method
      does not count either way). */
  datatype Tally = Succeeded | Errored | Neither

  /** The counters after such a call: one more request, and at most one
      more success or error. */
  function Count(s: ScrapingStats, t: Tally): ScrapingStats {
    s.(totalRequests := s.totalRequests + 1,
       successCount := if t == Succeeded then s.successCount + 1 else s.successCount,
       errorCount := if t == Errored then s.errorCount + 1 else s.errorCount)
  }

  /** What holds of the counters at every point of a run: the ones the
      scraper never touches stay zero, and successes and errors together
      never exceed the requests. */
  predicate Consistent(s: ScrapingStats) {
    && 0 <= s.successCount && 0 <= s.errorCount
    && s.successCount + s.errorCount <= s.totalRequests
    && s.rateLimitsHit == 0 && s.totalItems == 0 && s.processedItems == 0
  }

  /** Counting a call keeps the counters consistent; it adds exactly one
      request and at most one outcome, and leaves the untouched counters and
      the timestamps as they were. */
  lemma CountKeepsConsistent(s: ScrapingStats, t: Tally)
    requires Consistent(s)
    ensures Consistent(Count(s, t))
    ensures var c := Count(s, t);
      && c.totalRequests == s.totalRequests + 1
      && (c.successCount - s.successCount) + (c.errorCount - s.errorCount) == (if t == Neither then 0 else 1)
      && c.rateLimitsHit == s.rateLimitsHit
      && c.startTime == s.startTime && c.endTime == s.endTime
  {
  }

  /** Calls that count neither outcome open a gap between requests and
      outcomes that nothing closes again. */
  lemma {:induction false} NeitherLeavesGap(s: ScrapingStats, tallies: seq<Tally>)
    requires Consistent(s)
    ensures var e := CountAll(s, tallies);
      && Consistent(e)
      && e.totalRequests - e.successCount - e.errorCount
         == s.totalRequests - s.successCount - s.errorCount + Neithers(tallies)
    decreases |tallies|
  {
    if tallies != [] {
      CountKeepsConsistent(s, tallies[0]);
      NeitherLeavesGap(Count(s, tallies[0]), tallies[1..]);
    }
  }

  /** The counters after a sequence of calls. */
  function CountAll(s: ScrapingStats, tallies: seq<Tally>): ScrapingStats
    decreases |tallies|
  {
    if tallies == [] then s else CountAll(Count(s, tallies[0]), tallies[1..])
  }

  function Neithers(tallies: seq<Tally>): nat {
    if tallies == [] then 0 else (if tallies[0] == Neither then 1 else 0) + Neithers(tallies[1..])
  }

  /** `get_stats()` at clock reading `now`: the end time is stamped. */
  function Stamped(s: ScrapingStats, now: DateTime): (r: ScrapingStats)
    ensures r.endTime == Some(now)
    ensures r.(endTime := s.endTime) == s
  {
    s.(endTime := Some(now))
  }
}
