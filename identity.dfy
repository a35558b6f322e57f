/**
 * Client identities of `YouTubeScraper` (youtube_scraper/scraper.py): the
 * fixed browser-profile catalogue, the user-agent list chosen at
 * construction, and the header map of `_generate_headers`.
 */
module Identity {

  import opened Wrappers
  import opened Text
  import opened Proxies

  datatype Size = Size(width: nat, height: nat)

  datatype BrowserProfile = BrowserProfile(
    platform: string,
    browser: string,
    viewport: Size,
    screen: Size,
    colorDepth: nat,
    pixelRatio: nat)

  /** `self.browser_profiles`. */
  const BrowserProfiles: seq<BrowserProfile> := [
    BrowserProfile("Windows", "Chrome", Size(1920, 1080), Size(1920, 1080), 24, 1),
    BrowserProfile("MacOS", "Safari", Size(1440, 900), Size(2560, 1600), 30, 2),
    BrowserProfile("Windows", "Firefox", Size(1366, 768), Size(1366, 768), 24, 1)]

  /** `random.choice(self.browser_profiles)` for the draw `pick`. */
  function ChooseProfile(pick: nat): (p: BrowserProfile)
    ensures p in BrowserProfiles
  {
    BrowserProfiles[pick % |BrowserProfiles|]
  }

  /** The user agents used when `UserAgent()` could not be constructed. */
  const FallbackUserAgents: seq<string> := [
    "Mozilla/5.0 (Windows NT 10.0; Win64; x64) AppleWebKit/537.36 (KHTML, like Gecko) Chrome/91.0.4472.124 Safari/537.36",
    "Mozilla/5.0 (Macintosh; Intel Mac OS X 10_15_7) AppleWebKit/605.1.15 (KHTML, like Gecko) Version/14.1.1 Safari/605.1.15",
    "Mozilla/5.0 (Windows NT 10.0; Win64; x64; rv:89.0) Gecko/20100101 Firefox/89.0"]

  /** How many agents are drawn from the generator (`range(10)`). */
  const GeneratedAgentCount: nat := 10

  /** `user_agents or [ua.random for _ in range(10)] if self.ua else [fallback]`,
      which Python reads as `(user_agents or [...]) if self.ua else [fallback]`.
      `supplied` is the caller's `user_agents`; `generated` is None when
      `UserAgent()` raised and otherwise holds its ten random draws. */
  function UserAgentPool(supplied: Option<seq<string>>, generated: Option<seq<string>>): (agents: seq<string>)
    requires generated.Some? ==> |generated.value| == GeneratedAgentCount
    ensures agents != []
  {
    if generated.Some? then
      if supplied.Some? && supplied.value != [] then supplied.value else generated.value
    else FallbackUserAgents
  }

  /** The caller's agents are used only when the generator works; when it
      failed, the three fallback agents are used whatever the caller passed. */
  lemma UserAgentPrecedence(supplied: Option<seq<string>>, generated: Option<seq<string>>)
    requires generated.Some? ==> |generated.value| == GeneratedAgentCount
    ensures generated.None? ==> UserAgentPool(supplied, generated) == FallbackUserAgents
    ensures generated.Some? && supplied.Some? && supplied.value != [] ==>
      UserAgentPool(supplied, generated) == supplied.value
    ensures generated.Some? && (supplied.None? || supplied.value == []) ==>
      UserAgentPool(supplied, generated) == generated.value
  {
  }

  /** The lowest and highest `RTT` hint (`random.randint(50, 150)`). */
  const MinRtt: nat := 50
  const MaxRtt: nat := 150

  /** The headers `_generate_headers` sends whatever the draws. */
  const FixedHeaders: map<string, string> := map[
    "Accept" := "text/html,application/xhtml+xml,application/xml;q=0.9,image/webp,*/*;q=0.8",
    "Accept-Language" := "en-US,en;q=0.5",
    "Accept-Encoding" := "gzip, deflate, br",
    "DNT" := "1",
    "Connection" := "keep-alive",
    "Upgrade-Insecure-Requests" := "1",
    "Sec-Fetch-Dest" := "document",
    "Sec-Fetch-Mode" := "navigate",
    "Sec-Fetch-Site" := "none",
    "Sec-Fetch-User" := "?1",
    "Sec-CH-UA" := "\" Not A;Brand\";v=\"99\", \"Chromium\";v=\"96\"",
    "Sec-CH-UA-Mobile" := "?0",
    "Device-Memory" := "8",
    "ECT" := "4g"]

  /** `_generate_headers(profile)` once the random draws are made: the chosen
      user agent, the `RTT` draw, and `Downlink` already rendered as text. */
  function Headers(userAgent: string, profile: BrowserProfile, rtt: nat, downlink: string): map<string, string>
  {
    FixedHeaders + map[
      "User-Agent" := userAgent,
      "Sec-CH-UA-Platform" := "\"" + profile.platform + "\"",
      "Viewport-Width" := Decimal(profile.viewport.width),
      "DPR" := Decimal(profile.pixelRatio),
      "RTT" := Decimal(rtt),
      "Downlink" := downlink]
  }

  /** The header map carries the chosen user agent and the profile's platform
      in quotes, whatever the other draws. */
  lemma HeadersNames(userAgent: string, profile: BrowserProfile, rtt: nat, downlink: string)
    ensures Headers(userAgent, profile, rtt, downlink)["User-Agent"] == userAgent
    ensures Headers(userAgent, profile, rtt, downlink)["Sec-CH-UA-Platform"] == "\"" + profile.platform + "\""
  {
  }

  /** `_generate_headers(profile)` with its random draws, on the scraper's
      `user_agents`: the agent is one of them, the platform is the
      profile's, and the RTT reads back as a `randint(50, 150)` draw. */
  function GenerateHeaders(agents: seq<string>, profile: BrowserProfile, agentPick: nat, rtt: nat, downlink: string): (h: map<string, string>)
    requires agents != []
    requires MinRtt <= rtt <= MaxRtt
    ensures "User-Agent" in h && h["User-Agent"] in agents
    ensures "Sec-CH-UA-Platform" in h && h["Sec-CH-UA-Platform"] == "\"" + profile.platform + "\""
    ensures "RTT" in h && AllDigits(h["RTT"]) && MinRtt <= DecimalValue(h["RTT"]) <= MaxRtt
  {
    HeadersNames(Choose(agents, agentPick), profile, rtt, downlink);
    HeadersValues(Choose(agents, agentPick), profile, rtt, downlink);
    Headers(Choose(agents, agentPick), profile, rtt, downlink)
  }

  /** The values that vary read back to the profile's viewport width and pixel
      ratio and to an RTT between 50 and 150 written with two or three digits. */
  lemma HeadersValues(userAgent: string, profile: BrowserProfile, rtt: nat, downlink: string)
    requires MinRtt <= rtt <= MaxRtt
    ensures var h := Headers(userAgent, profile, rtt, downlink);
      && DecimalValue(h["RTT"]) == rtt && 2 <= |h["RTT"]| <= 3
      && DecimalValue(h["Viewport-Width"]) == profile.viewport.width
      && DecimalValue(h["DPR"]) == profile.pixelRatio
  {
    var h := Headers(userAgent, profile, rtt, downlink);
    assert h["RTT"] == Decimal(rtt);
    assert h["Viewport-Width"] == Decimal(profile.viewport.width);
    assert h["DPR"] == Decimal(profile.pixelRatio);
    DecimalRoundTrip(rtt);
    DecimalRoundTrip(profile.viewport.width);
    DecimalRoundTrip(profile.pixelRatio);
    RttDigits(rtt);
  }

  lemma RttDigits(rtt: nat)
    requires MinRtt <= rtt <= MaxRtt
    ensures 2 <= |Decimal(rtt)| <= 3
  {
    assert Decimal(rtt) == Decimal(rtt / 10) + [DigitChar(rtt % 10)];
    if rtt < 100 {
      assert |Decimal(rtt / 10)| == 1;
    } else {
      assert Decimal(rtt / 10) == Decimal(rtt / 100) + [DigitChar(rtt / 10 % 10)];
    }
  }
}
