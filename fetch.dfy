/**
 * `make_request` (youtube_scraper/utils.py): a bounded retry loop of plain
 * GET requests with one fixed `User-Agent`. The server's answer to each
 * attempt is an input, indexed by the attempt number.
 */
module Fetch {

  import opened Wrappers
  import opened Text
  import Backoff

  /** What one attempt observes. */
  datatype HttpReply =
    | Unreachable   // `session.get` raised (connection error, timeout)
    | Replied(status: int, retryAfter: Option<string>, text: Option<string>)
      // `retryAfter`: the `Retry-After` header; `text`: None when `response.text()` raises

  /** One request as sent. */
  datatype Request = Request(url: string, proxy: Option<string>, headers: map<string, string>)

  /** How a call ends: `UserAgent()` raised before the loop, or the loop returned. */
  datatype TextResult = AgentRaised | Returned(body: Option<string>)

  /** The wait when `Retry-After` is absent: `headers.get("Retry-After", 60)`. */
  const DefaultRetryAfter: int := 60

  /** The attempt ends the call: a 200 whose body could be read. */
  predicate Delivers(reply: HttpReply) {
    reply.Replied? && reply.status == 200 && reply.text.Some?
  }

  /** The sleep that follows an attempt which did not end the call, if any:
      `int(Retry-After)` (default 60) after a 429; `2 ** attempt` after an
      exception, including the `ValueError` of a non-integer `Retry-After`;
      none after any other status. */
  function PauseAfter(reply: HttpReply, attempt: nat): Option<int>
  {
    match reply
    case Unreachable => Some(Backoff.Pow2(attempt))
    case Replied(status, retryAfter, text) =>
      if status == 200 then Some(Backoff.Pow2(attempt))   // only reached when `text()` raised
      else if status == 429 then
        if retryAfter.None? then Some(DefaultRetryAfter)
        else
          var parsed := ParseInt(retryAfter.value);
          if parsed.Some? then parsed else Some(Backoff.Pow2(attempt))
      else None
  }

  /** The outcome of the attempts numbered `attempt` up to `retries - 1`. */
  datatype Run = Run(body: Option<string>, requests: nat, waits: seq<int>)

  function Attempts(retries: int, attempt: nat, reply: nat -> HttpReply): (r: Run)
    ensures r.requests <= if retries > attempt then retries - attempt else 0
    ensures |r.waits| <= r.requests
    decreases retries - attempt
  {
    if attempt >= retries then Run(None, 0, [])
    else if Delivers(reply(attempt)) then Run(reply(attempt).text, 1, [])
    else
      var rest := Attempts(retries, attempt + 1, reply);
      Run(rest.body, rest.requests + 1, Paused(reply(attempt), attempt) + rest.waits)
  }

  /** The waits one failed attempt adds: its pause, if it has one. */
  function Paused(reply: HttpReply, attempt: nat): (w: seq<int>)
    ensures |w| <= 1
  {
    var pause := PauseAfter(reply, attempt);
    if pause.Some? then [pause.value] else []
  }

  /** One step of the loop, for the loop invariant of `MakeRequest`. */
  lemma AttemptsStep(retries: int, attempt: nat, reply: nat -> HttpReply)
    requires attempt < retries
    ensures Delivers(reply(attempt)) ==> Attempts(retries, attempt, reply) == Run(reply(attempt).text, 1, [])
    ensures !Delivers(reply(attempt)) ==>
      var next := Attempts(retries, attempt + 1, reply);
      Attempts(retries, attempt, reply) == Run(next.body, next.requests + 1, Paused(reply(attempt), attempt) + next.waits)
  {
  }

  /** The sleep after a 429 answer: the `Retry-After` seconds when the
      header is a decimal number, 60 when there is no header, and
      `2 ** attempt` when `int()` refuses it. */
  lemma RateLimitPause(retryAfter: Option<string>, text: Option<string>, attempt: nat)
    ensures retryAfter.None? ==> PauseAfter(Replied(429, retryAfter, text), attempt) == Some(DefaultRetryAfter)
    ensures retryAfter.Some? && ParseInt(retryAfter.value).None? ==>
      PauseAfter(Replied(429, retryAfter, text), attempt) == Some(Backoff.Pow2(attempt))
    ensures forall n: nat :: retryAfter == Some(Decimal(n)) ==> PauseAfter(Replied(429, retryAfter, text), attempt) == Some(n)
  {
    forall n: nat | retryAfter == Some(Decimal(n)) ensures ParseInt(retryAfter.value) == Some(n) {
      ParseIntDecimal(n);
    }
  }

  /** The same pause lifted to the loop: after a 429 answer that is not the
      last attempt, the waits of the rest of the loop follow that pause. */
  lemma RateLimitWaits(retries: int, attempt: nat, reply: nat -> HttpReply)
    requires attempt < retries && reply(attempt).Replied? && reply(attempt).status == 429
    ensures var after := reply(attempt).retryAfter;
      var waits := Attempts(retries, attempt, reply).waits;
      var later := Attempts(retries, attempt + 1, reply).waits;
      && (after.None? ==> waits == [DefaultRetryAfter] + later)
      && (after.Some? && ParseInt(after.value).None? ==> waits == [Backoff.Pow2(attempt)] + later)
      && (forall n: nat :: after == Some(Decimal(n)) ==> waits == [n] + later)
  {
    AttemptsStep(retries, attempt, reply);
    RateLimitPause(reply(attempt).retryAfter, reply(attempt).text, attempt);
  }

  /** `make_request(url, proxy, retries)`; `agent` is `UserAgent().random`,
      None when constructing `UserAgent()` raises. */
  method MakeRequest(url: string, proxy: Option<string>, retries: int, agent: Option<string>, reply: nat -> HttpReply)
    returns (result: TextResult, sent: seq<Request>, waits: seq<int>)
    ensures agent.None? ==> result == AgentRaised && sent == [] && waits == []
    ensures agent.Some? ==>
      var run := Attempts(retries, 0, reply);
      && result == Returned(run.body)
      && |sent| == run.requests
      && waits == run.waits
    ensures forall i :: 0 <= i < |sent| ==>
      sent[i] == Request(url, proxy, map["User-Agent" := agent.value])
  {
    sent, waits := [], [];
    if agent.None? {
      return AgentRaised, sent, waits;
    }
    var headers := map["User-Agent" := agent.value];
    ghost var run := Attempts(retries, 0, reply);
    var attempt: nat := 0;
    while attempt < retries
      invariant |sent| == attempt
      invariant forall i :: 0 <= i < |sent| ==> sent[i] == Request(url, proxy, headers)
      invariant run.body == Attempts(retries, attempt, reply).body
      invariant run.requests == attempt + Attempts(retries, attempt, reply).requests
      invariant run.waits == waits + Attempts(retries, attempt, reply).waits
      decreases retries - attempt
    {
      AttemptsStep(retries, attempt, reply);
      sent := sent + [Request(url, proxy, headers)];
      var r := reply(attempt);
      if Delivers(r) {
        return Returned(r.text), sent, waits;
      }
      ghost var next := Attempts(retries, attempt + 1, reply);
      assert waits + (Paused(r, attempt) + next.waits) == (waits + Paused(r, attempt)) + next.waits;
      waits := waits + Paused(r, attempt);
      attempt := attempt + 1;
    }
    result := Returned(None);
  }

  /** The call returns a body exactly when some attempt below `retries` gets a
      readable 200; it returns that first body, and it made one request per
      attempt up to and including that one. */
  lemma {:induction false} FirstDeliveryWins(retries: int, attempt: nat, reply: nat -> HttpReply)
    ensures var r := Attempts(retries, attempt, reply);
      && (r.body.Some? <==> exists k :: attempt <= k < retries && Delivers(reply(k)))
      && (r.body.Some? ==> exists k :: (attempt <= k < retries && Delivers(reply(k))
            && (forall j :: attempt <= j < k ==> !Delivers(reply(j)))
            && r.body == reply(k).text && r.requests == k - attempt + 1))
      && (r.body.None? ==> r.requests == if retries > attempt then retries - attempt else 0)
    decreases retries - attempt
  {
    if attempt < retries && !Delivers(reply(attempt)) {
      FirstDeliveryWins(retries, attempt + 1, reply);
      var r := Attempts(retries, attempt + 1, reply);
      if r.body.Some? {
        var k :| attempt + 1 <= k < retries && Delivers(reply(k))
          && (forall j :: attempt + 1 <= j < k ==> !Delivers(reply(j)))
          && r.body == reply(k).text && r.requests == k - (attempt + 1) + 1;
        assert forall j :: attempt <= j < k ==> !Delivers(reply(j));
      }
    }
  }

  /** A server that never answers makes `retries` attempts and sleeps
      1, 2, 4, ... seconds after them. */
  lemma {:induction false} UnreachableDoublesWaits(retries: int, attempt: nat, reply: nat -> HttpReply)
    requires forall k :: reply(k) == Unreachable
    ensures var r := Attempts(retries, attempt, reply);
      && r.body.None?
      && |r.waits| == r.requests
      && forall i :: 0 <= i < |r.waits| ==> r.waits[i] == Backoff.Pow2(attempt + i)
    decreases retries - attempt
  {
    if attempt < retries {
      UnreachableDoublesWaits(retries, attempt + 1, reply);
      var rest := Attempts(retries, attempt + 1, reply);
      var r := Attempts(retries, attempt, reply);
      assert r.waits == [Backoff.Pow2(attempt)] + rest.waits;
      forall i | 0 <= i < |r.waits| ensures r.waits[i] == Backoff.Pow2(attempt + i) {
        if i > 0 { assert r.waits[i] == rest.waits[i - 1]; }
      }
    }
  }

  /** Statuses other than 200 and 429 are retried straight away: every
      attempt is made and nothing is waited for. */
  lemma {:induction false} OtherStatusNoWait(retries: int, attempt: nat, reply: nat -> HttpReply)
    requires forall k :: reply(k).Replied? && reply(k).status != 200 && reply(k).status != 429
    ensures var r := Attempts(retries, attempt, reply);
      r.body.None? && r.waits == [] && r.requests == if retries > attempt then retries - attempt else 0
    decreases retries - attempt
  {
    if attempt < retries {
      OtherStatusNoWait(retries, attempt + 1, reply);
    }
  }
}
