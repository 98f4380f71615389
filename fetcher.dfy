/**
 * `connect_to_endpoint` (twitter_network_search.py:155-179) over an injected
 * HTTP oracle.  The network is a queue of responses that the client hands out
 * one per request; the client also logs every call of `connect_to_endpoint`,
 * every HTTP request and every sleep, so the callers' contracts can say which
 * endpoints were asked for, in which order.
 */
module Fetcher {
  import opened Wrappers
  import opened Frames

  /** One element of a response's `errors` list. */
  datatype ApiError = ApiError(title: Option<string>, detail: Option<string>)

  /** The `meta` object of a response. */
  datatype Meta = Meta(nextToken: Option<string>, resultCount: Option<int>)

  /** The `includes` object of a response. */
  datatype Includes = Includes(users: Option<seq<Row>>)

  /** A parsed JSON response body; None stands for an absent key. */
  datatype Body = Body(data: Option<seq<Row>>, includes: Option<Includes>, meta: Option<Meta>, errors: Option<seq<ApiError>>)

  /**
   * An HTTP response.  `reset` is the `x-rate-limit-reset` header, already
   * turned into the seconds left until the reset (the wall-clock difference
   * the source computes); `remaining` is `x-rate-limit-remaining`.
   */
  datatype HttpResponse = HttpResponse(status: int, reset: Option<nat>, remaining: Option<int>, body: Body, text: string)

  const OkStatus := 200
  const TooManyRequests := 429
  /** Seconds slept beyond the rate-limit reset before the retry. */
  const RetryMargin := 10
  const ResetHeader := "x-rate-limit-reset"
  const RemainingHeader := "x-rate-limit-remaining"

  /**
   * The environment: responses not yet handed out, and the logs of
   * `connect_to_endpoint` calls, HTTP requests and sleeps (in seconds).
   */
  datatype World = World(pending: seq<HttpResponse>, calls: seq<string>, requests: seq<string>, sleeps: seq<nat>)

  datatype Fetched = Fetched(result: Result<Body, Error>, world: World)

  /** The outcome of an operation that talks to the API, and the world after it. */
  datatype Run<T> = Run(outcome: Result<T, Error>, world: World)

  predicate HasRateHeaders(r: HttpResponse) {
    r.reset.Some? && r.remaining.Some?
  }

  /** The first request is answered with 429, its headers can be read, and waiting is allowed. */
  predicate Retries(w: World, wait: bool) {
    |w.pending| > 0 && HasRateHeaders(w.pending[0]) && w.pending[0].status == TooManyRequests && wait
  }

  /** The response whose status decides the call: the retry's when there is one. */
  predicate Answered(w: World, wait: bool) {
    if Retries(w, wait) then |w.pending| > 1 else |w.pending| > 0 && HasRateHeaders(w.pending[0])
  }

  function FinalResponse(w: World, wait: bool): HttpResponse
    requires Answered(w, wait)
  {
    if Retries(w, wait) then w.pending[1] else w.pending[0]
  }

  /** `requests.request("GET", url)` on the oracle: the next response, if any. */
  function Request(w: World, url: string): (Option<HttpResponse>, World) {
    if |w.pending| == 0 then (None, World(w.pending, w.calls, w.requests + [url], w.sleeps))
    else (Some(w.pending[0]), World(w.pending[1..], w.calls, w.requests + [url], w.sleeps))
  }

  /** The status check at the end: anything but 200 raises. */
  function Accept(r: HttpResponse, w: World): Fetched {
    if r.status != OkStatus then Fetched(Failure(HttpError(r.status, r.text)), w)
    else Fetched(Success(r.body), w)
  }

  /**
   * `connect_to_endpoint(url, wait_on_timeout)`: at most two requests, the
   * second only after a 429 when waiting is allowed and after a sleep of the
   * reset delay plus ten seconds; it fails unless the final status is 200.
   */
  function Fetch(w: World, url: string, wait: bool): (f: Fetched)
    ensures f.world.calls == w.calls + [url]
    ensures f.world.requests == w.requests + (if Retries(w, wait) then [url, url] else [url])
    ensures f.world.sleeps == w.sleeps + (if Retries(w, wait) then [w.pending[0].reset.value + RetryMargin] else [])
    ensures f.world.pending == w.pending[if Retries(w, wait) && |w.pending| > 1 then 2 else if |w.pending| > 0 then 1 else 0..]
    ensures f.result.Success? <==> Answered(w, wait) && FinalResponse(w, wait).status == OkStatus
    ensures f.result.Success? ==> f.result.value == FinalResponse(w, wait).body
    ensures Answered(w, wait) && FinalResponse(w, wait).status != OkStatus ==>
      f.result == Failure(HttpError(FinalResponse(w, wait).status, FinalResponse(w, wait).text))
    ensures 0 < |w.pending| && w.pending[0].reset.None? ==> f.result == Failure(KeyError(ResetHeader))
    ensures |w.pending| == 0 ==> f.result == Failure(ConnectionError(url))
  {
    var (first, w1) := Request(World(w.pending, w.calls + [url], w.requests, w.sleeps), url);
    if first.None? then Fetched(Failure(ConnectionError(url)), w1)
    else if first.value.reset.None? then Fetched(Failure(KeyError(ResetHeader)), w1)
    else if first.value.remaining.None? then Fetched(Failure(KeyError(RemainingHeader)), w1)
    else if first.value.status == TooManyRequests && wait then
      var slept := World(w1.pending, w1.calls, w1.requests, w1.sleeps + [first.value.reset.value + RetryMargin]);
      var (second, w2) := Request(slept, url);
      if second.None? then Fetched(Failure(ConnectionError(url)), w2)
      else Accept(second.value, w2)
    else Accept(first.value, w1)
  }

  /** Without `wait_on_timeout` there is exactly one request and no sleep, whatever the status. */
  lemma NoRetryWithoutWait(w: World, url: string)
    ensures Fetch(w, url, false).world.requests == w.requests + [url]
    ensures Fetch(w, url, false).world.sleeps == w.sleeps
    ensures Fetch(w, url, false).result.Success? ==> w.pending[0].status == OkStatus
  {
  }

  /** A 429 is never accepted: after a retry the outcome is the second response's. */
  lemma RateLimitedFirstAnswer(w: World, url: string, wait: bool)
    requires |w.pending| > 0 && HasRateHeaders(w.pending[0]) && w.pending[0].status == TooManyRequests
    ensures !wait ==> Fetch(w, url, wait).result == Failure(HttpError(TooManyRequests, w.pending[0].text))
    ensures wait && |w.pending| > 1 ==> (Fetch(w, url, wait).result.Success? <==> w.pending[1].status == OkStatus)
    ensures wait ==> Fetch(w, url, wait).world.sleeps == w.sleeps + [w.pending[0].reset.value + RetryMargin]
  {
  }

  /** A successful call consumes at least one response, so loops of calls terminate. */
  lemma FetchConsumes(w: World, url: string, wait: bool)
    requires Fetch(w, url, wait).result.Success?
    ensures |Fetch(w, url, wait).world.pending| < |w.pending|
  {
  }

  // ------------------------------------------------------------ reading a body

  /** `json_response['data']`. */
  function Data(b: Body): (r: Result<seq<Row>, Error>)
    ensures r.Success? <==> b.data.Some?
    ensures r.Success? ==> r.value == b.data.value
    ensures r.Failure? ==> r.error == KeyError("data")
  {
    if b.data.None? then Failure(KeyError("data")) else Success(b.data.value)
  }

  /** `json_response['includes']['users']`. */
  function Users(b: Body): (r: Result<seq<Row>, Error>)
    ensures r.Success? <==> b.includes.Some? && b.includes.value.users.Some?
    ensures r.Success? ==> r.value == b.includes.value.users.value
    ensures b.includes.None? ==> r == Failure(KeyError("includes"))
  {
    match b.includes
    case None => Failure(KeyError("includes"))
    case Some(inc) => if inc.users.None? then Failure(KeyError("users")) else Success(inc.users.value)
  }

  /** `json_response['meta']['result_count']`. */
  function ResultCount(b: Body): (r: Result<int, Error>)
    ensures r.Success? <==> b.meta.Some? && b.meta.value.resultCount.Some?
    ensures r.Success? ==> r.value == b.meta.value.resultCount.value
    ensures b.meta.None? ==> r == Failure(KeyError("meta"))
  {
    match b.meta
    case None => Failure(KeyError("meta"))
    case Some(m) => if m.resultCount.None? then Failure(KeyError("result_count")) else Success(m.resultCount.value)
  }

  // ------------------------------------------------------------ the mutable client

  /** The HTTP client together with the logs of what it did. */
  class Client {
    var pending: seq<HttpResponse>
    var calls: seq<string>
    var requests: seq<string>
    var sleeps: seq<nat>

    constructor (responses: seq<HttpResponse>)
      ensures State() == World(responses, [], [], [])
    {
      pending := responses;
      calls := [];
      requests := [];
      sleeps := [];
    }

    function State(): World
      reads this
    {
      World(pending, calls, requests, sleeps)
    }

    /** One GET request. */
    method Get(url: string) returns (r: Option<HttpResponse>)
      modifies this
      ensures (r, State()) == Request(old(State()), url)
    {
      requests := requests + [url];
      if |pending| == 0 {
        return None;
      }
      r := Some(pending[0]);
      pending := pending[1..];
    }

    /** `time.sleep(seconds)`. */
    method Sleep(seconds: nat)
      modifies this
      ensures State() == old(State()).(sleeps := old(sleeps) + [seconds])
    {
      sleeps := sleeps + [seconds];
    }

    /** `connect_to_endpoint(url, wait_on_timeout)`. */
    method ConnectToEndpoint(url: string, wait: bool) returns (r: Result<Body, Error>)
      modifies this
      ensures Fetched(r, State()) == Fetch(old(State()), url, wait)
    {
      calls := calls + [url];
      var response := Get(url);
      if response.None? {
        return Failure(ConnectionError(url));
      }
      var first := response.value;
      if first.reset.None? {
        return Failure(KeyError(ResetHeader));
      }
      if first.remaining.None? {
        return Failure(KeyError(RemainingHeader));
      }
      var last := first;
      if first.status == TooManyRequests && wait {
        Sleep(first.reset.value + RetryMargin);
        response := Get(url);
        if response.None? {
          return Failure(ConnectionError(url));
        }
        last := response.value;
      }
      if last.status != OkStatus {
        return Failure(HttpError(last.status, last.text));
      }
      return Success(last.body);
    }
  }
}
