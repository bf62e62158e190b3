/**
 * The `/prices` request handler (backend/app.py:27-64) as a pure state
 * machine. The state is the one-slot cache; a step takes the current time
 * and what the upstream call would produce, and yields the next cache, the
 * HTTP response, and the upstream request made (if any).
 */
module PriceService {
  import opened Wrappers
  import Config
  import Rates
  import opened Upstream

  /** The JSON document served on success: `{"success": true, "rates": {...}}`. */
  datatype PriceData = PriceData(success: bool, rates: map<string, Option<real>>)

  /** The cache slot: empty at start-up, else the last served data and when it was fetched. */
  datatype Cache = Empty | Entry(data: PriceData, timestamp: real)

  /** Response bodies: the price document, or an error object. */
  datatype Body =
    | Prices(data: PriceData)               // the price document
    | Error(error: string)                  // {"error": ...}
    | NotJson(error: string, text: string)  // {"error": ..., "body": ...}

  datatype Response = Response(status: int, body: Body)

  /** One handled request: next cache, response, and the upstream URL fetched, if any. */
  datatype Step = Step(cache: Cache, response: Response, request: Option<string>)

  const OK: int := 200
  const SERVER_ERROR: int := 500

  const NOT_JSON_MESSAGE: string := "API did not return JSON"
  const UNKNOWN_ERROR: string := "Unknown error"
  /** What Python prints for the KeyError raised when the payload has no "rates". */
  const MISSING_RATES_MESSAGE: string := "'rates'"

  /** The cache holds data fetched strictly less than CACHE_TIMEOUT seconds before `now`. */
  predicate IsFresh(cache: Cache, now: real) {
    cache.Entry? && now - cache.timestamp < Config.CACHE_TIMEOUT as real
  }

  /** Data the handler would cache: marked successful, and the inversion of some upstream quote. */
  ghost predicate Cacheable(data: PriceData) {
    data.success && exists quotes :: data.rates == Rates.InvertRates(quotes)
  }

  /** The cache only ever holds cacheable data. */
  ghost predicate CacheInvariant(cache: Cache) {
    cache.Entry? ==> Cacheable(cache.data)
  }

  /**
   * The fetch path (the `try` block): the price document to cache and serve,
   * or the error body of the 500 response.
   */
  function Fetch(upstream: Outcome): (r: Result<PriceData, Body>)
    ensures r.Ok? <==>
              && upstream.Received? && IsJson(upstream.contentType)
              && upstream.json.Parsed?
              && upstream.json.payload.success == Some(true)
              && upstream.json.payload.rates.Some?
    ensures r.Ok? ==> r.value == PriceData(true, Rates.InvertRates(upstream.json.payload.rates.value))
    ensures r.Ok? ==> Cacheable(r.value)
    ensures upstream.NetworkFailure? ==> r == Err(Error(upstream.message))
    ensures upstream.Received? && !IsJson(upstream.contentType) ==>
              r == Err(NotJson(NOT_JSON_MESSAGE, upstream.text))
    ensures upstream.Received? && IsJson(upstream.contentType) && upstream.json.Malformed? ==>
              r == Err(Error(upstream.json.message))
  {
    match upstream
    case NetworkFailure(message) => Err(Error(message))
    case Received(contentType, text, json) =>
      if !IsJson(contentType) then Err(NotJson(NOT_JSON_MESSAGE, text))
      else match json
        case Malformed(message) => Err(Error(message))
        case Parsed(payload) =>
          if payload.success != Some(true) then Err(Error(payload.error.GetOr(UNKNOWN_ERROR)))
          else match payload.rates
            case None => Err(Error(MISSING_RATES_MESSAGE))
            case Some(quotes) => Ok(PriceData(true, Rates.InvertRates(quotes)))
  }

  /**
   * `GET /prices` at time `now`, with `upstream` standing for what the
   * upstream call would return if it were made.
   */
  function GetPrices(apiKey: string, cache: Cache, now: real, upstream: Outcome): (s: Step)
    ensures IsFresh(cache, now) ==> s == Step(cache, Response(OK, Prices(cache.data)), None)
    ensures !IsFresh(cache, now) ==> s.request == Some(Config.RequestUrl(apiKey))
    ensures !IsFresh(cache, now) ==>
              s.response == match Fetch(upstream)
                            case Ok(data) => Response(OK, Prices(data))
                            case Err(body) => Response(SERVER_ERROR, body)
    ensures s.response.status == OK || s.response.status == SERVER_ERROR
    ensures s.response.status == OK <==> s.response.body.Prices?
    ensures s.response.status == SERVER_ERROR ==> s.cache == cache
    ensures s.cache != cache ==> s.cache == Entry(s.response.body.data, now)
    ensures CacheInvariant(cache) ==> CacheInvariant(s.cache)
  {
    if IsFresh(cache, now) then
      Step(cache, Response(OK, Prices(cache.data)), None)
    else
      var request := Some(Config.RequestUrl(apiKey));
      match Fetch(upstream)
      case Ok(data) => Step(Entry(data, now), Response(OK, Prices(data)), request)
      case Err(body) => Step(cache, Response(SERVER_ERROR, body), request)
  }

  /** A cache hit makes no upstream call: the step is the same whatever upstream would say. */
  lemma CacheHitIgnoresUpstream(apiKey: string, cache: Cache, now: real, a: Outcome, b: Outcome)
    requires IsFresh(cache, now)
    ensures GetPrices(apiKey, cache, now, a) == GetPrices(apiKey, cache, now, b)
    ensures GetPrices(apiKey, cache, now, a).request.None?
  {
  }

  /**
   * The handler goes upstream exactly when the cache is empty or at least
   * CACHE_TIMEOUT old; in particular at exactly CACHE_TIMEOUT.
   */
  lemma FetchIffExpired(apiKey: string, cache: Cache, now: real, upstream: Outcome)
    ensures GetPrices(apiKey, cache, now, upstream).request.Some? <==>
              (cache.Empty? || now - cache.timestamp >= Config.CACHE_TIMEOUT as real)
    ensures cache.Entry? && now - cache.timestamp == Config.CACHE_TIMEOUT as real ==>
              GetPrices(apiKey, cache, now, upstream).request.Some?
  {
  }

  /** A non-JSON reply is answered 500 with the whole body, and the cache stays as it was. */
  lemma NotJsonKeepsCache(apiKey: string, cache: Cache, now: real, upstream: Outcome)
    requires !IsFresh(cache, now)
    requires upstream.Received? && !IsJson(upstream.contentType)
    ensures GetPrices(apiKey, cache, now, upstream).cache == cache
    ensures GetPrices(apiKey, cache, now, upstream).response
         == Response(SERVER_ERROR, NotJson(NOT_JSON_MESSAGE, upstream.text))
  {
  }

  /**
   * A payload whose "success" is false or missing is answered 500 with its
   * "error" field (or "Unknown error"), and the cache stays as it was.
   */
  lemma BusinessFailureKeepsCache(apiKey: string, cache: Cache, now: real, upstream: Outcome)
    requires !IsFresh(cache, now)
    requires upstream.Received? && IsJson(upstream.contentType) && upstream.json.Parsed?
    requires upstream.json.payload.success != Some(true)
    ensures GetPrices(apiKey, cache, now, upstream).cache == cache
    ensures GetPrices(apiKey, cache, now, upstream).response
         == Response(SERVER_ERROR, Error(upstream.json.payload.error.GetOr(UNKNOWN_ERROR)))
  {
  }

  /**
   * A failing request is answered 500 with its message, on a cold start and
   * equally when a stale entry is cached: stale data is never served.
   */
  lemma NetworkFailureServesNoStaleData(apiKey: string, cache: Cache, now: real, message: string)
    requires !IsFresh(cache, now)
    ensures GetPrices(apiKey, cache, now, NetworkFailure(message))
         == Step(cache, Response(SERVER_ERROR, Error(message)), Some(Config.RequestUrl(apiKey)))
  {
  }

  /** A JSON reply that does not decode is answered 500 with the decoder's message; the cache stays. */
  lemma MalformedJsonKeepsCache(apiKey: string, cache: Cache, now: real, upstream: Outcome)
    requires !IsFresh(cache, now)
    requires upstream.Received? && IsJson(upstream.contentType) && upstream.json.Malformed?
    ensures GetPrices(apiKey, cache, now, upstream)
         == Step(cache, Response(SERVER_ERROR, Error(upstream.json.message)), Some(Config.RequestUrl(apiKey)))
  {
  }

  /** A successful payload without "rates" raises a KeyError, answered 500; the cache stays. */
  lemma MissingRatesKeepsCache(apiKey: string, cache: Cache, now: real, upstream: Outcome)
    requires !IsFresh(cache, now)
    requires upstream.Received? && IsJson(upstream.contentType) && upstream.json.Parsed?
    requires upstream.json.payload.success == Some(true) && upstream.json.payload.rates.None?
    ensures GetPrices(apiKey, cache, now, upstream).cache == cache
    ensures GetPrices(apiKey, cache, now, upstream).response
         == Response(SERVER_ERROR, Error(MISSING_RATES_MESSAGE))
  {
  }

  /**
   * A successful fetch overwrites the whole cache with the converted rates
   * stamped `now`, and the response is exactly the new cache content.
   */
  lemma SuccessfulFetchOverwritesCache(apiKey: string, cache: Cache, now: real, upstream: Outcome)
    requires !IsFresh(cache, now)
    requires upstream.Received? && IsJson(upstream.contentType) && upstream.json.Parsed?
    requires upstream.json.payload.success == Some(true) && upstream.json.payload.rates.Some?
    ensures GetPrices(apiKey, cache, now, upstream).cache
         == Entry(PriceData(true, Rates.InvertRates(upstream.json.payload.rates.value)), now)
    ensures GetPrices(apiKey, cache, now, upstream).response
         == Response(OK, Prices(GetPrices(apiKey, cache, now, upstream).cache.data))
  {
  }

  /** After a successful fetch at `t1`, a request less than CACHE_TIMEOUT later is served from the cache. */
  lemma SuccessThenHit(apiKey: string, cache: Cache, t1: real, first: Outcome, t2: real, second: Outcome)
    requires !IsFresh(cache, t1) && Fetch(first).Ok?
    requires t2 - t1 < Config.CACHE_TIMEOUT as real
    ensures GetPrices(apiKey, GetPrices(apiKey, cache, t1, first).cache, t2, second)
         == Step(Entry(Fetch(first).value, t1), Response(OK, Prices(Fetch(first).value)), None)
  {
  }

  /** A failed fetch is not remembered: a later request fetches again. */
  lemma FailureThenRefetch(apiKey: string, cache: Cache, t1: real, first: Outcome, t2: real, second: Outcome)
    requires !IsFresh(cache, t1) && Fetch(first).Err?
    requires t1 <= t2
    ensures GetPrices(apiKey, cache, t1, first).cache == cache
    ensures GetPrices(apiKey, cache, t2, second).request.Some?
  {
  }

  /** One incoming request: its arrival time and what upstream would answer. */
  datatype Request = Request(now: real, upstream: Outcome)

  /** The result of serving a run of requests. */
  datatype Trace = Trace(cache: Cache, responses: seq<Response>, calls: nat)

  /** Serves `requests` in order, starting from `cache`, counting upstream calls. */
  function Serve(apiKey: string, cache: Cache, requests: seq<Request>): (t: Trace)
    ensures |t.responses| == |requests|
    ensures t.calls <= |requests|
    ensures CacheInvariant(cache) ==> CacheInvariant(t.cache)
    decreases |requests|
  {
    if |requests| == 0 then Trace(cache, [], 0)
    else
      var s := GetPrices(apiKey, cache, requests[0].now, requests[0].upstream);
      var rest := Serve(apiKey, s.cache, requests[1..]);
      Trace(rest.cache, [s.response] + rest.responses,
            rest.calls + (if s.request.Some? then 1 else 0))
  }

  /**
   * While every request arrives less than CACHE_TIMEOUT after the cached
   * fetch, no upstream call is made and every response is the cached data.
   */
  lemma {:induction false} ServeWithinWindow(apiKey: string, cache: Cache, requests: seq<Request>)
    requires cache.Entry?
    requires forall i :: 0 <= i < |requests| ==>
               requests[i].now - cache.timestamp < Config.CACHE_TIMEOUT as real
    ensures Serve(apiKey, cache, requests).calls == 0
    ensures Serve(apiKey, cache, requests).cache == cache
    ensures forall i :: 0 <= i < |requests| ==>
              Serve(apiKey, cache, requests).responses[i] == Response(OK, Prices(cache.data))
    decreases |requests|
  {
    if |requests| > 0 {
      var rest := requests[1..];
      ServeWithinWindow(apiKey, cache, rest);
      var t := Serve(apiKey, cache, requests);
      assert t.responses == [Response(OK, Prices(cache.data))] + Serve(apiKey, cache, rest).responses;
    }
  }

  /**
   * A missed first request whose fetch succeeds is the only upstream call of
   * a run that stays within CACHE_TIMEOUT of it, and every response of the
   * run serves the data that call fetched.
   */
  lemma OneCallPerWindow(apiKey: string, cache: Cache, requests: seq<Request>)
    requires |requests| >= 1
    requires !IsFresh(cache, requests[0].now) && Fetch(requests[0].upstream).Ok?
    requires forall i :: 0 <= i < |requests| ==>
               requests[i].now - requests[0].now < Config.CACHE_TIMEOUT as real
    ensures Serve(apiKey, cache, requests).calls == 1
    ensures forall i :: 0 <= i < |requests| ==>
              Serve(apiKey, cache, requests).responses[i] ==
                Response(OK, Prices(Fetch(requests[0].upstream).value))
  {
    var s := GetPrices(apiKey, cache, requests[0].now, requests[0].upstream);
    var rest := requests[1..];
    assert forall i :: 0 <= i < |rest| ==> rest[i] == requests[i + 1];
    ServeWithinWindow(apiKey, s.cache, rest);
    var t := Serve(apiKey, cache, requests);
    assert t.responses == [s.response] + Serve(apiKey, s.cache, rest).responses;
  }
}
