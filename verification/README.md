# Metal price proxy: the `/prices` handler as a state machine

The backend of Stack-Tracker is a small Flask service. It fetches spot prices
for gold, silver, platinum and palladium (`XAU`, `XAG`, `XPT`, `XPD`) from an
upstream pricing API. It turns the quoted rates ("ounces of metal per US
dollar") into "US dollars per ounce" and serves them on `GET /prices`. A
one-slot cache keeps each result for eight hours.

This project models the handler `get_prices` (backend/app.py) as a pure
function from `(cache, now, upstream outcome)` to `(cache', response,
upstream request made)`. The modules are:

- `Config` (config.dfy): the constants `CACHE_TIMEOUT`, `METALS` and `BASE`, the
  start-up `API_KEY` check, and the upstream request URL.
- `Upstream` (upstream.dfy): an abstract datatype for what one upstream call
  yields (a raised network error, or a reply with a Content-Type header, a
  raw body and the decoded JSON fields), plus the Content-Type test.
- `Rates` (rates.dfy): the rate inversion. It is given both as a pure map
  function and as the handler's loop, and the two are proved equal.
- `PriceService` (prices.dfy): the cache, the responses, the handler step,
  and runs of several requests.
- `Text` (text.dfy): Python's substring test and `','.join`. Each comes with
  an independent partner: a declarative "occurs at some position" and a
  splitter that undoes the join.
- `Wrappers` (wrappers.dfy): `Option` and `Result`.

Rates and times are `real`, so `1 / rate` is exact. Division by zero cannot
occur, because Dafny checks every `1.0 / rate` against its guard.

The handler is not hardened:

- On a network failure the code does not serve stale data. Every failure is
  answered 500 even when a stale entry is cached (backend/app.py:63-64).
- A non-JSON body is echoed in full, not truncated (backend/app.py:41).
- The upstream request has no timeout (backend/app.py:37).

The freshness test is the strict `now - timestamp < 28800`, so an entry
exactly eight hours old is refetched.

## Model

| member | source | states |
|---|---|---|
| Config.LoadApiKey | backend/app.py:15-17 | the service starts only when `API_KEY` is set and non-empty; otherwise it fails with "API_KEY environment variable not set" |
| Config.RequestUrl | backend/app.py:34 | the request URL starts with the endpoint, the API key and `base=USD`; its `currencies` value splits on commas back into exactly XAU, XAG, XPT, XPD in that order |
| Config.CurrenciesRoundTrip | backend/app.py:20 | the comma-join of the metal list is "XAU,XAG,XPT,XPD" and splits back into the list |
| Text.ContainsIffOccurs | backend/app.py:40 | a left-to-right scan that gives the same answer as Python's `in` on strings is true exactly when the needle occurs at some position |
| Text.SplitJoin | backend/app.py:34 | joining parts that do not contain the separator, then splitting, gives back the parts |
| Upstream.IsJson | backend/app.py:40 | a reply counts as JSON exactly when its Content-Type header (empty when absent) contains "application/json"; a missing header never does |
| Upstream.JsonWithCharset | backend/app.py:40 | "application/json; charset=utf-8" is accepted and "text/html" is rejected |
| Rates.Invert | backend/app.py:51-54 | a rate gets a price exactly when it is nonzero, and price times rate is 1 |
| Rates.MetalOfUsdKey | backend/app.py:52 | the metal code is recovered from its `USD`-prefixed output key |
| Rates.UsdKeyInjective | backend/app.py:52 | two metals never share an output key |
| Rates.InvertRates | backend/app.py:49-54 | the output keys are exactly `"USD" + m` for the quoted metals `m`, each holding that metal's inverted rate |
| Rates.InvertRatesReciprocal | backend/app.py:51-54 | every nonzero rate's price times the rate is 1; a zero rate's price is absent |
| Rates.InvertRatesKeysBack | backend/app.py:49-54 | every output key names a quoted metal and holds that metal's inverted rate |
| Rates.InvertRatesSize | backend/app.py:49-54 | the output has as many entries as the quote |
| Rates.ConvertRates | backend/app.py:49-54 | the loop over the quoted rates, in any order, builds exactly the pure inversion |
| Rates.SampleQuote | backend/app.py:49-54 | the quotes XAU 0.0005 and XAG 0.04 become USDXAU 2000 and USDXAG 25 |
| PriceService.Fetch | backend/app.py:36-64 | the fetch path succeeds exactly for a JSON reply whose payload has `success` true and a `rates` field; a failed request, a non-JSON reply and undecodable JSON each give their own error body |
| PriceService.GetPrices | backend/app.py:28-64 | a fresh cache is served with no upstream request; otherwise the URL is fetched; the status is 200 or 500, and 200 exactly for a price body; a 500 leaves the cache as it was; a changed cache is the served data stamped `now`; on a miss the response is 200 with the fetched data or 500 with the fetch path's error body; the cache invariant is kept |
| PriceService.CacheHitIgnoresUpstream | backend/app.py:31-32 | on a hit the result does not depend on the upstream outcome, and no request is made |
| PriceService.FetchIffExpired | backend/app.py:31 | the handler goes upstream exactly when the cache is empty or at least 28800 seconds old, including exactly 28800 |
| PriceService.NotJsonKeepsCache | backend/app.py:40-41 | a non-JSON reply gives 500 with "API did not return JSON" and the whole body; the cache is unchanged |
| PriceService.BusinessFailureKeepsCache | backend/app.py:45-46 | a false or missing `success` gives 500 with the upstream `error`, or "Unknown error"; the cache is unchanged |
| PriceService.NetworkFailureServesNoStaleData | backend/app.py:63-64 | a failed request gives 500 with its message, on a cold start and equally when a stale entry exists; the cache is unchanged |
| PriceService.MalformedJsonKeepsCache | backend/app.py:43-64 | a JSON reply that does not decode gives 500 with the decoder's message; the cache is unchanged |
| PriceService.MissingRatesKeepsCache | backend/app.py:50 | a successful payload without `rates` gives 500 with the KeyError text "'rates'"; the cache is unchanged |
| PriceService.SuccessfulFetchOverwritesCache | backend/app.py:56-61 | a successful fetch replaces the whole cache with `{success: true, rates: inverted}` stamped `now`, and the response is exactly that data |
| PriceService.SuccessThenHit | backend/app.py:31-59 | a request less than 28800 seconds after a successful fetch is served the fetched data without an upstream request |
| PriceService.FailureThenRefetch | backend/app.py:31-64 | a failed fetch leaves the cache as it was, so a later request goes upstream again |
| PriceService.Serve | backend/app.py:28-64 | serving a run of requests answers each one, makes at most one upstream call per request, and keeps the cache invariant |
| PriceService.ServeWithinWindow | backend/app.py:31-32 | while requests stay within 28800 seconds of the cached fetch, none goes upstream and all get the cached data |
| PriceService.OneCallPerWindow | backend/app.py:31-61 | after a miss whose fetch succeeds, a run within 28800 seconds of it makes exactly one upstream call, and every response is the fetched data |

## Left out

- Flask application setup, the `/` banner route, CORS and `app.run` port binding (backend/app.py:7-8, 23-25, 66-68): framework plumbing with no handler logic.
- The HTTP call, the header lookup and JSON decoding by `requests` (backend/app.py:37-43). They are abstracted into the `Upstream.Outcome` datatype. The model takes the Content-Type value as already looked up, so the case-insensitive header-name match is not modelled.
- Upstream fields of other JSON types are not modelled. This covers an `error` that is an object or null, a `success` that is a truthy non-boolean, rates that are not numbers, and a document that is not an object. `Upstream.Payload` keeps only the shapes the handler is written for.
- The text of a raised exception is an abstract message. The one exception is the `KeyError` for a missing `rates`, whose text "'rates'" is modelled.
- Floating-point semantics of `1 / rate` and of time arithmetic: rates and times are exact reals.
- `time.time()`: the current time is a parameter of each step.
- The JSON rendering done by `jsonify`: responses are datatypes, not serialized text.
- Concurrency around the global cache: the source takes no lock between the freshness test (backend/app.py:31) and the cache write (backend/app.py:58-59), and `app.run` serves requests on threads. The model serves requests one after another, so `PriceService.OneCallPerWindow` says nothing about overlapping requests, two of which can both miss and both go upstream.
- The Android build configuration (android/app/build.gradle.kts) has no behaviour and is not part of this model.
