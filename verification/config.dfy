/**
 * Start-up configuration of the price service (backend/app.py): the cache
 * lifetime, the metals asked for, the base currency, the API key taken from
 * the environment, and the upstream request URL built from them.
 */
module Config {
  import opened Wrappers
  import Text

  /** Cache lifetime in seconds: eight hours. */
  const CACHE_TIMEOUT: int := 60 * 60 * 8

  /** Metal codes requested from upstream, in request order. */
  const METALS: seq<string> := ["XAU", "XAG", "XPT", "XPD"]

  /** Currency the prices are expressed in. */
  const BASE: string := "USD"

  /** Upstream endpoint, before its query string. */
  const ENDPOINT: string := "https://api.metalpriceapi.com/v1/latest"

  /** Message of the start-up failure when no API key is configured. */
  const MISSING_KEY: string := "API_KEY environment variable not set"

  /**
   * Reads `API_KEY` from the environment (`None` when unset): an unset or
   * empty variable stops the service before it serves anything.
   */
  function LoadApiKey(env: Option<string>): (r: Result<string, string>)
    ensures r.Ok? <==> env.Some? && env.value != ""
    ensures r.Ok? ==> r.value == env.value
    ensures r.Err? ==> r.error == MISSING_KEY
  {
    match env
    case Some(key) => if key != "" then Ok(key) else Err(MISSING_KEY)
    case None => Err(MISSING_KEY)
  }

  /** Everything in the request URL before the `currencies` value. */
  function QueryPrefix(apiKey: string): string {
    ENDPOINT + "?api_key=" + apiKey + "&base=" + BASE + "&currencies="
  }

  /**
   * The upstream request URL. Its `currencies` value (everything after the
   * prefix) splits on commas back into exactly the four metal codes, in order.
   */
  function RequestUrl(apiKey: string): (url: string)
    ensures |url| >= |QueryPrefix(apiKey)|
    ensures url[..|QueryPrefix(apiKey)|] == QueryPrefix(apiKey)
    ensures Text.Split(url[|QueryPrefix(apiKey)|..], ',') == METALS
  {
    CurrenciesRoundTrip();
    var url := QueryPrefix(apiKey) + Text.Join(METALS, ",");
    assert url[|QueryPrefix(apiKey)|..] == Text.Join(METALS, ",");
    url
  }

  /** The `currencies` value is "XAU,XAG,XPT,XPD" and splits back into the metal list. */
  lemma CurrenciesRoundTrip()
    ensures Text.Join(METALS, ",") == "XAU,XAG,XPT,XPD"
    ensures Text.Split(Text.Join(METALS, ","), ',') == METALS
  {
    forall k | 0 <= k < |METALS|
      ensures ',' !in METALS[k]
    {
    }
    Text.SplitJoin(METALS, ',');
  }
}
