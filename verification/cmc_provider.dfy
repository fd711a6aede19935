/**
 * `CoinMarketCapProvider` of the current price path: one symbol priced in
 * USD, normalised to two decimal places, cached under `cmc_<symbol>`.
 */
module CmcProvider {
  import opened Results
  import opened Numbers
  import opened Symbols
  import opened PriceData
  import opened Caching

  const ApiKeyRequired := "CoinMarketCap API key is required"
  const ApiFailure := ProviderError("Failed to fetch price from CoinMarketCap", "API_ERROR")

  /** The USD quote object of the upstream payload; None is a `null` or missing field. */
  datatype UsdQuote = UsdQuote(
    price: Option<real>,
    percentChange1h: Option<real>,
    percentChange24h: Option<real>,
    percentChange7d: Option<real>,
    marketCap: Option<real>,
    volume24h: Option<real>,
    lastUpdated: Option<string>)

  /** One entry of `response.data.data`; `quote` is None when the entry has no quote object. */
  datatype CoinEntry = CoinEntry(quote: Option<map<string, UsdQuote>>)

  /**
   * What the HTTP call yields: a transport failure (network, non-2xx status,
   * parse error), or a body whose `data` object may be missing.
   */
  datatype Response = TransportError(message: string) | Body(data: Option<map<string, CoinEntry>>)

  /** The request the provider sends: the symbol as given, converted to USD, with the API key. */
  datatype Request = Request(symbol: string, convert: string, apiKey: string)

  /** `cmc_` followed by the lower-cased symbol, with no upper-case letter left. */
  function CacheKey(symbol: string): (r: string)
    ensures |r| == |symbol| + 4 && r[..4] == "cmc_"
    ensures r[4..] == ToLower(symbol)
    ensures NoUpperLetter(r)
  {
    "cmc_" + ToLower(symbol)
  }

  /** `formatNumber`: null, undefined and 0 become 0; any other number is rounded to two places. */
  function FormatNumber(value: Option<real>): (r: real)
    ensures NormalizedFrom(r, value)
  {
    match value
    case None => 0.0
    case Some(v) => Round2(v)
  }

  /** A number that already has two decimal places comes out of `formatNumber` unchanged. */
  lemma FormatNumberKeepsTwoDp(value: Option<real>)
    requires value.Some? && IsTwoDp(value.value)
    ensures FormatNumber(value) == value.value
  {
    Round2FixesTwoDp(value.value);
  }

  /** Why the steps inside the `try` of `getPrice` stop, before the rewrap. */
  datatype Interruption =
    | Transport(message: string)    // the request itself failed
    | MissingObject                 // a property read on undefined: a TypeError
    | Raised(error: ProviderError)  // one of the provider's own checks

  /**
   * The inner steps of `getPrice`: DATA_NOT_FOUND when the payload has no
   * entry for the symbol as given, QUOTE_NOT_FOUND when the entry has no USD
   * quote.
   */
  function FindUsdQuote(symbol: string, response: Response): (r: Result<UsdQuote, Interruption>)
    ensures r.Success? <==>
      && response.Body? && response.data.Some? && symbol in response.data.value
      && response.data.value[symbol].quote.Some? && "USD" in response.data.value[symbol].quote.value
    ensures r.Success? ==> r.value == response.data.value[symbol].quote.value["USD"]
  {
    match response
    case TransportError(m) => Failure(Transport(m))
    case Body(None) => Failure(MissingObject)
    case Body(Some(data)) =>
      if symbol !in data then
        Failure(Raised(ProviderError("No data found for symbol " + symbol, "DATA_NOT_FOUND")))
      else if data[symbol].quote.None? then
        Failure(MissingObject)
      else if "USD" !in data[symbol].quote.value then
        Failure(Raised(ProviderError("No USD quote found for symbol " + symbol, "QUOTE_NOT_FOUND")))
      else
        Success(data[symbol].quote.value["USD"])
  }

  /** x is a normalised form of the upstream value v: two places, 0 for a missing v, else within half a cent of it. */
  predicate NormalizedFrom(x: real, v: Option<real>) {
    && IsTwoDp(x)
    && (v.None? ==> x == 0.0)
    && (v.Some? ==> -0.005 <= x - v.value <= 0.005)
  }

  /** The record built from a USD quote; `now` is the current time as an ISO string. */
  function Normalize(quote: UsdQuote, now: string): (d: PriceData)
    ensures NormalizedFrom(d.price, quote.price)
    ensures NormalizedFrom(d.percentChange1h, quote.percentChange1h)
    ensures NormalizedFrom(d.percentChange24h, quote.percentChange24h)
    ensures NormalizedFrom(d.percentChange7d, quote.percentChange7d)
    ensures NormalizedFrom(d.marketCap, quote.marketCap)
    ensures NormalizedFrom(d.volume24h, quote.volume24h)
    ensures d.lastUpdated == if quote.lastUpdated.Some? && quote.lastUpdated.value != "" then quote.lastUpdated.value else now
    ensures d.base.None? && d.quote.None?
  {
    PriceData(
      price := FormatNumber(quote.price),
      percentChange1h := FormatNumber(quote.percentChange1h),
      percentChange24h := FormatNumber(quote.percentChange24h),
      percentChange7d := FormatNumber(quote.percentChange7d),
      marketCap := FormatNumber(quote.marketCap),
      volume24h := FormatNumber(quote.volume24h),
      lastUpdated := if quote.lastUpdated.Some? && quote.lastUpdated.value != "" then quote.lastUpdated.value else now,
      base := None,
      quote := None)
  }

  /**
   * `getPrice` on a cache miss: every failure on the way, whatever its code,
   * comes out as the single API_ERROR.
   */
  function Fetch(symbol: string, response: Response, now: string): (r: Result<PriceData, ProviderError>)
    ensures r.Failure? ==> r.error == ApiFailure
    ensures r.Success? <==> FindUsdQuote(symbol, response).Success?
    ensures r.Success? ==> r.value == Normalize(FindUsdQuote(symbol, response).value, now)
  {
    match FindUsdQuote(symbol, response)
    case Success(quote) => Success(Normalize(quote, now))
    case Failure(_) => Failure(ApiFailure)
  }

  /** DATA_NOT_FOUND and QUOTE_NOT_FOUND are raised inside but never leave `getPrice`. */
  lemma InnerCodesDoNotEscape(symbol: string, response: Response, now: string)
    ensures Fetch(symbol, response, now).Failure? ==>
      && Fetch(symbol, response, now).error.code != "DATA_NOT_FOUND"
      && Fetch(symbol, response, now).error.code != "QUOTE_NOT_FOUND"
    ensures response.Body? && response.data.Some? && symbol !in response.data.value ==>
      FindUsdQuote(symbol, response).error.error.code == "DATA_NOT_FOUND" && Fetch(symbol, response, now) == Failure(ApiFailure)
  {
  }

  /** A quote whose fields are all null or missing gives zeros and the current time. */
  lemma EmptyQuoteGivesZeros(now: string)
    ensures Normalize(UsdQuote(None, None, None, None, None, None, None), now)
         == PriceData(0.0, 0.0, 0.0, 0.0, 0.0, 0.0, now, None, None)
  {
  }

  class CoinMarketCapProvider {
    const apiKey: string
    const cache: Cache<PriceData>

    constructor (apiKey: string, cache: Cache<PriceData>)
      requires apiKey != ""
      ensures this.apiKey == apiKey && this.cache == cache
    {
      this.apiKey := apiKey;
      this.cache := cache;
    }

    /**
     * `getPrice(symbol)`. `response` is what the HTTP call would yield and
     * `now` the current time; `request` is the request sent, None when the
     * cache answered.
     */
    method GetPrice(symbol: string, response: Response, now: string)
      returns (r: Result<PriceData, ProviderError>, request: Option<Request>)
      modifies cache
      ensures CacheKey(symbol) in old(cache.entries) ==>
        && r == Success(old(cache.entries)[CacheKey(symbol)])
        && request == None
        && cache.entries == old(cache.entries)
      ensures CacheKey(symbol) !in old(cache.entries) ==>
        && request == Some(Request(symbol, "USD", apiKey))
        && r == Fetch(symbol, response, now)
        && cache.entries == if r.Success? then old(cache.entries)[CacheKey(symbol) := r.value] else old(cache.entries)
    {
      var cacheKey := CacheKey(symbol);
      var cached := cache.Get(cacheKey);
      if cached.Some? {
        return Success(cached.value), None;
      }
      request := Some(Request(symbol, "USD", apiKey));
      var found := FindUsdQuote(symbol, response);
      if found.Failure? {
        return Failure(ApiFailure), request;
      }
      var priceData := Normalize(found.value, now);
      cache.Set(cacheKey, priceData);
      r := Success(priceData);
    }
  }

  /** The constructor: an empty API key is refused with a configuration error. */
  method NewCoinMarketCapProvider(apiKey: string, cache: Cache<PriceData>)
    returns (r: Result<CoinMarketCapProvider, string>)
    ensures r.Failure? <==> apiKey == ""
    ensures r.Failure? ==> r.error == ApiKeyRequired
    ensures r.Success? ==> fresh(r.value) && r.value.apiKey == apiKey && r.value.cache == cache
  {
    if apiKey == "" {
      return Failure(ApiKeyRequired);
    }
    var provider := new CoinMarketCapProvider(apiKey, cache);
    r := Success(provider);
  }

  /**
   * Two calls for the same symbol: after a successful first call the second is
   * answered from the cache with the same record and sends no request, and
   * the same holds for a symbol differing only in letter case.
   */
  method GetPriceTwice(provider: CoinMarketCapProvider, symbol: string, again: string, response1: Response, response2: Response, now1: string, now2: string)
    returns (r1: Result<PriceData, ProviderError>, r2: Result<PriceData, ProviderError>, request2: Option<Request>)
    requires ToLower(again) == ToLower(symbol)
    modifies provider.cache
    ensures r1.Success? ==> r2 == r1 && request2 == None
  {
    var request1;
    r1, request1 := provider.GetPrice(symbol, response1, now1);
    r2, request2 := provider.GetPrice(again, response2, now2);
  }
}
