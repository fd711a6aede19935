/**
 * `CoinGeckoProvider` of the current price path: one symbol priced in USD,
 * fields taken as they come, cached under `coingecko_<symbol>`.
 */
module GeckoProvider {
  import opened Results
  import opened Symbols
  import opened PriceData
  import opened Caching

  const GeckoFailure := ProviderError("Failed to fetch price from CoinGecko", "coingecko")

  /**
   * `response.data.market_data`: each numeric field is the `usd` entry of a
   * sub-object, None when that sub-object is missing.
   */
  datatype MarketData = MarketData(
    currentPrice: Option<real>,
    priceChange1h: Option<real>,
    priceChange24h: Option<real>,
    priceChange7d: Option<real>,
    marketCap: Option<real>,
    totalVolume: Option<real>,
    lastUpdated: string)

  datatype Response = TransportError(message: string) | Body(marketData: Option<MarketData>)

  /** `coingecko_` followed by the lower-cased symbol, with no upper-case letter left. */
  function CacheKey(symbol: string): (r: string)
    ensures |r| == |symbol| + 10 && r[..10] == "coingecko_"
    ensures r[10..] == ToLower(symbol)
    ensures NoUpperLetter(r)
  {
    "coingecko_" + ToLower(symbol)
  }

  /** The path requested below the configured base URL: the lower-cased symbol under `/coins/`. */
  function RequestPath(symbol: string): (r: string)
    ensures |r| == |symbol| + 7 && r[..7] == "/coins/"
    ensures r[7..] == ToLower(symbol)
    ensures NoUpperLetter(r)
  {
    "/coins/" + ToLower(symbol)
  }

  predicate Complete(m: MarketData) {
    && m.currentPrice.Some? && m.priceChange1h.Some? && m.priceChange24h.Some?
    && m.priceChange7d.Some? && m.marketCap.Some? && m.totalVolume.Some?
  }

  /**
   * `getPrice` on a cache miss: the USD entries copied as they are, with no
   * default and no rounding; any failure is the single `coingecko` error.
   */
  function Fetch(response: Response): (r: Result<PriceData, ProviderError>)
    ensures r.Failure? ==> r.error == GeckoFailure
    ensures r.Success? <==> response.Body? && response.marketData.Some? && Complete(response.marketData.value)
    ensures r.Success? ==>
      var m := response.marketData.value;
      && r.value.price == m.currentPrice.value
      && r.value.percentChange1h == m.priceChange1h.value
      && r.value.percentChange24h == m.priceChange24h.value
      && r.value.percentChange7d == m.priceChange7d.value
      && r.value.marketCap == m.marketCap.value
      && r.value.volume24h == m.totalVolume.value
      && r.value.lastUpdated == m.lastUpdated
      && r.value.base.None? && r.value.quote.None?
  {
    match response
    case TransportError(_) => Failure(GeckoFailure)
    case Body(None) => Failure(GeckoFailure)
    case Body(Some(m)) =>
      if !Complete(m) then Failure(GeckoFailure)
      else Success(PriceData(
        price := m.currentPrice.value,
        percentChange1h := m.priceChange1h.value,
        percentChange24h := m.priceChange24h.value,
        percentChange7d := m.priceChange7d.value,
        marketCap := m.marketCap.value,
        volume24h := m.totalVolume.value,
        lastUpdated := m.lastUpdated,
        base := None,
        quote := None))
  }

  class CoinGeckoProvider {
    const cache: Cache<PriceData>

    constructor (cache: Cache<PriceData>)
      ensures this.cache == cache
    {
      this.cache := cache;
    }

    /**
     * `getPrice(symbol)`. `response` is what the HTTP call would yield;
     * `path` is the path requested, None when the cache answered.
     */
    method GetPrice(symbol: string, response: Response)
      returns (r: Result<PriceData, ProviderError>, path: Option<string>)
      modifies cache
      ensures CacheKey(symbol) in old(cache.entries) ==>
        && r == Success(old(cache.entries)[CacheKey(symbol)])
        && path == None
        && cache.entries == old(cache.entries)
      ensures CacheKey(symbol) !in old(cache.entries) ==>
        && path == Some(RequestPath(symbol))
        && r == Fetch(response)
        && cache.entries == if r.Success? then old(cache.entries)[CacheKey(symbol) := r.value] else old(cache.entries)
    {
      var cacheKey := CacheKey(symbol);
      var cached := cache.Get(cacheKey);
      if cached.Some? {
        return Success(cached.value), None;
      }
      path := Some(RequestPath(symbol));
      r := Fetch(response);
      if r.Success? {
        cache.Set(cacheKey, r.value);
      }
    }
  }
}
