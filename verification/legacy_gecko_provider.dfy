/**
 * The older `CoinGeckoProvider`: a base coin priced directly in a quote
 * currency, both lower-cased for the request, cached under
 * `gecko_<base>_<quote>` in the provider's own cache.
 */
module LegacyGeckoProvider {
  import opened Results
  import opened Symbols
  import opened PriceData
  import opened LegacyPriceData
  import opened Caching

  /** The payload: for each coin id, its fields keyed by name. */
  datatype Response = TransportError(message: string) | Body(coins: map<string, map<string, real>>)

  /** Query parameters of the request: the coin id and the quote currency. */
  datatype Request = Request(ids: string, vsCurrencies: string)

  const PriceNotFound := "Price not found"

  /**
   * `gecko_` + base + `_` + quote: the key has no upper-case letter, and the
   * separator sits right after the base.
   */
  function CacheKey(base: string, quote: string): (r: string)
    ensures |r| == |base| + |quote| + 7 && r[..6] == "gecko_" && r[6 + |base|] == '_'
    ensures r[6..6 + |base|] == ToLower(base) && r[7 + |base|..] == ToLower(quote)
    ensures NoUpperLetter(r)
  {
    "gecko_" + ToLower(base) + "_" + ToLower(quote)
  }

  function Rewrap(message: string): ProviderError {
    ProviderError("Failed to fetch price from CoinGecko: " + message, "coingecko")
  }

  /** `data[name]`: undefined when the payload has no such field. */
  function Field(data: map<string, real>, name: string): Num {
    if name in data then Some(data[name]) else None
  }

  /**
   * `getPrice(base, quote)` on a cache miss. The fields are read under names
   * built from the lower-cased quote q: `q`, `q_24h_change`, `q_market_cap`,
   * `q_24h_vol`; there are no 1h or 7d changes, and the time is now.
   */
  function Fetch(base: string, quote: string, response: Response, now: string): (r: Result<LegacyPriceData, ProviderError>)
    ensures r.Failure? ==> r.error.code == "coingecko"
    ensures r.Failure? <==> response.TransportError? || ToLower(base) !in response.coins
    ensures response.TransportError? ==> r == Failure(Rewrap(response.message))
    ensures response.Body? && ToLower(base) !in response.coins ==> r == Failure(Rewrap(PriceNotFound))
    ensures r.Success? ==>
      var data := response.coins[ToLower(base)];
      var q := ToLower(quote);
      && r.value.base == ToUpper(base) && r.value.quote == ToUpper(quote)
      && r.value.price.base == ToUpper(base) && r.value.price.quote == ToUpper(quote)
      && r.value.price.price == Field(data, q)
      && r.value.price.percentChange24h == Field(data, q + "_24h_change")
      && r.value.price.marketCap == Field(data, q + "_market_cap")
      && r.value.price.volume24h == Field(data, q + "_24h_vol")
      && r.value.price.percentChange1h.None? && r.value.price.percentChange7d.None?
      && r.value.price.lastUpdated == Some(now)
  {
    var b := ToLower(base);
    var q := ToLower(quote);
    match response
    case TransportError(m) => Failure(Rewrap(m))
    case Body(coins) =>
      if b !in coins then Failure(Rewrap(PriceNotFound))
      else
        var data := coins[b];
        UpperOfLower(base);
        UpperOfLower(quote);
        Success(LegacyPriceData(ToUpper(b), ToUpper(q), QuoteInfo(
          base := ToUpper(b),
          quote := ToUpper(q),
          price := Field(data, q),
          percentChange1h := None,
          percentChange24h := Field(data, q + "_24h_change"),
          percentChange7d := None,
          marketCap := Field(data, q + "_market_cap"),
          volume24h := Field(data, q + "_24h_vol"),
          lastUpdated := Some(now))))
  }

  class CoinGeckoProvider {
    const cache: Cache<LegacyPriceData>

    constructor (cache: Cache<LegacyPriceData>)
      ensures this.cache == cache
    {
      this.cache := cache;
    }

    /** `getPrice(base, quote)`; `now` is the current time, `request` None when the cache answered. */
    method GetPrice(base: string, quote: string, response: Response, now: string)
      returns (r: Result<LegacyPriceData, ProviderError>, request: Option<Request>)
      modifies cache
      ensures CacheKey(base, quote) in old(cache.entries) ==>
        && r == Success(old(cache.entries)[CacheKey(base, quote)])
        && request == None
        && cache.entries == old(cache.entries)
      ensures CacheKey(base, quote) !in old(cache.entries) ==>
        && request == Some(Request(ToLower(base), ToLower(quote)))
        && r == Fetch(base, quote, response, now)
        && cache.entries == if r.Success? then old(cache.entries)[CacheKey(base, quote) := r.value] else old(cache.entries)
    {
      var baseSymbol := ToLower(base);
      var quoteSymbol := ToLower(quote);
      var cacheKey := "gecko_" + baseSymbol + "_" + quoteSymbol;
      var cached := cache.Get(cacheKey);
      if cached.Some? {
        return Success(cached.value), None;
      }
      request := Some(Request(baseSymbol, quoteSymbol));
      r := Fetch(base, quote, response, now);
      if r.Success? {
        cache.Set(cacheKey, r.value);
      }
    }
  }
}
