/**
 * The older `CoinMarketCapProvider`: a base symbol priced directly in a quote
 * symbol, both upper-cased, cached under `cmc_<BASE>_<QUOTE>` in the
 * provider's own cache.
 */
module LegacyCmcProvider {
  import opened Results
  import opened Symbols
  import opened PriceData
  import opened LegacyPriceData
  import opened Caching

  /** The quote object `data[BASE][0].quote[QUOTE]` of the upstream payload. */
  datatype CmcQuote = CmcQuote(
    price: Num,
    percentChange1h: Num,
    percentChange24h: Num,
    percentChange7d: Num,
    marketCap: Num,
    volume24h: Num,
    lastUpdated: Option<string>)

  /** One listing of a symbol; `quote` is None when the listing has no quote object. */
  datatype Listing = Listing(quote: Option<map<string, CmcQuote>>)

  datatype Response = TransportError(message: string) | Body(data: Option<map<string, seq<Listing>>>)

  /** Query parameters of the request: the symbol and the conversion currency. */
  datatype Request = Request(symbol: string, convert: string)

  const PriceNotFound := "Price not found"

  /**
   * `cmc_` + BASE + `_` + QUOTE: after the prefix the key has no lower-case
   * letter, and the separator sits right after the base.
   */
  function CacheKey(base: string, quote: string): (r: string)
    ensures |r| == |base| + |quote| + 5 && r[..4] == "cmc_" && r[4 + |base|] == '_'
    ensures r[4..4 + |base|] == ToUpper(base) && r[5 + |base|..] == ToUpper(quote)
    ensures NoLowerLetter(r[4..])
  {
    "cmc_" + ToUpper(base) + "_" + ToUpper(quote)
  }

  /** `new ProviderError('Failed to fetch price from CoinMarketCap: ' + message, 'coinmarketcap')`. */
  function Rewrap(message: string): ProviderError {
    ProviderError("Failed to fetch price from CoinMarketCap: " + message, "coinmarketcap")
  }

  /** `response.data?.data?.[B]?.[0]?.quote?.[Q]`: every missing step gives undefined. */
  function QuoteData(b: string, q: string, response: Response): (r: Option<CmcQuote>)
    ensures r.Some? <==>
      && response.Body? && response.data.Some? && b in response.data.value
      && |response.data.value[b]| > 0 && response.data.value[b][0].quote.Some?
      && q in response.data.value[b][0].quote.value
    ensures r.Some? ==> r.value == response.data.value[b][0].quote.value[q]
  {
    if response.TransportError? || response.data.None? then None
    else if b !in response.data.value || |response.data.value[b]| == 0 then None
    else
      var listing := response.data.value[b][0];
      if listing.quote.None? || q !in listing.quote.value then None
      else Some(listing.quote.value[q])
  }

  /** `!quoteData?.price`: no quote, or a price that is undefined or 0. */
  predicate PriceMissing(quoteData: Option<CmcQuote>) {
    quoteData.None? || quoteData.value.price.None? || quoteData.value.price.value == 0.0
  }

  /**
   * `getPrice(base, quote)` on a cache miss: a present non-zero price gives
   * the record with both symbols upper-cased and the quote fields copied as
   * they are; anything else is a `coinmarketcap` error carrying the cause.
   */
  function Fetch(base: string, quote: string, response: Response): (r: Result<LegacyPriceData, ProviderError>)
    ensures r.Failure? ==> r.error.code == "coinmarketcap"
    ensures response.TransportError? ==> r == Failure(Rewrap(response.message))
    ensures response.Body? && r.Failure? ==> r.error == Rewrap(PriceNotFound)
    ensures r.Success? <==> response.Body? && !PriceMissing(QuoteData(ToUpper(base), ToUpper(quote), response))
    ensures r.Success? ==>
      && r.value.price.price.Some? && r.value.price.price.value != 0.0
      && r.value.base == ToUpper(base) && r.value.quote == ToUpper(quote)
      && r.value.price.base == ToUpper(base) && r.value.price.quote == ToUpper(quote)
  {
    var b := ToUpper(base);
    var q := ToUpper(quote);
    match response
    case TransportError(m) => Failure(Rewrap(m))
    case Body(_) =>
      var quoteData := QuoteData(b, q, response);
      if PriceMissing(quoteData) then Failure(Rewrap(PriceNotFound))
      else
        var d := quoteData.value;
        Success(LegacyPriceData(b, q, QuoteInfo(
          base := b,
          quote := q,
          price := d.price,
          percentChange1h := d.percentChange1h,
          percentChange24h := d.percentChange24h,
          percentChange7d := d.percentChange7d,
          marketCap := d.marketCap,
          volume24h := d.volume24h,
          lastUpdated := d.lastUpdated)))
  }

  /** The numeric fields and the timestamp are the upstream quote's own. */
  lemma FetchCopiesQuote(base: string, quote: string, response: Response)
    requires Fetch(base, quote, response).Success?
    ensures
      var d := QuoteData(ToUpper(base), ToUpper(quote), response).value;
      var info := Fetch(base, quote, response).value.price;
      && info.price == d.price && info.percentChange1h == d.percentChange1h
      && info.percentChange24h == d.percentChange24h && info.percentChange7d == d.percentChange7d
      && info.marketCap == d.marketCap && info.volume24h == d.volume24h
      && info.lastUpdated == d.lastUpdated
  {
  }

  /** A price of 0 is rejected like a missing one. */
  lemma ZeroPriceRejected(base: string, quote: string, listing: CmcQuote)
    requires listing.price == Some(0.0)
    ensures
      var response := Body(Some(map[ToUpper(base) := [Listing(Some(map[ToUpper(quote) := listing]))]]));
      Fetch(base, quote, response) == Failure(Rewrap(PriceNotFound))
  {
  }

  class CoinMarketCapProvider {
    const cache: Cache<LegacyPriceData>

    constructor (cache: Cache<LegacyPriceData>)
      ensures this.cache == cache
    {
      this.cache := cache;
    }

    /**
     * `getPrice(base, quote)`. A stored record is always an object, so
     * `if (cached)` is a presence test. `request` is None when the cache
     * answered.
     */
    method GetPrice(base: string, quote: string, response: Response)
      returns (r: Result<LegacyPriceData, ProviderError>, request: Option<Request>)
      modifies cache
      ensures CacheKey(base, quote) in old(cache.entries) ==>
        && r == Success(old(cache.entries)[CacheKey(base, quote)])
        && request == None
        && cache.entries == old(cache.entries)
      ensures CacheKey(base, quote) !in old(cache.entries) ==>
        && request == Some(Request(ToUpper(base), ToUpper(quote)))
        && r == Fetch(base, quote, response)
        && cache.entries == if r.Success? then old(cache.entries)[CacheKey(base, quote) := r.value] else old(cache.entries)
    {
      var baseSymbol := ToUpper(base);
      var quoteSymbol := ToUpper(quote);
      var cacheKey := "cmc_" + baseSymbol + "_" + quoteSymbol;
      var cached := cache.Get(cacheKey);
      if cached.Some? {
        return Success(cached.value), None;
      }
      request := Some(Request(baseSymbol, quoteSymbol));
      r := Fetch(base, quote, response);
      if r.Success? {
        cache.Set(cacheKey, r.value);
      }
    }
  }
}
