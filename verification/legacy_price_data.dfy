/**
 * The nested price record of the older price path: the pair's symbols at the
 * top and again inside the quote information.
 */
module LegacyPriceData {
  import opened Results

  /**
   * A number copied from an upstream payload as it is; None is `undefined`.
   * The declared record type makes only the 1h and 7d changes optional, but
   * the providers copy fields without checking them, so any field can be
   * `undefined`.
   */
  type Num = Option<real>

  datatype QuoteInfo = QuoteInfo(
    base: string,
    quote: string,
    price: Num,
    percentChange1h: Num,
    percentChange24h: Num,
    percentChange7d: Num,
    marketCap: Num,
    volume24h: Num,
    lastUpdated: Option<string>)

  datatype LegacyPriceData = LegacyPriceData(base: string, quote: string, price: QuoteInfo)
}
