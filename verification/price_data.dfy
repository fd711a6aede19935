/**
 * The flat price record that the current providers return and the price
 * service builds, and the provider error both of them throw.
 */
module PriceData {
  import opened Results

  /**
   * Prices and changes are USD-denominated for a provider's record; `base` and
   * `quote` are only set on the service's result.
   */
  datatype PriceData = PriceData(
    price: real,
    percentChange1h: real,
    percentChange24h: real,
    percentChange7d: real,
    marketCap: real,
    volume24h: real,
    lastUpdated: string,
    base: Option<string>,
    quote: Option<string>)

  /** `new ProviderError(message, code)`. */
  datatype ProviderError = ProviderError(message: string, code: string)
}
