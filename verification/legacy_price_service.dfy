/**
 * The older module-level `getCryptoPrice(base, quote)`: the first provider of
 * the fixed list CoinMarketCap, CoinGecko that answers decides the result.
 */
module LegacyPriceService {
  import opened Results
  import opened PriceData
  import opened LegacyPriceData
  import opened Fallback

  datatype LegacyProvider = CoinMarketCap | CoinGecko

  /** The providers in the order they are tried. */
  const Providers: seq<LegacyProvider> := [CoinMarketCap, CoinGecko]

  type Pair = (string, string)
  type Attempt = Result<LegacyPriceData, ProviderError>

  const AllFailedPrefix := "All price providers failed. Last error: "

  /** `new ProviderError('All price providers failed. Last error: ' + lastError?.message, 'all')`. */
  function AllFailed(lastError: Option<ProviderError>): ProviderError {
    ProviderError(AllFailedPrefix + (if lastError.Some? then lastError.value.message else "undefined"), "all")
  }

  /** What `getCryptoPrice(base, quote)` returns or throws when provider p answers `ask(p, (base, quote))`. */
  function Resolve(ask: (LegacyProvider, Pair) -> Attempt, base: string, quote: string): (r: Attempt)
    ensures ask(CoinMarketCap, (base, quote)).Success? ==> r == ask(CoinMarketCap, (base, quote))
    ensures ask(CoinMarketCap, (base, quote)).Failure? ==> r.Success? == ask(CoinGecko, (base, quote)).Success?
    ensures ask(CoinMarketCap, (base, quote)).Failure? && ask(CoinGecko, (base, quote)).Success? ==>
              r == ask(CoinGecko, (base, quote))
    ensures r.Failure? ==>
              r.error == ProviderError(AllFailedPrefix + ask(CoinGecko, (base, quote)).error.message, "all")
  {
    match FirstSuccess(Providers, ask, (base, quote), 0)
    case Some(k) => ask(Providers[k], (base, quote))
    case None => Failure(AllFailed(Some(ask(Providers[|Providers| - 1], (base, quote)).error)))
  }

  /**
   * `getCryptoPrice(base, quote)`. `calls` lists each provider call with the
   * arguments it was given.
   */
  method GetCryptoPrice(ask: (LegacyProvider, Pair) -> Attempt, base: string, quote: string)
    returns (r: Attempt, calls: seq<(LegacyProvider, Pair)>)
    ensures r == Resolve(ask, base, quote)
    ensures |calls| == |Called(Providers, ask, (base, quote))|
    ensures forall i :: 0 <= i < |calls| ==> calls[i] == (Providers[i], (base, quote))
  {
    var lastError: Option<ProviderError> := None;
    calls := [];
    for i := 0 to |Providers|
      invariant forall j :: 0 <= j < i ==> ask(Providers[j], (base, quote)).Failure?
      invariant lastError == if i == 0 then None else Some(ask(Providers[i - 1], (base, quote)).error)
      invariant |calls| == i
      invariant forall j :: 0 <= j < i ==> calls[j] == (Providers[j], (base, quote))
    {
      var attempt := ask(Providers[i], (base, quote));
      calls := calls + [(Providers[i], (base, quote))];
      if attempt.Success? {
        FirstSuccessUnique(Providers, ask, (base, quote), i);
        return attempt, calls;
      }
      lastError := Some(attempt.error);
    }
    r := Failure(AllFailed(lastError));
  }

  /** CoinGecko is asked only when CoinMarketCap has thrown. */
  lemma GeckoOnlyAfterCmcFails(ask: (LegacyProvider, Pair) -> Attempt, base: string, quote: string)
    ensures ask(CoinMarketCap, (base, quote)).Success? ==> Called(Providers, ask, (base, quote)) == [CoinMarketCap]
    ensures ask(CoinMarketCap, (base, quote)).Failure? ==> Called(Providers, ask, (base, quote)) == Providers
  {
    if ask(CoinMarketCap, (base, quote)).Success? {
      FirstSuccessUnique(Providers, ask, (base, quote), 0);
    }
  }
}
