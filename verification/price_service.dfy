/**
 * `PriceService.getCryptoPrice`: the base leg tries the providers in order
 * until one answers, the quote leg does the same unless the quote is USD or
 * USDT, and the result is the base record priced in the quote.
 */
module PriceService {
  import opened Results
  import opened Numbers
  import opened PriceData
  import opened Fallback

  type Attempt = Result<PriceData, ProviderError>

  const AllProvidersFailed := ProviderError("Failed to fetch price from all providers", "ALL_PROVIDERS_FAILED")

  /** Quote symbols for which no provider is asked; the comparison is case-sensitive. */
  predicate IsUsdEquivalent(quoteSymbol: string) {
    quoteSymbol == "USD" || quoteSymbol == "USDT"
  }

  /** The record of the first provider that answers for symbol, if any does. */
  function LegData<P>(providers: seq<P>, ask: (P, string) -> Attempt, symbol: string): Option<PriceData> {
    match FirstSuccess(providers, ask, symbol, 0)
    case Some(k) => Some(ask(providers[k], symbol).value)
    case None => None
  }

  /** The quote record used in the derivation: absent for USD/USDT and when every provider fails. */
  function QuoteLeg<P>(providers: seq<P>, ask: (P, string) -> Attempt, quoteSymbol: string): Option<PriceData> {
    if IsUsdEquivalent(quoteSymbol) then None else LegData(providers, ask, quoteSymbol)
  }

  /** The divisor of the cross rate: the quote record's price, or 1 without one. */
  function QuotePrice(quoteData: Option<PriceData>): real {
    if quoteData.Some? then quoteData.value.price else 1.0
  }

  /** `adjustPercentChange(base, quote = 0)`. */
  function AdjustPercentChange(base: real, quote: Option<real>): (r: real)
    ensures IsTwoDp(r)
    ensures -0.005 <= r - (base - quote.GetOr(0.0)) <= 0.005
  {
    Round2(base - quote.GetOr(0.0))
  }

  /**
   * The returned record: the cross rate and the three relative changes,
   * rounded to two places, and the rest of the base record as it is.
   */
  function Derive(baseSymbol: string, quoteSymbol: string, b: PriceData, quoteData: Option<PriceData>): (r: PriceData)
    requires QuotePrice(quoteData) != 0.0
    ensures IsTwoDp(r.price) && -0.005 <= r.price - b.price / QuotePrice(quoteData) <= 0.005
    ensures IsTwoDp(r.percentChange1h) && IsTwoDp(r.percentChange24h) && IsTwoDp(r.percentChange7d)
    ensures quoteData.None? ==>
      && r.percentChange1h == Round2(b.percentChange1h)
      && r.percentChange24h == Round2(b.percentChange24h)
      && r.percentChange7d == Round2(b.percentChange7d)
    ensures quoteData.Some? ==>
      && r.percentChange1h == Round2(b.percentChange1h - quoteData.value.percentChange1h)
      && r.percentChange24h == Round2(b.percentChange24h - quoteData.value.percentChange24h)
      && r.percentChange7d == Round2(b.percentChange7d - quoteData.value.percentChange7d)
    ensures r.marketCap == b.marketCap && r.volume24h == b.volume24h && r.lastUpdated == b.lastUpdated
    ensures r.base == Some(baseSymbol) && r.quote == Some(quoteSymbol)
  {
    var price := b.price / QuotePrice(quoteData);
    PriceData(
      price := Round2(price),
      percentChange1h := AdjustPercentChange(b.percentChange1h, if quoteData.Some? then Some(quoteData.value.percentChange1h) else None),
      percentChange24h := AdjustPercentChange(b.percentChange24h, if quoteData.Some? then Some(quoteData.value.percentChange24h) else None),
      percentChange7d := AdjustPercentChange(b.percentChange7d, if quoteData.Some? then Some(quoteData.value.percentChange7d) else None),
      marketCap := b.marketCap,
      volume24h := b.volume24h,
      lastUpdated := b.lastUpdated,
      base := Some(baseSymbol),
      quote := Some(quoteSymbol))
  }

  /** The quote leg does not produce a zero divisor (the source would divide by zero). */
  predicate QuoteDivisible<P>(providers: seq<P>, ask: (P, string) -> Attempt, quoteSymbol: string) {
    QuotePrice(QuoteLeg(providers, ask, quoteSymbol)) != 0.0
  }

  /** A division happens only once the base leg has a record; it must not be by zero. */
  predicate DividesByNonZero<P>(providers: seq<P>, ask: (P, string) -> Attempt, baseSymbol: string, quoteSymbol: string) {
    LegData(providers, ask, baseSymbol).Some? ==> QuoteDivisible(providers, ask, quoteSymbol)
  }

  /** What `getCryptoPrice(baseSymbol, quoteSymbol)` returns or throws. */
  function Resolve<P>(providers: seq<P>, ask: (P, string) -> Attempt, baseSymbol: string, quoteSymbol: string): (r: Result<PriceData, ProviderError>)
    requires DividesByNonZero(providers, ask, baseSymbol, quoteSymbol)
    ensures r.Failure? <==> forall j :: 0 <= j < |providers| ==> ask(providers[j], baseSymbol).Failure?
    ensures r.Failure? ==> r.error == AllProvidersFailed
    ensures r.Success? ==> r.value.base == Some(baseSymbol) && r.value.quote == Some(quoteSymbol)
  {
    match LegData(providers, ask, baseSymbol)
    case None => Failure(AllProvidersFailed)
    case Some(b) => Success(Derive(baseSymbol, quoteSymbol, b, QuoteLeg(providers, ask, quoteSymbol)))
  }

  /** The calls `getPrice(symbol)` made on each provider of ps, in order. */
  function CallsOn<P>(ps: seq<P>, symbol: string): (c: seq<(P, string)>)
    ensures |c| == |ps|
    ensures forall i :: 0 <= i < |ps| ==> c[i] == (ps[i], symbol)
  {
    seq(|ps|, i requires 0 <= i < |ps| => (ps[i], symbol))
  }

  /**
   * Every provider call `getCryptoPrice` makes, base leg first: at most
   * 2·|providers| calls, each to a listed provider on the base or the quote
   * symbol, and a call that is not on the base only after a base success for
   * a quote other than USD/USDT.
   */
  function Trace<P>(providers: seq<P>, ask: (P, string) -> Attempt, baseSymbol: string, quoteSymbol: string): (c: seq<(P, string)>)
    ensures |c| <= 2 * |providers|
    ensures forall i :: 0 <= i < |c| ==> c[i].0 in providers
    ensures forall i :: 0 <= i < |c| ==> c[i].1 == baseSymbol || c[i].1 == quoteSymbol
    ensures forall i :: 0 <= i < |c| && c[i].1 != baseSymbol ==>
      LegData(providers, ask, baseSymbol).Some? && !IsUsdEquivalent(quoteSymbol)
  {
    CallsOn(Called(providers, ask, baseSymbol), baseSymbol) +
    if LegData(providers, ask, baseSymbol).None? || IsUsdEquivalent(quoteSymbol) then []
    else CallsOn(Called(providers, ask, quoteSymbol), quoteSymbol)
  }

  /**
   * One leg: call `getPrice(symbol)` on each provider in turn and stop at the
   * first that does not throw. The source writes this loop out twice, once per
   * leg; a failure is only logged.
   */
  method TryProviders<P>(providers: seq<P>, ask: (P, string) -> Attempt, symbol: string)
    returns (data: Option<PriceData>, calls: seq<(P, string)>)
    ensures data == LegData(providers, ask, symbol)
    ensures calls == CallsOn(Called(providers, ask, symbol), symbol)
  {
    data := None;
    calls := [];
    for i := 0 to |providers|
      invariant data.None?
      invariant forall j :: 0 <= j < i ==> ask(providers[j], symbol).Failure?
      invariant calls == CallsOn(providers[..i], symbol)
    {
      var attempt := ask(providers[i], symbol);
      calls := calls + [(providers[i], symbol)];
      if attempt.Success? {
        data := Some(attempt.value);
        FirstSuccessUnique(providers, ask, symbol, i);
        assert calls == CallsOn(providers[..i + 1], symbol);
        return;
      }
    }
    assert providers[..|providers|] == providers;
  }

  /**
   * When every provider throws for the base (also when there are none), the
   * call fails with ALL_PROVIDERS_FAILED after one base call per provider and
   * no quote call.
   */
  lemma BaseFailureIsTerminal<P>(providers: seq<P>, ask: (P, string) -> Attempt, baseSymbol: string, quoteSymbol: string)
    requires forall j :: 0 <= j < |providers| ==> ask(providers[j], baseSymbol).Failure?
    ensures DividesByNonZero(providers, ask, baseSymbol, quoteSymbol)
    ensures Resolve(providers, ask, baseSymbol, quoteSymbol) == Failure(AllProvidersFailed)
    ensures Trace(providers, ask, baseSymbol, quoteSymbol) == CallsOn(providers, baseSymbol)
  {
  }

  /**
   * The base leg stops at the first provider that answers: the calls begin
   * with exactly providers 0..k on the base, and every later call is a quote
   * call.
   */
  lemma BaseStopsAtFirstSuccess<P>(providers: seq<P>, ask: (P, string) -> Attempt, baseSymbol: string, quoteSymbol: string, k: nat)
    requires k < |providers| && ask(providers[k], baseSymbol).Success?
    requires forall j :: 0 <= j < k ==> ask(providers[j], baseSymbol).Failure?
    ensures |Trace(providers, ask, baseSymbol, quoteSymbol)| >= k + 1
    ensures Trace(providers, ask, baseSymbol, quoteSymbol)[..k + 1] == CallsOn(providers[..k + 1], baseSymbol)
    ensures forall i :: k + 1 <= i < |Trace(providers, ask, baseSymbol, quoteSymbol)| ==>
              Trace(providers, ask, baseSymbol, quoteSymbol)[i].1 == quoteSymbol
  {
    FirstSuccessUnique(providers, ask, baseSymbol, k);
  }

  /**
   * For a USD or USDT quote no provider is asked for the quote, the price is
   * the base price rounded, and the changes are the base changes rounded.
   */
  lemma UsdQuoteSkipsQuoteLeg<P>(providers: seq<P>, ask: (P, string) -> Attempt, baseSymbol: string, quoteSymbol: string)
    requires IsUsdEquivalent(quoteSymbol)
    ensures QuoteDivisible(providers, ask, quoteSymbol)
    ensures Trace(providers, ask, baseSymbol, quoteSymbol) == CallsOn(Called(providers, ask, baseSymbol), baseSymbol)
    ensures LegData(providers, ask, baseSymbol).Some? ==>
      var b := LegData(providers, ask, baseSymbol).value;
      var r := Resolve(providers, ask, baseSymbol, quoteSymbol);
      && r.Success?
      && r.value.price == Round2(b.price)
      && r.value.percentChange1h == Round2(b.percentChange1h)
      && r.value.percentChange24h == Round2(b.percentChange24h)
      && r.value.percentChange7d == Round2(b.percentChange7d)
  {
  }

  /**
   * A quote that no provider can price does not fail the call: the result is
   * the one a USD quote would give, under the caller's quote symbol.
   */
  lemma QuoteFailureDegrades<P>(providers: seq<P>, ask: (P, string) -> Attempt, baseSymbol: string, quoteSymbol: string)
    requires exists j :: 0 <= j < |providers| && ask(providers[j], baseSymbol).Success?
    requires forall j :: 0 <= j < |providers| ==> ask(providers[j], quoteSymbol).Failure?
    ensures QuoteDivisible(providers, ask, quoteSymbol)
    ensures Resolve(providers, ask, baseSymbol, quoteSymbol).Success?
    ensures Resolve(providers, ask, baseSymbol, quoteSymbol).value
         == Resolve(providers, ask, baseSymbol, "USD").value.(quote := Some(quoteSymbol))
  {
  }

  /**
   * With a priced quote the result is the base record priced in the quote: the
   * ratio of the two prices and the differences of the changes, rounded.
   */
  lemma CrossRate<P>(providers: seq<P>, ask: (P, string) -> Attempt, baseSymbol: string, quoteSymbol: string)
    requires !IsUsdEquivalent(quoteSymbol)
    requires LegData(providers, ask, baseSymbol).Some? && LegData(providers, ask, quoteSymbol).Some?
    requires LegData(providers, ask, quoteSymbol).value.price != 0.0
    ensures QuoteDivisible(providers, ask, quoteSymbol)
    ensures
      var b := LegData(providers, ask, baseSymbol).value;
      var q := LegData(providers, ask, quoteSymbol).value;
      var r := Resolve(providers, ask, baseSymbol, quoteSymbol);
      && r.Success?
      && r.value.price == Round2(b.price / q.price)
      && r.value.percentChange1h == Round2(b.percentChange1h - q.percentChange1h)
      && r.value.percentChange24h == Round2(b.percentChange24h - q.percentChange24h)
      && r.value.percentChange7d == Round2(b.percentChange7d - q.percentChange7d)
      && r.value.marketCap == b.marketCap && r.value.volume24h == b.volume24h
      && r.value.lastUpdated == b.lastUpdated
  {
  }

  /**
   * A base record that already has two decimal places comes back unchanged
   * for a USDT quote, when it carries the request's symbols.
   */
  lemma UsdtKeepsTwoDpRecord<P>(providers: seq<P>, ask: (P, string) -> Attempt, baseSymbol: string, k: nat)
    requires k < |providers| && ask(providers[k], baseSymbol).Success?
    requires forall j :: 0 <= j < k ==> ask(providers[j], baseSymbol).Failure?
    requires
      var b := ask(providers[k], baseSymbol).value;
      && IsTwoDp(b.price) && IsTwoDp(b.percentChange1h) && IsTwoDp(b.percentChange24h) && IsTwoDp(b.percentChange7d)
      && b.base == Some(baseSymbol) && b.quote == Some("USDT")
    ensures QuoteDivisible(providers, ask, "USDT")
    ensures Resolve(providers, ask, baseSymbol, "USDT") == Success(ask(providers[k], baseSymbol).value)
  {
    var b := ask(providers[k], baseSymbol).value;
    FirstSuccessUnique(providers, ask, baseSymbol, k);
    Round2FixesTwoDp(b.price);
    Round2FixesTwoDp(b.percentChange1h);
    Round2FixesTwoDp(b.percentChange24h);
    Round2FixesTwoDp(b.percentChange7d);
  }

  class PriceService<P> {
    const providers: seq<P>

    constructor (providers: seq<P>)
      ensures this.providers == providers
    {
      this.providers := providers;
    }

    /**
     * `getCryptoPrice(baseSymbol, quoteSymbol)`, with `ask` giving each
     * provider's answer; `calls` lists the provider calls in the order made.
     */
    method GetCryptoPrice(ask: (P, string) -> Attempt, baseSymbol: string, quoteSymbol: string)
      returns (r: Result<PriceData, ProviderError>, calls: seq<(P, string)>)
      requires DividesByNonZero(providers, ask, baseSymbol, quoteSymbol)
      ensures r == Resolve(providers, ask, baseSymbol, quoteSymbol)
      ensures calls == Trace(providers, ask, baseSymbol, quoteSymbol)
    {
      var baseData;
      baseData, calls := TryProviders(providers, ask, baseSymbol);
      if baseData.None? {
        r := Failure(AllProvidersFailed);
        return;
      }
      var quoteData := None;
      if quoteSymbol != "USD" && quoteSymbol != "USDT" {
        var quoteCalls;
        quoteData, quoteCalls := TryProviders(providers, ask, quoteSymbol);
        calls := calls + quoteCalls;
      }
      r := Success(Derive(baseSymbol, quoteSymbol, baseData.value, quoteData));
    }
  }
}
