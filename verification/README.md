# Crypto pair price pipeline, modelled in Dafny

This project models the backend price pipeline of a small service that quotes one
cryptocurrency in terms of another. A request names a base symbol and a quote symbol.
The request is first checked by a validator. The price service then asks its providers
(CoinMarketCap, then CoinGecko) for the base symbol's USD record, one provider after the
other, until one answers. It does the same for the quote symbol unless the quote is USD
or USDT. From the two records it derives the cross rate and the relative percent changes.
Each provider looks in a shared cache before it sends a request. It normalises the upstream
payload and stores the record only when it succeeds. Every internal failure is rethrown as
one `ProviderError` code. An error handler turns whatever error is left into a status
and a JSON body.

An older path is modelled as well. There, two providers price the pair directly, each
with its own cache, and a module-level function takes the first provider that answers.

## Layout

| file | module | models |
|---|---|---|
| `results.dfy` | `Results` | `Option` (for `undefined`) and `Result` (for a return or a throw) |
| `numbers.dfy` | `Numbers` | `Number(x.toFixed(2))` on exact reals, and its laws |
| `symbols.dfy` | `Symbols` | `toLowerCase` / `toUpperCase` on ASCII letters; the `[A-Za-z0-9]` class |
| `cache.dfy` | `Caching` | the key/value cache as a class with a `map` field |
| `price_data.dfy` | `PriceData` | the flat price record and `ProviderError` |
| `fallback.dfy` | `Fallback` | first-success order over a provider list |
| `price_service.dfy` | `PriceService` | `PriceService.getCryptoPrice` |
| `cmc_provider.dfy` | `CmcProvider` | the current `CoinMarketCapProvider` |
| `gecko_provider.dfy` | `GeckoProvider` | the current `CoinGeckoProvider` |
| `cache_keys.dfy` | `CacheKeys` | which requests share a cache entry |
| `legacy_price_data.dfy` | `LegacyPriceData` | the nested record of the older path |
| `legacy_cmc_provider.dfy` | `LegacyCmcProvider` | the older `CoinMarketCapProvider` |
| `legacy_gecko_provider.dfy` | `LegacyGeckoProvider` | the older `CoinGeckoProvider` |
| `legacy_price_service.dfy` | `LegacyPriceService` | the older module-level `getCryptoPrice` |
| `query.dfy` | `Query` | the `base` / `quote` query parameters |
| `validation.dfy` | `Validation` | `validatePriceRequest` |
| `validate_input.dfy` | `ValidateInput` | `validateInput` and its symbol schema |
| `error_handler.dfy` | `ErrorHandler` | `errorHandler` |

How the model stands in for the runtime:

- A provider call made inside a price service is a total function `ask(provider, request)`.
  It gives that provider's record or its thrown error. Each service also returns the list
  of provider calls it made, so "later providers are not called" and "no quote call is
  made" are statements about that list. One answer per provider and symbol holds for the
  whole call. When base and quote are the same symbol, a provider that threw on the base
  leg therefore throws again on the quote leg. The source instead sends a fresh request,
  since the cache keeps only successes, and that second request could succeed.
- A provider's upstream HTTP response is an input value. It is either a transport failure
  or a payload in which every field that may be missing is an `Option`. Each provider
  returns the request it would send, or `None` when the cache answered.
- The current time (`new Date().toISOString()`) and `NODE_ENV` are parameters.
- The current providers share one `Cache<PriceData>`, just as they share the
  `cacheService` singleton. Each older provider owns its own cache, like its
  module-level `NodeCache`.

Behaviours of the code worth knowing:

- `getCryptoPrice` does not reject empty symbols. An empty symbol fails only when every provider fails for it.
- The service copies `market_cap` and `volume_24h` from the base record without rounding them again.
- `DATA_NOT_FOUND` and `QUOTE_NOT_FOUND` never leave the CoinMarketCap provider. Every failure there surfaces as `API_ERROR`.
- The current CoinGecko provider copies its fields as they are. It neither defaults nor rounds them.
- The current providers' cache keys are `cmc_<lower-cased symbol>` and `coingecko_<lower-cased symbol>`.
- The error handler's body has no `code` field.

## Model

| member | source | states |
|---|---|---|
| `Numbers.Round2` | backend/src/services/price/priceService.ts:55-59 | the result of `Number(x.toFixed(2))` has at most two decimal places, is within half a cent of x and never has the opposite sign |
| `Numbers.Round2HalfAwayFromZero` | backend/src/services/price/priceService.ts:55 | rounding is symmetric about zero, so a negative change is rounded as its magnitude would be |
| `Numbers.Round2Ties` | backend/src/services/price/priceService.ts:55 | a tie is rounded away from zero: 0.005 gives 0.01 and -0.005 gives -0.01 |
| `Numbers.Round2FixesTwoDp` | backend/src/services/price/priceService.ts:55-59 | a number that already has two decimal places is left unchanged by the rounding |
| `Numbers.Round2Idempotent` | backend/src/services/price/priceService.ts:55-59 | rounding a rounded number changes nothing |
| `Symbols.ToLower` | backend/src/services/price/providers/coinMarketCapProvider.ts:37 | same length, no upper-case letter left, and each character is kept or is an upper-case letter replaced by its lower-case partner |
| `Symbols.ToUpper` | backend/src/services/providers/coinMarketCapProvider.ts:19-20 | same length, no lower-case letter left, and each character is kept or is a lower-case letter replaced by its upper-case partner |
| `Symbols.UpperOfLower` | backend/src/services/providers/coinGeckoProvider.ts:38-42 | upper-casing the lower-cased symbol gives the upper-cased caller symbol |
| `Symbols.LowerOfUpper` | backend/src/services/price/providers/coinMarketCapProvider.ts:37 | lower-casing forgets any earlier upper-casing |
| `Caching.Cache.Get` | backend/src/services/cache/cacheService.ts:19-21 | a lookup gives the stored value exactly when the key is present |
| `Caching.Cache.Set` | backend/src/services/cache/cacheService.ts:23-25 | a store replaces the key's value and leaves every other key alone |
| `Fallback.FirstSuccess` | backend/src/services/price/priceService.ts:17-26 | the index found is the first provider that answers; every earlier one threw; None exactly when all throw |
| `Fallback.Called` | backend/src/services/price/priceService.ts:17-26 | the providers called form a prefix of the list; every one called before the last threw; when the prefix is shorter than the list, its last member answered |
| `PriceService.AdjustPercentChange` | backend/src/services/price/priceService.ts:54-56 | the adjusted change has two places and is within half a cent of base minus quote, with a missing quote counted as 0 |
| `PriceService.Derive` | backend/src/services/price/priceService.ts:49-68 | price within half a cent of base price / quote price (1 without a quote); each of the 1h, 24h and 7d changes is Round2 of the base change minus the quote change (minus 0 without a quote); market cap, volume, time copied from the base; `base`/`quote` are the caller's strings |
| `PriceService.Resolve` | backend/src/services/price/priceService.ts:12-68 | the call fails exactly when every provider throws for the base, then with ALL_PROVIDERS_FAILED whatever the quote; a result carries the caller's symbols; only a division, after a base success, needs a non-zero quote price |
| `PriceService.Trace` | backend/src/services/price/priceService.ts:17-47 | at most 2·(number of providers) calls, each to a listed provider on the base or the quote symbol; a call not on the base only after a base success and for a quote other than USD/USDT |
| `PriceService.TryProviders` | backend/src/services/price/priceService.ts:17-26 | the loop's record is the first provider's answer that is not a throw; its calls are exactly the providers up to that one |
| `PriceService.PriceService.GetCryptoPrice` | backend/src/services/price/priceService.ts:12-69 | returns `Resolve` and makes exactly the calls of `Trace`: base leg, then a quote leg only after a base success and for a quote other than USD/USDT |
| `PriceService.BaseFailureIsTerminal` | backend/src/services/price/priceService.ts:28-33 | with every provider failing for the base (none at all included) the result is ALL_PROVIDERS_FAILED for any quote, each provider is called once on the base and no quote call is made |
| `PriceService.BaseStopsAtFirstSuccess` | backend/src/services/price/priceService.ts:17-26 | the calls start with providers 0..k on the base when k is the first to answer; all later calls are quote calls |
| `PriceService.UsdQuoteSkipsQuoteLeg` | backend/src/services/price/priceService.ts:37-47 | for the exact strings USD and USDT no quote call is made; price and changes are the base values rounded |
| `PriceService.QuoteFailureDegrades` | backend/src/services/price/priceService.ts:38-54 | a quote no provider can price still succeeds, with the values a USD quote gives (price / 1, changes − 0) |
| `PriceService.CrossRate` | backend/src/services/price/priceService.ts:50-65 | with a priced quote: price = Round2(base / quote), each change = Round2(base − quote), market cap, volume and time from the base |
| `PriceService.UsdtKeepsTwoDpRecord` | backend/src/services/price/__tests__/priceService.test.ts:21-40 | for USDT, a base record already at two places that carries the request's symbols is returned unchanged |
| `CmcProvider.CacheKey` | backend/src/services/price/providers/coinMarketCapProvider.ts:37 | the key is `cmc_` followed by the lower-cased symbol, so it has no upper-case letter |
| `CmcProvider.FormatNumber` | backend/src/services/price/providers/coinMarketCapProvider.ts:15-17 | null/undefined give 0; a number is rounded to two places and moves by at most half a cent |
| `CmcProvider.FormatNumberKeepsTwoDp` | backend/src/services/price/providers/coinMarketCapProvider.ts:15-17 | a number that already has two places is kept as it is |
| `CmcProvider.FindUsdQuote` | backend/src/services/price/providers/coinMarketCapProvider.ts:61-69 | a USD quote is found exactly when the payload has an entry under the symbol as given and that entry has a USD quote; the quote found is `data[symbol].quote.USD` |
| `CmcProvider.Normalize` | backend/src/services/price/providers/coinMarketCapProvider.ts:71-79 | all six numbers are normalised forms of their upstream values; the timestamp is the upstream one when non-empty, else now |
| `CmcProvider.Fetch` | backend/src/services/price/providers/coinMarketCapProvider.ts:44-86 | any failure, whatever its cause, is the one API_ERROR; success exactly when a USD quote is found |
| `CmcProvider.InnerCodesDoNotEscape` | backend/src/services/price/providers/coinMarketCapProvider.ts:83-86 | DATA_NOT_FOUND / QUOTE_NOT_FOUND never come out; a missing entry surfaces as API_ERROR |
| `CmcProvider.EmptyQuoteGivesZeros` | backend/src/services/price/providers/__tests__/coinMarketCapProvider.test.ts:129-162 | a quote with every field null or missing gives zeros and the current time |
| `CmcProvider.CoinMarketCapProvider.GetPrice` | backend/src/services/price/providers/coinMarketCapProvider.ts:36-87 | a hit under `cmc_<lower symbol>` is returned with no request and no cache change; a miss sends (symbol as given, USD, key) and stores the record only on success |
| `CmcProvider.NewCoinMarketCapProvider` | backend/src/services/price/providers/coinMarketCapProvider.ts:9-13 | construction fails exactly for an empty API key, with 'CoinMarketCap API key is required' |
| `CmcProvider.GetPriceTwice` | backend/src/services/price/providers/coinMarketCapProvider.ts:37-42 | after a successful call, a second call for the same symbol in any letter case returns the same record and sends nothing |
| `GeckoProvider.CacheKey` | backend/src/services/price/providers/coinGeckoProvider.ts:10 | the key is `coingecko_` followed by the lower-cased symbol, so it has no upper-case letter |
| `GeckoProvider.RequestPath` | backend/src/services/price/providers/coinGeckoProvider.ts:19 | the path is `/coins/` followed by the lower-cased symbol, so it has no upper-case letter |
| `GeckoProvider.Fetch` | backend/src/services/price/providers/coinGeckoProvider.ts:33-49 | the `.usd` entries and `last_updated` are copied unchanged; a missing sub-object or a transport failure is the one `coingecko` error |
| `GeckoProvider.CoinGeckoProvider.GetPrice` | backend/src/services/price/providers/coinGeckoProvider.ts:9-50 | a hit under `coingecko_<lower symbol>` is returned with no request; a miss requests `/coins/<lower symbol>` and stores only on success |
| `CacheKeys.CmcKeySharedIffSameLower` | backend/src/services/price/providers/coinMarketCapProvider.ts:37 | two symbols share a CoinMarketCap entry exactly when they agree up to letter case |
| `CacheKeys.GeckoKeySharedIffSameLower` | backend/src/services/price/providers/coinGeckoProvider.ts:10 | two symbols share a CoinGecko entry exactly when they agree up to letter case |
| `CacheKeys.CurrentNamespacesDisjoint` | backend/src/services/price/providers/coinGeckoProvider.ts:10-11 | in the shared cache no CoinMarketCap key equals a CoinGecko key |
| `CacheKeys.PairKeyInjective` | backend/src/services/providers/coinMarketCapProvider.ts:21 | a prefix-symbol-`_`-symbol key determines both symbols when neither contains `_` |
| `CacheKeys.LegacyCmcKeyIdentifiesPair` | backend/src/services/providers/coinMarketCapProvider.ts:19-21 | for symbols without `_`, two pairs share an entry exactly when their upper-cased forms agree |
| `CacheKeys.LegacyGeckoKeyIdentifiesPair` | backend/src/services/providers/coinGeckoProvider.ts:15-17 | for symbols without `_`, two pairs share an entry exactly when their lower-cased forms agree |
| `CacheKeys.LegacyCmcKeyCollision` | backend/src/services/providers/coinMarketCapProvider.ts:21 | with `_` inside a symbol, the pairs (A_B, C) and (A, B_C) share one entry |
| `LegacyCmcProvider.CacheKey` | backend/src/services/providers/coinMarketCapProvider.ts:19-21 | the key is `cmc_`, then the upper-cased base, `_`, and the upper-cased quote; after the prefix no lower-case letter is left |
| `LegacyCmcProvider.QuoteData` | backend/src/services/providers/coinMarketCapProvider.ts:38-39 | the quote is found exactly when `data[BASE]` has a first listing whose quote object has QUOTE; the quote found is `data[BASE][0].quote[QUOTE]` |
| `LegacyCmcProvider.Fetch` | backend/src/services/providers/coinMarketCapProvider.ts:26-67 | success exactly when the price is present and non-zero; the result's top-level and nested symbols are upper-cased; failures are `coinmarketcap` errors: a transport failure carries its own message, any payload failure 'Price not found' |
| `LegacyCmcProvider.FetchCopiesQuote` | backend/src/services/providers/coinMarketCapProvider.ts:49-55 | numbers and timestamp are the upstream quote's own |
| `LegacyCmcProvider.ZeroPriceRejected` | backend/src/services/providers/coinMarketCapProvider.ts:41 | a price of 0 is rejected with 'Price not found' |
| `LegacyCmcProvider.CoinMarketCapProvider.GetPrice` | backend/src/services/providers/coinMarketCapProvider.ts:18-68 | a hit under `cmc_<BASE>_<QUOTE>` is returned with no request; a miss requests the upper-cased pair and stores only on success |
| `LegacyGeckoProvider.CacheKey` | backend/src/services/providers/coinGeckoProvider.ts:15-17 | the key is `gecko_`, then the lower-cased base, `_`, and the lower-cased quote; no upper-case letter is left |
| `LegacyGeckoProvider.Fetch` | backend/src/services/providers/coinGeckoProvider.ts:22-59 | fails exactly on transport failure or a missing base entry; a transport failure carries its own message, a missing entry 'Price not found'; fields read under `q`, `q_24h_change`, `q_market_cap`, `q_24h_vol`; no 1h/7d; symbols upper-cased; time is now |
| `LegacyGeckoProvider.CoinGeckoProvider.GetPrice` | backend/src/services/providers/coinGeckoProvider.ts:14-60 | a hit under `gecko_<base>_<quote>` is returned with no request; a miss requests the lower-cased pair and stores only on success |
| `LegacyPriceService.Resolve` | backend/src/services/priceService.ts:11-28 | CoinMarketCap's answer if it answers, else CoinGecko's; when both throw, code `all` with CoinGecko's (the last) message embedded |
| `LegacyPriceService.GetCryptoPrice` | backend/src/services/priceService.ts:11-29 | returns `Resolve`; calls the providers in the fixed order, each with (base, quote) unchanged, and stops at the first that answers |
| `LegacyPriceService.GeckoOnlyAfterCmcFails` | backend/src/services/priceService.ts:6-16 | CoinGecko is called only after CoinMarketCap has thrown |
| `Validation.ValidatePriceRequest` | backend/src/middleware/validation.ts:4-24 | `next()` exactly when both are strings of 1-10 characters; otherwise the first failing check in the order base presence, quote presence, base length, quote length decides the message |
| `Validation.NoCharacterRestriction` | backend/src/middleware/validation.ts:15-21 | any characters pass when the lengths are right |
| `ValidateInput.AllAlphanumericIff` | backend/src/middleware/validateInput.ts:4 | the pattern's left-to-right reading agrees with "every character is in [A-Za-z0-9]" |
| `ValidateInput.MatchesPattern` | backend/src/middleware/validateInput.ts:4 | the pattern accepts exactly the non-empty strings whose every character is in [A-Za-z0-9] |
| `ValidateInput.SymbolIssues` | backend/src/middleware/validateInput.ts:4 | a field has no issue exactly when it is a string of 1-10 ASCII letters or digits; every issue names the field |
| `ValidateInput.ValidateInput` | backend/src/middleware/validateInput.ts:11-25 | `next()` exactly when both symbols are valid; otherwise 400, 'Invalid input parameters', and details naming each invalid field and only those |
| `ErrorHandler.HandleError` | backend/src/middleware/errorHandler.ts:5-30 | logs message and stack; status 'fail' always; an AppError answers its own status and message with no stack; any other error answers 500 'Internal server error', with the stack only when NODE_ENV is exactly 'development' |
| `ErrorHandler.OtherErrorMessageHidden` | backend/src/middleware/errorHandler.ts:20-29 | the answer to an error that is not an AppError does not depend on its message |

## Left out

- Binary floating point. Prices are exact reals. `Round2` is toFixed's rule (round half away from zero) applied to the exact value, so IEEE artefacts, NaN and Infinity are not represented.
- PriceService.PriceService.GetCryptoPrice: requires a non-zero quote price only when a division happens, that is once the base leg has a record and the quote leg found one. In the source a zero quote price (CoinMarketCap normalises a missing price to 0) then gives Infinity or NaN, which reals cannot express. A failing base leg is covered for every quote.
- Case mapping covers ASCII letters only. Unicode case rules of `toLowerCase`/`toUpperCase` are not modelled, and string length is the number of characters rather than UTF-16 code units.
- Cache expiry: the TTL of the cache store is not modelled, so entries never expire. `cacheService.del` is not used by the pipeline and is not modelled.
- HTTP plumbing: URLs, headers other than the API key, timeouts and the other query parameters are not modelled. A response is an input value.
- Logging (`logger`, `console.error`, `logError`) is not modelled. The only exception is the error handler's log record, whose content is a promised behaviour.
- A provider whose answer for a symbol changes within one `getCryptoPrice` call (a retry on the quote leg after a base-leg failure on the same symbol) is not modelled. Each provider has one fixed answer per symbol.
- Asynchrony: provider calls are sequential steps. There is no concurrency in the pipeline.
- The older providers' module-load checks of environment variables, `utils/config.ts`, and the app, server, route and controller wiring are configuration, not decision logic.
- `utils/errors` is not part of this model. `ProviderError` is a message and a code. The error handler sees an `AppError` with its status code, or any other error. The status code a `ProviderError` or `ValidationError` carries is not known here.
- GeckoProvider.Fetch: two kinds of `undefined` are not expressible. A sub-object present without a `usd` entry would store `undefined` in the source, but the model's payload carries the `usd` number whenever the sub-object is present. A payload without `last_updated` would also store `undefined`, but the model's `lastUpdated` is always a string.
- ValidateInput.ValidateInput: the `next(error)` branch for errors other than schema errors is not modelled. Parsing a plain query object raises only schema errors. The issue message texts are the schema library's own and are represented by issue kinds.
- PriceService.Resolve: the last provider error kept by the base loop is only logged, so the model does not keep it.
- The frontend is not modelled.
