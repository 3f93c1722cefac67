/** src/lib/fx.ts: fiat to sats conversion. Bitcoin prices come from a
    fixed list of sources tried in order; a successful rate is cached per
    currency for ten minutes, and so is the USD conversion multiplier.
    Prices, rate tables and the clock are inputs: one price outcome and
    one rate-table outcome per source attempt, and `now` in milliseconds. */
module Fx {
  import opened Common

  /** Ten minutes in milliseconds. */
  const CacheDuration: int := 600000

  const SatsPerBtc: real := 100000000.0

  /** The names of the price sources, in the order they are tried. */
  const FxSources: seq<string> := ["CoinGecko", "CoinDesk"]

  const SupportedCurrencies: seq<string> := ["USD", "EUR", "AUD", "HKD", "SGD"]

  /** A Bitcoin price as a source reports it, in USD. */
  type Price = x: real | x > 0.0 witness 1.0

  /** Sats per unit of a currency. */
  datatype FxRate = FxRate(currency: string, rate: int, source: string, timestamp: int)

  datatype CachedRate = CachedRate(rate: FxRate, expiry: int)

  /** A conversion multiplier that passed the `!rate` check. */
  type Multiplier = x: real | x != 0.0 witness 1.0

  datatype CachedConversion = CachedConversion(rate: Multiplier, expiry: int)

  /** Why one source attempt failed. */
  datatype SourceError =
    | FetchFailed(source: string, cause: string)
    | CurrencyNotFound(currency: string)

  datatype FxError =
    | UnsupportedCurrency(currency: string)
    | AllSourcesFailed(lastError: Option<SourceError>)

  /** The approximate multipliers used when the live rate table cannot be fetched. */
  const FallbackRates: map<string, real> := map["EUR" := 0.85, "AUD" := 1.5, "HKD" := 7.8, "SGD" := 1.35, "USD" := 1.0]

  /** `fetchCurrencyRates`: the live table when the fetch succeeded, else the fallback table. */
  function FetchCurrencyRates(feed: Option<map<string, real>>): map<string, real>
  {
    if feed.Some? then feed.value else FallbackRates
  }

  /** The cache key of a conversion multiplier. */
  function ConversionKey(target: string): string
  {
    "currency_" + target
  }

  // ---------------------------------------------------------------- conversion multiplier

  datatype ConversionOutcome = ConversionOutcome(result: Result<Multiplier, SourceError>, conv: map<string, CachedConversion>)

  /** `getCurrencyRate`: 1 for USD; a live cache entry; else the fetched
      table's entry, cached for ten minutes. A missing or zero entry is an
      error and caches nothing. */
  function ConversionRate(conv: map<string, CachedConversion>, target: string, feed: Option<map<string, real>>, now: int): (o: ConversionOutcome)
    ensures o.result.Failure? ==> o.conv == conv
    ensures o.result.Success? && o.conv != conv ==>
      o.conv == conv[ConversionKey(target) := CachedConversion(o.result.value, now + CacheDuration)]
  {
    var key := ConversionKey(target);
    if target == "USD" then ConversionOutcome(Success(1.0), conv)
    else if key in conv && now < conv[key].expiry then
      ConversionOutcome(Success(conv[key].rate), conv)
    else
      var rates := FetchCurrencyRates(feed);
      if target !in rates || rates[target] == 0.0 then ConversionOutcome(Failure(CurrencyNotFound(target)), conv)
      else ConversionOutcome(Success(rates[target]), conv[key := CachedConversion(rates[target], now + CacheDuration)])
  }

  /** Converting to USD consults nothing and changes nothing. */
  lemma ConversionUsdIsOne(conv: map<string, CachedConversion>, feed: Option<map<string, real>>, now: int)
    ensures ConversionRate(conv, "USD", feed, now) == ConversionOutcome(Success(1.0), conv)
  {
  }

  /** A live cache entry is answered without a fetch and the cache is kept. */
  lemma ConversionCacheHit(conv: map<string, CachedConversion>, target: string, feed: Option<map<string, real>>, now: int)
    requires target != "USD"
    requires ConversionKey(target) in conv && now < conv[ConversionKey(target)].expiry
    ensures ConversionRate(conv, target, feed, now) == ConversionOutcome(Success(conv[ConversionKey(target)].rate), conv)
  {
  }

  /** When the live table cannot be fetched, the fallback multiplier is used and cached for ten minutes. */
  lemma ConversionFallback(conv: map<string, CachedConversion>, target: string, now: int)
    requires target in FallbackRates && target != "USD"
    requires ConversionKey(target) !in conv
    ensures ConversionRate(conv, target, None, now).result == Success(FallbackRates[target])
    ensures ConversionRate(conv, target, None, now).conv
         == conv[ConversionKey(target) := CachedConversion(FallbackRates[target], now + 600000)]
  {
  }

  /** A code the table lacks fails and leaves the cache as it was. */
  lemma ConversionMissingFails(conv: map<string, CachedConversion>, target: string, feed: Option<map<string, real>>, now: int)
    requires target != "USD"
    requires ConversionKey(target) !in conv
    requires target !in FetchCurrencyRates(feed)
    ensures ConversionRate(conv, target, feed, now) == ConversionOutcome(Failure(CurrencyNotFound(target)), conv)
  {
  }

  // ---------------------------------------------------------------- current rate

  /** `Math.floor(100_000_000 / price)`. */
  function SatsPerUnit(price: real): int
    requires price != 0.0
  {
    (SatsPerBtc / price).Floor
  }

  /** The price in the requested currency: the USD price times the multiplier. */
  function PriceIn(priceUsd: Price, multiplier: Multiplier): (r: real)
    ensures r != 0.0
  {
    priceUsd * multiplier
  }

  /** The rate record of a successful attempt at source `k`. */
  function MakeRate(currency: string, price: real, k: nat, now: int): (r: FxRate)
    requires price != 0.0 && k < |FxSources|
    ensures r.currency == Upper(currency) && r.source == FxSources[k] && r.timestamp == now
  {
    FxRate(Upper(currency), SatsPerUnit(price), FxSources[k], now)
  }

  datatype Attempt = Attempt(result: Result<FxRate, SourceError>, conv: map<string, CachedConversion>)

  /** One iteration of the source loop: fetch the price, convert it when
      the requested code is not literally "USD", and turn it into sats. */
  function TrySource(k: nat, currency: string, price: Result<Price, string>, feed: Option<map<string, real>>,
                     conv: map<string, CachedConversion>, now: int): (a: Attempt)
    requires k < |FxSources|
    ensures a.result.Success? ==> a.result.value.source == FxSources[k] && a.result.value.timestamp == now
                                  && a.result.value.currency == Upper(currency)
    ensures price.Failure? ==> a == Attempt(Failure(FetchFailed(FxSources[k], price.error)), conv)
  {
    match price
    case Failure(msg) => Attempt(Failure(FetchFailed(FxSources[k], msg)), conv)
    case Success(p) =>
      if currency != "USD" then
        var c := ConversionRate(conv, Upper(currency), feed, now);
        match c.result
        case Failure(e) => Attempt(Failure(e), c.conv)
        case Success(m) => Attempt(Success(MakeRate(currency, PriceIn(p, m), k, now)), c.conv)
      else
        Attempt(Success(MakeRate(currency, p, k, now)), conv)
  }

  datatype RateOutcome = RateOutcome(result: Result<FxRate, FxError>, cache: map<string, CachedRate>, conv: map<string, CachedConversion>)

  /** The source loop from source `k` on, remembering the last failure. */
  function TrySources(k: nat, currency: string, prices: seq<Result<Price, string>>, feeds: seq<Option<map<string, real>>>,
                      cache: map<string, CachedRate>, conv: map<string, CachedConversion>, now: int,
                      last: Option<SourceError>): (o: RateOutcome)
    requires |prices| == |FxSources| && |feeds| == |FxSources|
    decreases |FxSources| - k
  {
    if k >= |FxSources| then RateOutcome(Failure(AllSourcesFailed(last)), cache, conv)
    else
      var a := TrySource(k, currency, prices[k], feeds[k], conv, now);
      match a.result
      case Success(rate) =>
        RateOutcome(Success(rate), cache[Upper(currency) := CachedRate(rate, now + CacheDuration)], a.conv)
      case Failure(e) => TrySources(k + 1, currency, prices, feeds, cache, a.conv, now, Some(e))
  }

  predicate CacheHit(cache: map<string, CachedRate>, key: string, now: int)
  {
    key in cache && now < cache[key].expiry
  }

  /** `getCurrentRate`: a live cache entry under the uppercased code; else,
      for a supported code, the first source that succeeds. */
  function CurrentRate(cache: map<string, CachedRate>, conv: map<string, CachedConversion>, currency: string,
                       prices: seq<Result<Price, string>>, feeds: seq<Option<map<string, real>>>, now: int): RateOutcome
    requires |prices| == |FxSources| && |feeds| == |FxSources|
  {
    var key := Upper(currency);
    if CacheHit(cache, key, now) then RateOutcome(Success(cache[key].rate), cache, conv)
    else if key !in SupportedCurrencies then RateOutcome(Failure(UnsupportedCurrency(currency)), cache, conv)
    else TrySources(0, currency, prices, feeds, cache, conv, now, None)
  }

  /** A cached rate is returned unchanged, with nothing consulted and nothing changed. */
  lemma CachedRateIsReturned(cache: map<string, CachedRate>, conv: map<string, CachedConversion>, currency: string,
                             prices: seq<Result<Price, string>>, feeds: seq<Option<map<string, real>>>, now: int)
    requires |prices| == |FxSources| && |feeds| == |FxSources|
    requires Upper(currency) in cache && now < cache[Upper(currency)].expiry
    ensures CurrentRate(cache, conv, currency, prices, feeds, now) == RateOutcome(Success(cache[Upper(currency)].rate), cache, conv)
  {
  }

  /** An unsupported code fails before any source, leaving both caches unchanged. */
  lemma UnsupportedFailsEarly(cache: map<string, CachedRate>, conv: map<string, CachedConversion>, currency: string,
                              prices: seq<Result<Price, string>>, feeds: seq<Option<map<string, real>>>, now: int)
    requires |prices| == |FxSources| && |feeds| == |FxSources|
    requires !CacheHit(cache, Upper(currency), now)
    requires Upper(currency) !in SupportedCurrencies
    ensures CurrentRate(cache, conv, currency, prices, feeds, now) == RateOutcome(Failure(UnsupportedCurrency(currency)), cache, conv)
  {
  }

  /** Whatever the loop returns as a success is cached under the uppercased
      code for ten minutes, stamped with the clock, and names one of the sources;
      a failure leaves the rate cache unchanged and carries the last source error. */
  lemma {:induction false} TrySourcesOutcome(k: nat, currency: string, prices: seq<Result<Price, string>>, feeds: seq<Option<map<string, real>>>,
                                             cache: map<string, CachedRate>, conv: map<string, CachedConversion>, now: int,
                                             last: Option<SourceError>)
    requires |prices| == |FxSources| && |feeds| == |FxSources|
    ensures var o := TrySources(k, currency, prices, feeds, cache, conv, now, last);
      o.result.Success? ==>
        o.result.value.source in FxSources && o.result.value.timestamp == now
        && o.result.value.currency == Upper(currency)
        && o.cache == cache[Upper(currency) := CachedRate(o.result.value, now + 600000)]
    ensures var o := TrySources(k, currency, prices, feeds, cache, conv, now, last);
      o.result.Failure? ==>
        (o.cache == cache && o.result.error.AllSourcesFailed?
         && (k < |FxSources| ==> o.result.error.lastError.Some?))
    decreases |FxSources| - k
  {
    if k < |FxSources| {
      var a := TrySource(k, currency, prices[k], feeds[k], conv, now);
      if a.result.Failure? {
        TrySourcesOutcome(k + 1, currency, prices, feeds, cache, a.conv, now, Some(a.result.error));
      }
    }
  }

  /** The sources are tried in order: when the first source's price fetch
      and, for a code other than literally "USD", its conversion both
      succeed, it answers with `floor(1e8 / (price * multiplier))` (the
      multiplier is 1 for "USD"), and that rate is cached for ten minutes. */
  lemma FirstSourceWins(cache: map<string, CachedRate>, conv: map<string, CachedConversion>, currency: string,
                        prices: seq<Result<Price, string>>, feeds: seq<Option<map<string, real>>>, now: int, m: Multiplier)
    requires |prices| == |FxSources| && |feeds| == |FxSources|
    requires !CacheHit(cache, Upper(currency), now) && Upper(currency) in SupportedCurrencies
    requires prices[0].Success?
    requires currency == "USD" ==> m == 1.0
    requires currency != "USD" ==> ConversionRate(conv, Upper(currency), feeds[0], now).result == Success(m)
    ensures var rate := FxRate(Upper(currency), SatsPerUnit(PriceIn(prices[0].value, m)), "CoinGecko", now);
            var o := CurrentRate(cache, conv, currency, prices, feeds, now);
            o.result == Success(rate) && o.cache == cache[Upper(currency) := CachedRate(rate, now + 600000)]
  {
    assert PriceIn(prices[0].value, 1.0) == prices[0].value;
  }

  /** When the first source fails, at its price fetch or at its conversion,
      the second is asked, with the conversion cache as it was, and its
      success is recorded under its own name. */
  lemma SecondSourceAfterFailure(cache: map<string, CachedRate>, conv: map<string, CachedConversion>, currency: string,
                                 prices: seq<Result<Price, string>>, feeds: seq<Option<map<string, real>>>, now: int, m: Multiplier)
    requires |prices| == |FxSources| && |feeds| == |FxSources|
    requires !CacheHit(cache, Upper(currency), now) && Upper(currency) in SupportedCurrencies
    requires prices[0].Failure? || (currency != "USD" && ConversionRate(conv, Upper(currency), feeds[0], now).result.Failure?)
    requires prices[1].Success?
    requires currency == "USD" ==> m == 1.0
    requires currency != "USD" ==> ConversionRate(conv, Upper(currency), feeds[1], now).result == Success(m)
    ensures var rate := FxRate(Upper(currency), SatsPerUnit(PriceIn(prices[1].value, m)), "CoinDesk", now);
            var o := CurrentRate(cache, conv, currency, prices, feeds, now);
            o.result == Success(rate) && o.cache == cache[Upper(currency) := CachedRate(rate, now + 600000)]
  {
    assert PriceIn(prices[1].value, 1.0) == prices[1].value;
    assert TrySource(0, currency, prices[0], feeds[0], conv, now).conv == conv;
  }

  /** A conversion failure at the first source is caught and the second
      source's conversion is tried afresh: with the first table lacking the
      code and the second carrying it, CoinDesk's rate comes back. */
  lemma ConversionFailureFallsThrough(cache: map<string, CachedRate>, conv: map<string, CachedConversion>, currency: string,
                                      prices: seq<Result<Price, string>>, table0: map<string, real>, table1: map<string, real>, now: int)
    requires |prices| == |FxSources|
    requires currency != "USD" && Upper(currency) != "USD"
    requires !CacheHit(cache, Upper(currency), now) && Upper(currency) in SupportedCurrencies
    requires !(ConversionKey(Upper(currency)) in conv && now < conv[ConversionKey(Upper(currency))].expiry)
    requires prices[0].Success? && prices[1].Success?
    requires Upper(currency) !in table0
    requires Upper(currency) in table1 && table1[Upper(currency)] != 0.0
    ensures var rate := FxRate(Upper(currency), SatsPerUnit(PriceIn(prices[1].value, table1[Upper(currency)])), "CoinDesk", now);
            CurrentRate(cache, conv, currency, prices, [Some(table0), Some(table1)], now).result == Success(rate)
  {
    var key := Upper(currency);
    SecondSourceAfterFailure(cache, conv, currency, prices, [Some(table0), Some(table1)], now, table1[key]);
  }

  /** When every price fetch fails, the error carries the last source's failure and nothing is cached. */
  lemma AllFetchesFail(cache: map<string, CachedRate>, conv: map<string, CachedConversion>, currency: string,
                       prices: seq<Result<Price, string>>, feeds: seq<Option<map<string, real>>>, now: int)
    requires |prices| == |FxSources| && |feeds| == |FxSources|
    requires !CacheHit(cache, Upper(currency), now)
    requires Upper(currency) in SupportedCurrencies
    requires prices[0].Failure? && prices[1].Failure?
    ensures CurrentRate(cache, conv, currency, prices, feeds, now)
         == RateOutcome(Failure(AllSourcesFailed(Some(FetchFailed("CoinDesk", prices[1].error)))), cache, conv)
  {
  }

  // ---------------------------------------------------------------- pure helpers

  /** `convertToSats`: `Math.floor(amount * rate)`. */
  function ConvertToSats(amount: real, fxRate: FxRate): (r: int)
    ensures r as real <= amount * fxRate.rate as real < r as real + 1.0
  {
    (amount * fxRate.rate as real).Floor
  }

  /** `createManualRate`: a user-entered rate, stamped with the clock. */
  function CreateManualRate(currency: string, satsPerUnit: int, now: int): (r: FxRate)
    ensures r.currency == Upper(currency) && r.rate == satsPerUnit
    ensures r.source == "Manual Entry" && r.timestamp == now
  {
    FxRate(Upper(currency), satsPerUnit, "Manual Entry", now)
  }

  const CurrencySymbols: map<string, string> := map["USD" := "$", "EUR" := "€", "AUD" := "A$", "HKD" := "HK$", "SGD" := "S$"]

  const CurrencyNames: map<string, string> :=
    map["USD" := "US Dollar", "EUR" := "Euro", "AUD" := "Australian Dollar", "HKD" := "Hong Kong Dollar", "SGD" := "Singapore Dollar"]

  /** `getCurrencySymbol`: the symbol of a supported code, matched case-insensitively; else the uppercased code. */
  function GetCurrencySymbol(currency: string): (r: string)
    ensures Upper(currency) in CurrencySymbols ==> r == CurrencySymbols[Upper(currency)]
    ensures Upper(currency) !in CurrencySymbols ==> r == Upper(currency)
    ensures r != []  || currency == []
  {
    var key := Upper(currency);
    if key in CurrencySymbols then CurrencySymbols[key] else key
  }

  /** `getCurrencyName`, by the same rule. */
  function GetCurrencyName(currency: string): (r: string)
    ensures Upper(currency) in CurrencyNames ==> r == CurrencyNames[Upper(currency)]
    ensures Upper(currency) !in CurrencyNames ==> r == Upper(currency)
  {
    var key := Upper(currency);
    if key in CurrencyNames then CurrencyNames[key] else key
  }

  /** Every supported code has a symbol and a name of its own. */
  lemma SupportedHaveSymbols(c: string)
    requires c in SupportedCurrencies
    ensures c in CurrencySymbols && c in CurrencyNames && c in FallbackRates
  {
  }

  // ---------------------------------------------------------------- the manager

  /** The two process-wide caches: rates by uppercased code, and conversion
      multipliers by `currency_<code>`. */
  class FxManager {
    var cache: map<string, CachedRate>
    var conversionCache: map<string, CachedConversion>

    constructor()
      ensures cache == map[] && conversionCache == map[]
    {
      cache := map[];
      conversionCache := map[];
    }

    /** `getCurrencyRate` over the conversion cache. */
    method GetCurrencyRate(target: string, feed: Option<map<string, real>>, now: int) returns (r: Result<Multiplier, SourceError>)
      modifies this
      ensures r == ConversionRate(old(conversionCache), target, feed, now).result
      ensures conversionCache == ConversionRate(old(conversionCache), target, feed, now).conv
      ensures cache == old(cache)
    {
      if target == "USD" {
        return Success(1.0);
      }
      var key := ConversionKey(target);
      if key in conversionCache && now < conversionCache[key].expiry {
        return Success(conversionCache[key].rate);
      }
      var rates := FetchCurrencyRates(feed);
      if target !in rates || rates[target] == 0.0 {
        return Failure(CurrencyNotFound(target));
      }
      conversionCache := conversionCache[key := CachedConversion(rates[target], now + CacheDuration)];
      r := Success(rates[target]);
    }

    /** One pass of the source loop: the price fetch, the conversion when the
        code is not literally "USD", and the sats rate. */
    method TrySourceStep(k: nat, currency: string, price: Result<Price, string>, feed: Option<map<string, real>>, now: int)
      returns (attempt: Result<FxRate, SourceError>)
      requires k < |FxSources|
      modifies this
      ensures attempt == TrySource(k, currency, price, feed, old(conversionCache), now).result
      ensures conversionCache == TrySource(k, currency, price, feed, old(conversionCache), now).conv
      ensures cache == old(cache)
    {
      match price {
        case Failure(msg) =>
          attempt := Failure(FetchFailed(FxSources[k], msg));
        case Success(priceUsd) =>
          if currency != "USD" {
            var converted := GetCurrencyRate(Upper(currency), feed, now);
            if converted.Success? {
              attempt := Success(MakeRate(currency, PriceIn(priceUsd, converted.value), k, now));
            } else {
              attempt := Failure(converted.error);
            }
          } else {
            attempt := Success(MakeRate(currency, priceUsd, k, now));
          }
      }
    }

    /** `getCurrentRate`: the cache check, the supported-code check, then the
        loop over the sources with the last failure remembered. */
    method GetCurrentRate(currency: string, prices: seq<Result<Price, string>>, feeds: seq<Option<map<string, real>>>, now: int)
      returns (r: Result<FxRate, FxError>)
      requires |prices| == |FxSources| && |feeds| == |FxSources|
      modifies this
      ensures r == CurrentRate(old(cache), old(conversionCache), currency, prices, feeds, now).result
      ensures cache == CurrentRate(old(cache), old(conversionCache), currency, prices, feeds, now).cache
      ensures conversionCache == CurrentRate(old(cache), old(conversionCache), currency, prices, feeds, now).conv
    {
      var key := Upper(currency);
      if key in cache && now < cache[key].expiry {
        return Success(cache[key].rate);
      }
      if key !in SupportedCurrencies {
        return Failure(UnsupportedCurrency(currency));
      }
      var lastError: Option<SourceError> := None;
      var k := 0;
      while k < |FxSources|
        invariant 0 <= k <= |FxSources|
        invariant cache == old(cache)
        invariant TrySources(k, currency, prices, feeds, cache, conversionCache, now, lastError)
               == TrySources(0, currency, prices, feeds, old(cache), old(conversionCache), now, None)
        decreases |FxSources| - k
      {
        var attempt := TrySourceStep(k, currency, prices[k], feeds[k], now);
        if attempt.Success? {
          cache := cache[key := CachedRate(attempt.value, now + CacheDuration)];
          return Success(attempt.value);
        }
        lastError := Some(attempt.error);
        k := k + 1;
      }
      r := Failure(AllSourcesFailed(lastError));
    }
  }
}
