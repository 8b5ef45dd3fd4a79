/**
 * The currency service: the exchange-rate cache, conversion, the formatting
 * choices per currency and the stored currency preference. The static fields
 * and the two AsyncStorage entries are the fields of `CurrencyState`; the
 * clock, the outcome of the rates request and of each storage write are
 * parameters.
 */
module CurrencyService {
  import opened Common
  import opened DebtModel

  /** An exchange-rate table: currency code to units per base unit. */
  type Rates = map<string, real>

  /** One hour, in milliseconds. */
  const RatesCacheDuration: int := 60 * 60 * 1000

  /** The stored `exchange_rates` entry. */
  datatype StoredRates = NoRates | UnreadableRates | SavedRates(rates: Rates, timestamp: int)

  /** `getFallbackRates`. */
  const FallbackRates: Rates :=
    map["USD" := 1.0, "EUR" := 0.85, "GBP" := 0.73, "CAD" := 1.25, "JPY" := 110.0, "AUD" := 1.35, "CHF" := 0.92]

  /** `getCachedRates`: the stored table while it is younger than an hour. */
  function CachedRates(stored: StoredRates, now: int): (r: Option<Rates>)
    ensures r.Some? <==> stored.SavedRates? && now - stored.timestamp < RatesCacheDuration
    ensures r.Some? ==> r.value == stored.rates
  {
    if stored.SavedRates? && now - stored.timestamp < RatesCacheDuration then Some(stored.rates) else None
  }

  /** `isRatesCacheValid`: the in-memory update time is set and younger than an hour. */
  predicate CacheValid(lastRatesUpdate: Option<int>, now: int) {
    lastRatesUpdate.Some? && now - lastRatesUpdate.value < RatesCacheDuration
  }

  /** The service's static fields and its stored rates entry. */
  datatype RatesState = RatesState(exchangeRates: Rates, lastRatesUpdate: Option<int>, stored: StoredRates)

  /** Where the returned table comes from. */
  datatype Source = CacheHit | Fetched | CachedAfterFailure | Fallback

  datatype RatesOutcome = RatesOutcome(state: RatesState, rates: Rates, source: Source)

  /**
   * `getExchangeRates` as a transition: `fetched` is the table the request
   * returns, or `None` when it fails; `writeOk` says whether storing it works.
   */
  function GetRates(s: RatesState, now: int, fetched: Option<Rates>, writeOk: bool): RatesOutcome {
    var cached := CachedRates(s.stored, now);
    if cached.Some? && CacheValid(s.lastRatesUpdate, now) then
      RatesOutcome(s.(exchangeRates := cached.value), cached.value, CacheHit)
    else if fetched.Some? then
      var stored := if writeOk then SavedRates(fetched.value, now) else s.stored;
      RatesOutcome(RatesState(fetched.value, Some(now), stored), fetched.value, Fetched)
    else if cached.Some? then
      RatesOutcome(s, cached.value, CachedAfterFailure)
    else
      RatesOutcome(s, FallbackRates, Fallback)
  }

  /**
   * The request is skipped exactly when the stored table is younger than an
   * hour and the in-memory update time is set and younger than an hour; the
   * stored table is then returned whatever base currency was asked for.
   */
  lemma CacheHitIff(s: RatesState, now: int, fetched: Option<Rates>, writeOk: bool)
    ensures var o := GetRates(s, now, fetched, writeOk);
      && (o.source == CacheHit <==>
            s.stored.SavedRates? && now - s.stored.timestamp < RatesCacheDuration
            && s.lastRatesUpdate.Some? && now - s.lastRatesUpdate.value < RatesCacheDuration)
      && (o.source == CacheHit ==> o.rates == s.stored.rates && o.state.stored == s.stored
                                   && o.state.lastRatesUpdate == s.lastRatesUpdate)
  {
  }

  /** After a restart the in-memory update time is unset, so the table is always requested. */
  lemma ColdStartRequests(s: RatesState, now: int, fetched: Option<Rates>, writeOk: bool)
    requires s.lastRatesUpdate.None?
    ensures GetRates(s, now, fetched, writeOk).source != CacheHit
    ensures fetched.Some? ==> GetRates(s, now, fetched, writeOk).rates == fetched.value
  {
  }

  /**
   * A successful request stores `{rates, now}` (when the write works), sets
   * both static fields, and returns the fetched table.
   */
  lemma SuccessfulFetchRecorded(s: RatesState, now: int, rates: Rates, writeOk: bool)
    requires !(CachedRates(s.stored, now).Some? && CacheValid(s.lastRatesUpdate, now))
    ensures var o := GetRates(s, now, Some(rates), writeOk);
      && o.rates == rates && o.source == Fetched
      && o.state.exchangeRates == rates && o.state.lastRatesUpdate == Some(now)
      && o.state.stored == (if writeOk then SavedRates(rates, now) else s.stored)
  {
  }

  /**
   * A failed request returns the stored table only while it is younger than
   * an hour, otherwise the fixed fallback table; nothing is updated.
   */
  lemma FailureFallsBack(s: RatesState, now: int, writeOk: bool)
    requires !(CachedRates(s.stored, now).Some? && CacheValid(s.lastRatesUpdate, now))
    ensures var o := GetRates(s, now, None, writeOk);
      && o.state == s
      && (s.stored.SavedRates? && now - s.stored.timestamp < RatesCacheDuration ==> o.rates == s.stored.rates)
      && (!(s.stored.SavedRates? && now - s.stored.timestamp < RatesCacheDuration) ==> o.rates == FallbackRates)
  {
  }

  /** A stored table an hour old or older is never returned, whatever happens. */
  lemma StaleRatesNeverReturned(s: RatesState, now: int, fetched: Option<Rates>, writeOk: bool)
    requires s.stored.SavedRates? && now - s.stored.timestamp >= RatesCacheDuration
    ensures var o := GetRates(s, now, fetched, writeOk);
      && (o.source == Fetched || o.source == Fallback)
      && (fetched.Some? ==> o.rates == fetched.value)
      && (fetched.None? ==> o.rates == FallbackRates)
  {
  }

  /**
   * Two calls less than an hour apart, the first of which fetched and stored
   * a table: the second returns that table without a request, whatever the
   * request would have returned.
   */
  lemma SecondCallWithinHourHitsCache(s: RatesState, t0: int, t1: int, rates: Rates,
                                      fetched: Option<Rates>, writeOk: bool)
    requires !(CachedRates(s.stored, t0).Some? && CacheValid(s.lastRatesUpdate, t0))
    requires t0 <= t1 < t0 + RatesCacheDuration
    ensures var first := GetRates(s, t0, Some(rates), true);
      var second := GetRates(first.state, t1, fetched, writeOk);
      && second.source == CacheHit
      && second.rates == rates
      && second.state == first.state
  {
  }

  /** `rates[to]` when it exists and is not 0, as `!rate` tests. */
  function RateFor(rates: Rates, to: string): Option<real> {
    if to in rates && rates[to] != 0.0 then Some(rates[to]) else None
  }

  /** The conversion once the table is known: the original amount when there is no usable rate. */
  function ConvertWith(rates: Rates, amount: real, to: string): (r: real)
    ensures RateFor(rates, to).None? ==> r == amount
    ensures RateFor(rates, to).Some? ==> r == amount * rates[to]
  {
    match RateFor(rates, to)
    case Some(rate) => amount * rate
    case None => amount
  }

  /**
   * Converting there and back within the hour: the back conversion reads the
   * same table the first conversion fetched and stored, whatever its base,
   * so the amount is multiplied by the table's rate for each target in turn
   * (not by a rate and its reciprocal).
   */
  lemma ConvertBackReusesTable(s: RatesState, t0: int, t1: int, rates: Rates, fetched: Option<Rates>,
                               writeOk: bool, amount: real, from: string, to: string)
    requires !(CachedRates(s.stored, t0).Some? && CacheValid(s.lastRatesUpdate, t0))
    requires t0 <= t1 < t0 + RatesCacheDuration
    ensures var first := GetRates(s, t0, Some(rates), true);
      var there := ConvertWith(first.rates, amount, to);
      var second := GetRates(first.state, t1, fetched, writeOk);
      && second.rates == first.rates
      && ConvertWith(second.rates, there, from) == ConvertWith(rates, ConvertWith(rates, amount, to), from)
    ensures RateFor(rates, to).Some? && RateFor(rates, from).Some? ==>
      ConvertWith(rates, ConvertWith(rates, amount, to), from) == amount * rates[to] * rates[from]
  {
    SecondCallWithinHourHitsCache(s, t0, t1, rates, fetched, writeOk);
  }

  /** Every fallback rate is usable, so with the fallback table conversion never falls back silently for a supported code. */
  lemma FallbackCoversSupported(code: string)
    requires IsSupportedCode(code)
    ensures RateFor(FallbackRates, code).Some?
  {
    var i :| 0 <= i < |SupportedCurrencies| && SupportedCurrencies[i].code == code;
    assert i == 0 || i == 1 || i == 2 || i == 3 || i == 4 || i == 5 || i == 6;
  }

  /** `minimumFractionDigits`/`maximumFractionDigits`: none for the yen, two otherwise. */
  function FractionDigits(code: string): (n: nat)
    ensures n == 0 <==> code == "JPY"
    ensures n == 0 || n == 2
  {
    if code == "JPY" then 0 else 2
  }

  /** `getLocaleForCurrency`. */
  function LocaleFor(code: string): (locale: string)
    ensures locale == "en-US" <==> code == "USD" || !IsSupportedCode(code)
  {
    SupportedCodeList(code);
    if code == "USD" then "en-US"
    else if code == "EUR" then "de-DE"
    else if code == "GBP" then "en-GB"
    else if code == "CAD" then "en-CA"
    else if code == "JPY" then "ja-JP"
    else if code == "AUD" then "en-AU"
    else if code == "CHF" then "de-CH"
    else "en-US"
  }

  /** The locale and digit count `formatAmount` hands to the number formatter. */
  datatype FormatChoice = FormatChoice(locale: string, fractionDigits: nat)

  function FormatChoiceFor(c: Currency): (f: FormatChoice)
    ensures f.fractionDigits == (if c.code == "JPY" then 0 else 2)
  {
    FormatChoice(LocaleFor(c.code), FractionDigits(c.code))
  }

  /** `getCurrencyByCode`: the first supported currency with that code. */
  function CurrencyByCode(code: string): (r: Option<Currency>)
    ensures r.None? <==> !IsSupportedCode(code)
    ensures r.Some? ==> r.value in SupportedCurrencies && r.value.code == code
  {
    FindCode(SupportedCurrencies, code)
  }

  function FindCode(cs: seq<Currency>, code: string): (r: Option<Currency>)
    ensures r.None? <==> forall i :: 0 <= i < |cs| ==> cs[i].code != code
    ensures r.Some? ==> r.value in cs && r.value.code == code
  {
    if cs == [] then None
    else if cs[0].code == code then Some(cs[0])
    else
      var r := FindCode(cs[1..], code);
      assert forall i :: 1 <= i < |cs| ==> cs[i] == cs[1..][i - 1];
      r
  }

  lemma {:induction false} FindCodeAt(cs: seq<Currency>, i: nat)
    requires i < |cs|
    requires forall j :: 0 <= j < i ==> cs[j].code != cs[i].code
    ensures FindCode(cs, cs[i].code) == Some(cs[i])
  {
    if i > 0 {
      assert forall j :: 0 <= j < i - 1 ==> cs[1..][j] == cs[j + 1];
      FindCodeAt(cs[1..], i - 1);
    }
  }

  /** Looking up the code of any table entry finds that entry: the codes are distinct. */
  lemma CurrencyByCodeFindsEntry(i: nat)
    requires i < |SupportedCurrencies|
    ensures CurrencyByCode(SupportedCurrencies[i].code) == Some(SupportedCurrencies[i])
  {
    FindCodeAt(SupportedCurrencies, i);
  }

  /** The stored `currency_preference` entry. */
  datatype StoredPreference = NoPreference | UnreadablePreference | SavedPreference(selected: Currency, lastUpdated: string)

  /** `getSelectedCurrency`: the stored currency, else the default (US dollar). */
  function SelectedCurrency(stored: StoredPreference): (c: Currency)
    ensures !stored.SavedPreference? ==> c == DefaultCurrency && c.code == "USD"
  {
    if stored.SavedPreference? then stored.selected else DefaultCurrency
  }

  /** The static fields of the service and its two storage entries. */
  class CurrencyState {
    var exchangeRates: Rates
    var lastRatesUpdate: Option<int>
    var storedRates: StoredRates
    var storedPreference: StoredPreference

    /** A fresh start: empty table, no update time, and whatever storage holds. */
    constructor (storedRates: StoredRates, storedPreference: StoredPreference)
      ensures exchangeRates == map[] && lastRatesUpdate == None
      ensures this.storedRates == storedRates && this.storedPreference == storedPreference
    {
      exchangeRates := map[];
      lastRatesUpdate := None;
      this.storedRates := storedRates;
      this.storedPreference := storedPreference;
    }

    function Rates(): RatesState
      reads this
    {
      RatesState(exchangeRates, lastRatesUpdate, storedRates)
    }

    /**
     * `getExchangeRates(baseCurrency)`. The base only shapes the request,
     * whose result is `fetched`; the cache does not record it.
     */
    method GetExchangeRates(baseCurrency: string, now: int, fetched: Option<Rates>, writeOk: bool)
      returns (rates: Rates)
      modifies this
      ensures var o := GetRates(old(Rates()), now, fetched, writeOk);
        rates == o.rates && Rates() == o.state
      ensures storedPreference == old(storedPreference)
    {
      var cached := CachedRates(storedRates, now);
      if cached.Some? && CacheValid(lastRatesUpdate, now) {
        exchangeRates := cached.value;
        return cached.value;
      }
      if fetched.Some? {
        if writeOk {
          storedRates := SavedRates(fetched.value, now);
        }
        exchangeRates := fetched.value;
        lastRatesUpdate := Some(now);
        return fetched.value;
      }
      var again := CachedRates(storedRates, now);
      if again.Some? {
        return again.value;
      }
      return FallbackRates;
    }

    /**
     * `convertAmount`: the amount itself when both codes are equal, without
     * touching the cache; otherwise the amount at the table's rate for `to`.
     */
    method ConvertAmount(amount: real, from: string, to: string, now: int, fetched: Option<Rates>, writeOk: bool)
      returns (r: real)
      modifies this
      ensures from == to ==> r == amount && Rates() == old(Rates())
      ensures from != to ==>
        var o := GetRates(old(Rates()), now, fetched, writeOk);
        r == ConvertWith(o.rates, amount, to) && Rates() == o.state
      ensures storedPreference == old(storedPreference)
    {
      if from == to {
        return amount;
      }
      var rates := GetExchangeRates(from, now, fetched, writeOk);
      r := ConvertWith(rates, amount, to);
    }

    method GetSelectedCurrency() returns (c: Currency)
      ensures c == SelectedCurrency(storedPreference)
    {
      if storedPreference.SavedPreference? {
        return storedPreference.selected;
      }
      return DefaultCurrency;
    }

    /** `setSelectedCurrency`: a failed write is swallowed. */
    method SetSelectedCurrency(c: Currency, nowIso: string, writeOk: bool)
      modifies this
      ensures storedPreference == if writeOk then SavedPreference(c, nowIso) else old(storedPreference)
      ensures writeOk ==> SelectedCurrency(storedPreference) == c
      ensures Rates() == old(Rates())
    {
      if writeOk {
        storedPreference := SavedPreference(c, nowIso);
      }
    }
  }
}
