/**
 * The widget's timeline provider (CurrencyWidgetExtension/CurrencyWidget.swift):
 * the rates shown when nothing can be fetched, the CBR parse with its backup
 * fill-in, the ExchangeRate fallback, the choice between the app's shared
 * snapshot and a fresh fetch, and the small view's ordering of the rates.
 */
module Widget {
  import opened Wrappers
  import opened Doubles
  import opened Rates
  import opened Snapshot

  /** CurrencyRate (line 11), without its formatting helper. */
  datatype CurrencyRate = CurrencyRate(code: string, name: string, rate: Double, flagEmoji: string)

  /** CurrencyRateEntry (line 5); the date is a number of seconds. */
  datatype CurrencyRateEntry = CurrencyRateEntry(date: int, rates: seq<CurrencyRate>)

  /** A row of the widget's `requiredCurrencies` table. */
  datatype WidgetCurrency = WidgetCurrency(code: string, name: string, flagEmoji: string)

  const RequiredCurrencies: seq<WidgetCurrency> := [
    WidgetCurrency("USD", "Доллар США", "🇺🇸"),
    WidgetCurrency("EUR", "Евро", "🇪🇺"),
    WidgetCurrency("TRY", "Турецкая лира", "🇹🇷"),
    WidgetCurrency("AED", "Дирхам ОАЭ", "🇦🇪")
  ]

  /** The rates of `placeholder` and `fallbackEntry`, in RUB per unit. */
  const FallbackRates: seq<CurrencyRate> := [
    CurrencyRate("USD", "Доллар США", Finite(85.5), "🇺🇸"),
    CurrencyRate("EUR", "Евро", Finite(92.7), "🇪🇺"),
    CurrencyRate("TRY", "Турецкая лира", Finite(2.65), "🇹🇷"),
    CurrencyRate("AED", "Дирхам ОАЭ", Finite(23.3), "🇦🇪")
  ]

  /** placeholder(in:), whose rows the source writes out apart from fallbackEntry's. */
  function Placeholder(now: int): (e: CurrencyRateEntry)
    ensures e == FallbackEntry(now)
  {
    CurrencyRateEntry(now, [
      CurrencyRate("USD", "Доллар США", Finite(85.5), "🇺🇸"),
      CurrencyRate("EUR", "Евро", Finite(92.7), "🇪🇺"),
      CurrencyRate("TRY", "Турецкая лира", Finite(2.65), "🇹🇷"),
      CurrencyRate("AED", "Дирхам ОАЭ", Finite(23.3), "🇦🇪")
    ])
  }

  /** fallbackEntry() */
  function FallbackEntry(now: int): CurrencyRateEntry {
    CurrencyRateEntry(now, FallbackRates)
  }

  /** The codes of a list of rates, in order (`rates.map { $0.code }`). */
  function RateCodes(rates: seq<CurrencyRate>): (r: seq<string>)
    ensures |r| == |rates|
    ensures forall i :: 0 <= i < |r| ==> r[i] == rates[i].code
  {
    seq(|rates|, i requires 0 <= i < |rates| => rates[i].code)
  }

  // ---------------------------------------------------------------------------
  // The CBR response (lines 126-186)
  // ---------------------------------------------------------------------------

  /** The backup table of the fill-in loop, with its default of 1.0. */
  function BackupRate(code: string): real {
    if code == "USD" then 85.5
    else if code == "EUR" then 92.7
    else if code == "TRY" then 2.65
    else if code == "AED" then 23.3
    else 1.0
  }

  /** The response prices `code`: the entry is there with a Value and a Nominal. */
  predicate Priced(valute: map<string, CbrEntry>, code: string) {
    code in valute && Complete(valute[code])
  }

  function PricedRecord(valute: map<string, CbrEntry>, t: WidgetCurrency): CurrencyRate
    requires Priced(valute, t.code)
  {
    CurrencyRate(t.code, t.name, CbrRate(valute[t.code]), t.flagEmoji)
  }

  function BackupRecord(t: WidgetCurrency): CurrencyRate {
    CurrencyRate(t.code, t.name, Finite(BackupRate(t.code)), t.flagEmoji)
  }

  /** What the widget should show for one currency: the CBR price, or else the backup. */
  function ExpectedRecord(valute: map<string, CbrEntry>, t: WidgetCurrency): CurrencyRate {
    if Priced(valute, t.code) then PricedRecord(valute, t) else BackupRecord(t)
  }

  /** One expected record per currency of `req`, in the order of `req`. */
  function Expected(valute: map<string, CbrEntry>, req: seq<WidgetCurrency>): (r: seq<CurrencyRate>)
    ensures |r| == |req|
    ensures forall j :: 0 <= j < |req| ==> r[j] == ExpectedRecord(valute, req[j])
  {
    seq(|req|, j requires 0 <= j < |req| => ExpectedRecord(valute, req[j]))
  }

  /** The first loop: the priced currencies of `req`, in order. */
  function Found(valute: map<string, CbrEntry>, req: seq<WidgetCurrency>): seq<CurrencyRate>
    decreases |req|
  {
    if req == [] then []
    else
      var t := req[|req| - 1];
      Found(valute, req[..|req| - 1]) + (if Priced(valute, t.code) then [PricedRecord(valute, t)] else [])
  }

  /** The second loop: a backup record for each currency of `req` whose code is not in `existing`. */
  function Missing(req: seq<WidgetCurrency>, existing: seq<string>): seq<CurrencyRate>
    decreases |req|
  {
    if req == [] then []
    else
      var t := req[|req| - 1];
      Missing(req[..|req| - 1], existing) + (if t.code !in existing then [BackupRecord(t)] else [])
  }

  /** The rates of the entry built from a decoded `Valute` object. */
  function CbrEntryRates(valute: map<string, CbrEntry>): seq<CurrencyRate> {
    var found := Found(valute, RequiredCurrencies);
    if |found| < |RequiredCurrencies| then found + Missing(RequiredCurrencies, RateCodes(found))
    else found
  }

  /** The two loops of simpleFetchCBRF over a decoded `Valute` object. */
  method ParseCbrRates(valute: map<string, CbrEntry>) returns (rates: seq<CurrencyRate>)
    ensures rates == CbrEntryRates(valute)
  {
    rates := [];
    var i := 0;
    while i < |RequiredCurrencies|
      invariant 0 <= i <= |RequiredCurrencies|
      invariant rates == Found(valute, RequiredCurrencies[..i])
    {
      var t := RequiredCurrencies[i];
      if t.code in valute && valute[t.code].value.Some? && valute[t.code].nominal.Some? {
        var rate := Div(Finite(valute[t.code].value.value), Finite(valute[t.code].nominal.value as real));
        rates := rates + [CurrencyRate(t.code, t.name, rate, t.flagEmoji)];
      }
      FoundStep(valute, RequiredCurrencies, i);
      i := i + 1;
    }
    assert RequiredCurrencies[..i] == RequiredCurrencies;
    ghost var found := rates;
    if |rates| < |RequiredCurrencies| {
      var existingCodes := RateCodes(rates);
      i := 0;
      while i < |RequiredCurrencies|
        invariant 0 <= i <= |RequiredCurrencies|
        invariant rates == found + Missing(RequiredCurrencies[..i], existingCodes)
      {
        var t := RequiredCurrencies[i];
        if t.code !in existingCodes {
          var backupRate := BackupRate(t.code);
          rates := rates + [CurrencyRate(t.code, t.name, Finite(backupRate), t.flagEmoji)];
        }
        MissingStep(RequiredCurrencies, existingCodes, i);
        i := i + 1;
      }
      assert RequiredCurrencies[..i] == RequiredCurrencies;
    }
    assert found == Found(valute, RequiredCurrencies);
  }

  /** One turn of the first loop: the next currency is appended when it is priced. */
  lemma FoundStep(valute: map<string, CbrEntry>, req: seq<WidgetCurrency>, i: nat)
    requires i < |req|
    ensures Found(valute, req[..i + 1]) ==
      Found(valute, req[..i]) + (if Priced(valute, req[i].code) then [PricedRecord(valute, req[i])] else [])
  {
    assert req[..i + 1][..i] == req[..i];
  }

  /** One turn of the second loop: the next currency is appended when its code is missing. */
  lemma MissingStep(req: seq<WidgetCurrency>, existing: seq<string>, i: nat)
    requires i < |req|
    ensures Missing(req[..i + 1], existing) ==
      Missing(req[..i], existing) + (if req[i].code !in existing then [BackupRecord(req[i])] else [])
  {
    assert req[..i + 1][..i] == req[..i];
  }

  /** The first loop keeps only priced currencies, each at its CBR price, and all of them. */
  lemma {:induction false} FoundFacts(valute: map<string, CbrEntry>, req: seq<WidgetCurrency>)
    ensures |Found(valute, req)| <= |req|
    ensures forall i :: 0 <= i < |Found(valute, req)| ==> Priced(valute, Found(valute, req)[i].code)
    ensures forall j :: 0 <= j < |req| && Priced(valute, req[j].code) ==>
              PricedRecord(valute, req[j]) in Found(valute, req)
    ensures |Found(valute, req)| == |req| ==> forall j :: 0 <= j < |req| ==> Priced(valute, req[j].code)
    ensures (forall j :: 0 <= j < |req| ==> !Priced(valute, req[j].code)) ==> Found(valute, req) == []
    decreases |req|
  {
    if req != [] {
      var front := req[..|req| - 1];
      FoundFacts(valute, front);
      forall j | 0 <= j < |req| - 1
        ensures req[j] == front[j]
      {
      }
    }
  }

  /** The second loop adds the currencies whose code is missing, at the backup rate. */
  lemma {:induction false} MissingFacts(req: seq<WidgetCurrency>, existing: seq<string>)
    ensures forall i :: 0 <= i < |Missing(req, existing)| ==> Missing(req, existing)[i].code !in existing
    ensures (forall j :: 0 <= j < |req| ==> req[j].code in existing) ==> Missing(req, existing) == []
    ensures existing == [] ==> Missing(req, existing) == seq(|req|, j requires 0 <= j < |req| => BackupRecord(req[j]))
    decreases |req|
  {
    if req != [] {
      var front := req[..|req| - 1];
      MissingFacts(front, existing);
      forall j | 0 <= j < |req| - 1
        ensures req[j] == front[j]
      {
      }
    }
  }

  /**
   * When `existing` names exactly the priced codes, the two loops together
   * yield one record per currency of `req`: the expected ones, in some order.
   */
  lemma {:induction false} FoundAndMissingArePermutation(
    valute: map<string, CbrEntry>, req: seq<WidgetCurrency>, existing: seq<string>)
    requires forall j :: 0 <= j < |req| ==> (req[j].code in existing <==> Priced(valute, req[j].code))
    ensures multiset(Found(valute, req) + Missing(req, existing)) == multiset(Expected(valute, req))
    decreases |req|
  {
    if req != [] {
      var front := req[..|req| - 1];
      var t := req[|req| - 1];
      FoundAndMissingArePermutation(valute, front, existing);
      LastRecordOnce(valute, t, existing);
      ExpectedSnoc(valute, req);
      PermutationStep(Found(valute, front), if Priced(valute, t.code) then [PricedRecord(valute, t)] else [],
                      Missing(front, existing), if t.code !in existing then [BackupRecord(t)] else [],
                      Expected(valute, front), [ExpectedRecord(valute, t)]);
    }
  }

  /** Exactly one of the two loops adds a record for `t`, and it is the expected one. */
  lemma LastRecordOnce(valute: map<string, CbrEntry>, t: WidgetCurrency, existing: seq<string>)
    requires t.code in existing <==> Priced(valute, t.code)
    ensures multiset(if Priced(valute, t.code) then [PricedRecord(valute, t)] else []) +
            multiset(if t.code !in existing then [BackupRecord(t)] else []) ==
            multiset([ExpectedRecord(valute, t)])
  {
  }

  /** The expected records of `req` are those of all but its last currency, then the last one's. */
  lemma ExpectedSnoc(valute: map<string, CbrEntry>, req: seq<WidgetCurrency>)
    requires req != []
    ensures Expected(valute, req) == Expected(valute, req[..|req| - 1]) + [ExpectedRecord(valute, req[|req| - 1])]
  {
  }

  /** Appending `fr` and `mr` to the two halves of a permutation of `x` permutes `x + e` when they hold `e`. */
  lemma PermutationStep<T>(f: seq<T>, fr: seq<T>, m: seq<T>, mr: seq<T>, x: seq<T>, e: seq<T>)
    requires multiset(f + m) == multiset(x)
    requires multiset(fr) + multiset(mr) == multiset(e)
    ensures multiset(f + fr + (m + mr)) == multiset(x + e)
  {
    calc {
      multiset(f + fr + (m + mr));
      multiset(f) + multiset(fr) + multiset(m) + multiset(mr);
      multiset(f + m) + multiset(e);
    }
  }

  /** Every backup record of the second loop is for a currency the response does not price. */
  lemma {:induction false} MissingUnpriced(
    valute: map<string, CbrEntry>, req: seq<WidgetCurrency>, existing: seq<string>)
    requires forall j :: 0 <= j < |req| ==> (req[j].code in existing <==> Priced(valute, req[j].code))
    ensures forall i :: 0 <= i < |Missing(req, existing)| ==> !Priced(valute, Missing(req, existing)[i].code)
    decreases |req|
  {
    if req != [] {
      var front := req[..|req| - 1];
      MissingUnpriced(valute, front, existing);
    }
  }

  /** `existing` of the second loop names exactly the priced required codes. */
  lemma FoundCodesArePriced(valute: map<string, CbrEntry>)
    ensures var found := Found(valute, RequiredCurrencies);
            forall j :: 0 <= j < |RequiredCurrencies| ==>
              (RequiredCurrencies[j].code in RateCodes(found) <==> Priced(valute, RequiredCurrencies[j].code))
  {
    var found := Found(valute, RequiredCurrencies);
    FoundFacts(valute, RequiredCurrencies);
    forall j | 0 <= j < |RequiredCurrencies|
      ensures RequiredCurrencies[j].code in RateCodes(found) <==> Priced(valute, RequiredCurrencies[j].code)
    {
      var c := RequiredCurrencies[j].code;
      if c in RateCodes(found) {
        var i :| 0 <= i < |found| && RateCodes(found)[i] == c;
        assert Priced(valute, found[i].code);
      }
      if Priced(valute, c) {
        var i :| 0 <= i < |found| && found[i] == PricedRecord(valute, RequiredCurrencies[j]);
        assert RateCodes(found)[i] == c;
      }
    }
  }

  /** The entry is the first loop's records followed by the second loop's. */
  lemma CbrEntryRatesSplit(valute: map<string, CbrEntry>)
    ensures var found := Found(valute, RequiredCurrencies);
            CbrEntryRates(valute) == found + Missing(RequiredCurrencies, RateCodes(found))
  {
    var found := Found(valute, RequiredCurrencies);
    var codes := RateCodes(found);
    FoundFacts(valute, RequiredCurrencies);
    if |found| == |RequiredCurrencies| {
      FoundCodesArePriced(valute);
      assert forall j :: 0 <= j < |RequiredCurrencies| ==> RequiredCurrencies[j].code in codes;
      MissingFacts(RequiredCurrencies, codes);
      assert found + Missing(RequiredCurrencies, codes) == found;
    }
  }

  /**
   * A decoded `Valute` object always yields the four widget currencies, each
   * once: at its CBR price when the response has a Value and a Nominal for
   * it, at the backup rate otherwise.
   */
  lemma CbrEntryRatesComplete(valute: map<string, CbrEntry>)
    ensures |CbrEntryRates(valute)| == 4
    ensures multiset(CbrEntryRates(valute)) == multiset(Expected(valute, RequiredCurrencies))
  {
    var found := Found(valute, RequiredCurrencies);
    CbrEntryRatesSplit(valute);
    FoundCodesArePriced(valute);
    FoundAndMissingArePermutation(valute, RequiredCurrencies, RateCodes(found));
    assert |multiset(CbrEntryRates(valute))| == |Expected(valute, RequiredCurrencies)|;
  }

  /** In the entry the currencies the response prices come before the backed-up ones. */
  lemma CbrEntryRatesPricedFirst(valute: map<string, CbrEntry>)
    ensures var r := CbrEntryRates(valute);
            forall i, j :: 0 <= i < j < |r| && Priced(valute, r[j].code) ==> Priced(valute, r[i].code)
  {
    var found := Found(valute, RequiredCurrencies);
    var codes := RateCodes(found);
    var missing := Missing(RequiredCurrencies, codes);
    CbrEntryRatesSplit(valute);
    FoundFacts(valute, RequiredCurrencies);
    FoundCodesArePriced(valute);
    MissingUnpriced(valute, RequiredCurrencies, codes);
    var r := found + missing;
    assert forall i :: 0 <= i < |r| ==> (i < |found| <==> Priced(valute, r[i].code));
  }

  /** With nothing usable in the response, the entry shows exactly the fallback rates. */
  lemma EmptyValuteGivesFallbackRates()
    ensures CbrEntryRates(map[]) == FallbackRates
  {
    FoundFacts(map[], RequiredCurrencies);
    CbrEntryRatesSplit(map[]);
    assert RateCodes([]) == [];
    MissingFacts(RequiredCurrencies, []);
  }

  // ---------------------------------------------------------------------------
  // The ExchangeRate fallback (lines 246-308)
  // ---------------------------------------------------------------------------

  /** The record for `code` at `rub / rates[code]` RUB per unit, when `rates` has the code. */
  function CrossRecord(rates: map<string, real>, rub: real, t: WidgetCurrency): seq<CurrencyRate> {
    if t.code in rates then [CurrencyRate(t.code, t.name, Div(Finite(rub), Finite(rates[t.code])), t.flagEmoji)]
    else []
  }

  /**
   * The rates of the entry built from a decoded `rates` object (USD-based):
   * None when it has no RUB, or no EUR, TRY or AED to go with it.
   */
  function ExchangeRateEntryRates(rates: map<string, real>): Option<seq<CurrencyRate>> {
    if "RUB" !in rates then None
    else
      var rubRate := rates["RUB"];
      var currencyRates :=
        [CurrencyRate("USD", "Доллар США", Finite(rubRate), "🇺🇸")] +
        CrossRecord(rates, rubRate, WidgetCurrency("EUR", "Евро", "🇪🇺")) +
        CrossRecord(rates, rubRate, WidgetCurrency("TRY", "Турецкая лира", "🇹🇷")) +
        CrossRecord(rates, rubRate, WidgetCurrency("AED", "Дирхам ОАЭ", "🇦🇪"));
      if |currencyRates| >= 2 then Some(currencyRates) else None
  }

  /** The appends of fallbackToExchangeRate over a decoded `rates` object. */
  method BuildExchangeRateRates(rates: map<string, real>) returns (result: Option<seq<CurrencyRate>>)
    ensures result == ExchangeRateEntryRates(rates)
  {
    if "RUB" !in rates {
      return None;
    }
    var rubRate := rates["RUB"];
    var currencyRates: seq<CurrencyRate> := [];
    currencyRates := currencyRates + [CurrencyRate("USD", "Доллар США", Finite(rubRate), "🇺🇸")];
    if "EUR" in rates {
      var eurToRub := Div(Finite(rubRate), Finite(rates["EUR"]));
      currencyRates := currencyRates + [CurrencyRate("EUR", "Евро", eurToRub, "🇪🇺")];
    }
    if "TRY" in rates {
      var tryToRub := Div(Finite(rubRate), Finite(rates["TRY"]));
      currencyRates := currencyRates + [CurrencyRate("TRY", "Турецкая лира", tryToRub, "🇹🇷")];
    }
    if "AED" in rates {
      var aedToRub := Div(Finite(rubRate), Finite(rates["AED"]));
      currencyRates := currencyRates + [CurrencyRate("AED", "Дирхам ОАЭ", aedToRub, "🇦🇪")];
    }
    assert currencyRates ==
             [CurrencyRate("USD", "Доллар США", Finite(rubRate), "🇺🇸")] +
             CrossRecord(rates, rubRate, WidgetCurrency("EUR", "Евро", "🇪🇺")) +
             CrossRecord(rates, rubRate, WidgetCurrency("TRY", "Турецкая лира", "🇹🇷")) +
             CrossRecord(rates, rubRate, WidgetCurrency("AED", "Дирхам ОАЭ", "🇦🇪"));
    if |currencyRates| >= 2 {
      result := Some(currencyRates);
    } else {
      result := None;
    }
  }

  /** The fallback is used exactly when RUB and another widget currency are present. */
  lemma ExchangeRateEntryUsed(rates: map<string, real>)
    ensures ExchangeRateEntryRates(rates).Some? <==>
              "RUB" in rates && ("EUR" in rates || "TRY" in rates || "AED" in rates)
  {
  }

  /**
   * The fallback starts with USD at the RUB rate, then prices each other
   * widget currency present, and only those, as RUB per USD over its units
   * per USD, in widget order.
   */
  lemma ExchangeRateEntryShape(rates: map<string, real>)
    requires ExchangeRateEntryRates(rates).Some?
    ensures var r := ExchangeRateEntryRates(rates).value;
            2 <= |r| <= 4 &&
            r[0] == CurrencyRate("USD", "Доллар США", Finite(rates["RUB"]), "🇺🇸") &&
            (forall i :: 1 <= i < |r| ==>
               r[i].code in rates && r[i].code in WidgetCodes[1..] &&
               r[i].rate == Div(Finite(rates["RUB"]), Finite(rates[r[i].code]))) &&
            (forall j :: 1 <= j < 4 ==> (WidgetCodes[j] in rates <==> WidgetCodes[j] in RateCodes(r)))
  {
    var rub := rates["RUB"];
    var e := CrossRecord(rates, rub, WidgetCurrency("EUR", "Евро", "🇪🇺"));
    var t := CrossRecord(rates, rub, WidgetCurrency("TRY", "Турецкая лира", "🇹🇷"));
    var x := CrossRecord(rates, rub, WidgetCurrency("AED", "Дирхам ОАЭ", "🇦🇪"));
    var r := ExchangeRateEntryRates(rates).value;
    assert r == [r[0]] + e + t + x;
    forall j | 1 <= j < 4
      ensures WidgetCodes[j] in rates <==> WidgetCodes[j] in RateCodes(r)
    {
      if WidgetCodes[j] in rates {
        var k := if j == 1 then 1 else if j == 2 then 1 + |e| else 1 + |e| + |t|;
        assert RateCodes(r)[k] == WidgetCodes[j];
      }
    }
  }

  /** The fallback's currencies are in widget order, each once. */
  lemma ExchangeRateEntryOrdered(rates: map<string, real>)
    requires ExchangeRateEntryRates(rates).Some?
    ensures StrictlyBy(ExchangeRateEntryRates(rates).value, Rank)
  {
    var rub := rates["RUB"];
    var e := CrossRecord(rates, rub, WidgetCurrency("EUR", "Евро", "🇪🇺"));
    var t := CrossRecord(rates, rub, WidgetCurrency("TRY", "Турецкая лира", "🇹🇷"));
    var x := CrossRecord(rates, rub, WidgetCurrency("AED", "Дирхам ОАЭ", "🇦🇪"));
    var r := ExchangeRateEntryRates(rates).value;
    assert r == [r[0]] + e + t + x;
    forall i | 0 <= i < |r|
      ensures OrderIndex(r[i].code) ==
                if i == 0 then 0 else if i < 1 + |e| then 1 else if i < 1 + |e| + |t| then 2 else 3
    {
    }
  }

  /** The two data sources as the widget sees them after the request and JSON decoding. */
  datatype CbrResponse = CbrUnavailable | CbrValute(valute: map<string, CbrEntry>)
  datatype ExchangeRateResponse = ExchangeRateUnavailable | ExchangeRateRates(rates: map<string, real>)

  /** fallbackToExchangeRate: the ExchangeRate entry, or the fallback entry. */
  function FallbackToExchangeRate(er: ExchangeRateResponse, now: int): CurrencyRateEntry {
    match er
    case ExchangeRateUnavailable => FallbackEntry(now)
    case ExchangeRateRates(rates) =>
      match ExchangeRateEntryRates(rates)
      case Some(rs) => CurrencyRateEntry(now, rs)
      case None => FallbackEntry(now)
  }

  /** simpleFetchCBRF: the CBR entry, or the ExchangeRate fallback when CBR fails. */
  function SimpleFetchCbr(cbr: CbrResponse, er: ExchangeRateResponse, now: int): CurrencyRateEntry {
    match cbr
    case CbrValute(valute) => CurrencyRateEntry(now, CbrEntryRates(valute))
    case CbrUnavailable => FallbackToExchangeRate(er, now)
  }

  /** The widget currencies of an entry from a CBR response, USD among them. */
  lemma CbrEntryCodes(valute: map<string, CbrEntry>)
    ensures var r := CbrEntryRates(valute);
            "USD" in RateCodes(r) && forall i :: 0 <= i < |r| ==> r[i].code in WidgetCodes
  {
    var r := CbrEntryRates(valute);
    var x := Expected(valute, RequiredCurrencies);
    CbrEntryRatesComplete(valute);
    ExpectedInWidgetOrder(valute);
    PermutationMembers(r, x);
    forall i | 0 <= i < |r|
      ensures r[i].code in WidgetCodes
    {
      var j :| 0 <= j < |x| && x[j] == r[i];
      assert RateCodes(x)[j] == r[i].code;
    }
    var k :| 0 <= k < |r| && r[k] == x[0];
    assert RateCodes(x)[0] == "USD";
    assert RateCodes(r)[k] == "USD";
  }

  /** Sequences that are permutations of each other have the same elements. */
  lemma PermutationMembers<T>(r: seq<T>, x: seq<T>)
    requires multiset(r) == multiset(x)
    ensures forall i :: 0 <= i < |r| ==> r[i] in x
    ensures forall j :: 0 <= j < |x| ==> x[j] in r
  {
    forall i | 0 <= i < |r|
      ensures r[i] in x
    {
      assert r[i] in multiset(r);
    }
    forall j | 0 <= j < |x|
      ensures x[j] in r
    {
      assert x[j] in multiset(x);
    }
  }

  /** Whatever the sources return, the fetched entry has two to four widget currencies, USD among them. */
  lemma SimpleFetchCbrShape(cbr: CbrResponse, er: ExchangeRateResponse, now: int)
    ensures var e := SimpleFetchCbr(cbr, er, now);
            e.date == now && 2 <= |e.rates| <= 4 && "USD" in RateCodes(e.rates) &&
            forall i :: 0 <= i < |e.rates| ==> e.rates[i].code in WidgetCodes
  {
    var e := SimpleFetchCbr(cbr, er, now);
    match cbr
    case CbrValute(valute) =>
      CbrEntryRatesComplete(valute);
      CbrEntryCodes(valute);
    case CbrUnavailable =>
      if er.ExchangeRateRates? && ExchangeRateEntryRates(er.rates).Some? {
        ExchangeRateEntryShape(er.rates);
        assert RateCodes(e.rates)[0] == "USD";
      } else {
        assert e.rates == FallbackRates;
        assert RateCodes(e.rates)[0] == "USD";
      }
  }

  // ---------------------------------------------------------------------------
  // The timeline (lines 70-98; CurrencyDataService.swift:45-82)
  // ---------------------------------------------------------------------------

  /**
   * What shared storage holds for the widget: the time of the last save, if
   * any, and the decoded records (empty when missing or undecodable).
   */
  datatype SharedStore = SharedStore(lastUpdated: Option<int>, rates: seq<SharedCurrencyRate>)

  /** Whole minutes from `from` to `to`, truncated toward zero as Calendar's minute component is. */
  function MinutesElapsed(from: int, to: int): int {
    var seconds := to - from;
    if seconds >= 0 then seconds / 60 else -((-seconds) / 60)
  }

  /** isDataFresh(within:) */
  predicate IsDataFresh(store: SharedStore, now: int, minutes: int) {
    store.lastUpdated.Some? && MinutesElapsed(store.lastUpdated.value, now) < minutes
  }

  /** For a positive window, fresh means saved less than that many minutes of seconds ago. */
  lemma IsDataFreshIff(store: SharedStore, now: int, minutes: int)
    requires minutes >= 1
    ensures IsDataFresh(store, now, minutes) <==>
              store.lastUpdated.Some? && now - store.lastUpdated.value < 60 * minutes
  {
    if store.lastUpdated.Some? {
      var seconds := now - store.lastUpdated.value;
      if seconds >= 0 {
        assert seconds / 60 < minutes <==> seconds < 60 * minutes by {
          assert seconds == 60 * (seconds / 60) + seconds % 60;
        }
      } else {
        assert (-seconds) / 60 >= 0;
      }
    }
  }

  /** The shared records as widget rates, dropping the stamps. */
  function ToCurrencyRates(shared: seq<SharedCurrencyRate>): seq<CurrencyRate> {
    seq(|shared|, i requires 0 <= i < |shared| =>
      CurrencyRate(shared[i].code, shared[i].name, shared[i].rate, shared[i].flagEmoji))
  }

  /** A timeline of entries and the time after which WidgetKit asks again. */
  datatype Timeline = Timeline(entries: seq<CurrencyRateEntry>, after: int)

  /** getTimeline(in:completion:) with the fetch as an input. */
  function GetTimeline(store: SharedStore, now: int, cbr: CbrResponse, er: ExchangeRateResponse): Timeline {
    if IsDataFresh(store, now, 60) && store.rates != [] then
      Timeline([CurrencyRateEntry(store.lastUpdated.value, ToCurrencyRates(store.rates))], now + 3600)
    else
      Timeline([SimpleFetchCbr(cbr, er, now)], now + 10800)
  }

  /**
   * The timeline has one entry: the app's records, dated by their save, for
   * an hour when they were saved under an hour ago; a fetched entry for three
   * hours otherwise.
   */
  lemma GetTimelineRule(store: SharedStore, now: int, cbr: CbrResponse, er: ExchangeRateResponse)
    ensures var t := GetTimeline(store, now, cbr, er);
            var useShared := store.lastUpdated.Some? && now - store.lastUpdated.value < 3600 && store.rates != [];
            |t.entries| == 1 &&
            (useShared ==>
               t.after == now + 3600 && t.entries[0].date == store.lastUpdated.value &&
               |t.entries[0].rates| == |store.rates| &&
               forall i :: 0 <= i < |store.rates| ==>
                 t.entries[0].rates[i].code == store.rates[i].code &&
                 t.entries[0].rates[i].name == store.rates[i].name &&
                 t.entries[0].rates[i].rate == store.rates[i].rate &&
                 t.entries[0].rates[i].flagEmoji == store.rates[i].flagEmoji) &&
            (!useShared ==> t.after == now + 10800 && t.entries[0] == SimpleFetchCbr(cbr, er, now))
  {
    IsDataFreshIff(store, now, 60);
  }

  // ---------------------------------------------------------------------------
  // The small view's rows (lines 397-404)
  // ---------------------------------------------------------------------------

  /** `order.firstIndex(of: code) ?? 999` */
  function OrderIndex(code: string): int {
    if code == "USD" then 0
    else if code == "EUR" then 1
    else if code == "TRY" then 2
    else if code == "AED" then 3
    else 999
  }

  /** The order index of a widget currency is its place in USD, EUR, TRY, AED. */
  lemma OrderIndexPlaces(code: string)
    ensures code in WidgetCodes ==> 0 <= OrderIndex(code) < 4 && WidgetCodes[OrderIndex(code)] == code
    ensures code !in WidgetCodes ==> OrderIndex(code) == 999
  {
  }

  /** The key the small view sorts by. */
  function Rank(r: CurrencyRate): int {
    OrderIndex(r.code)
  }

  /** `s` is ordered by `key`, ties allowed. */
  predicate SortedBy<T>(s: seq<T>, key: T -> int) {
    forall i, j :: 0 <= i < j < |s| ==> key(s[i]) <= key(s[j])
  }

  /** `s` is ordered by `key` with no two keys equal. */
  predicate StrictlyBy<T>(s: seq<T>, key: T -> int) {
    forall i, j :: 0 <= i < j < |s| ==> key(s[i]) < key(s[j])
  }

  /** `.filter { order.contains($0.code) }` */
  function FilterWidget(rates: seq<CurrencyRate>): (r: seq<CurrencyRate>)
    ensures forall x :: x in r <==> x in rates && x.code in WidgetCodes
    ensures multiset(r) <= multiset(rates)
    ensures (forall i :: 0 <= i < |rates| ==> rates[i].code in WidgetCodes) ==> r == rates
  {
    if rates == [] then []
    else
      var rest := FilterWidget(rates[1..]);
      assert rates == [rates[0]] + rates[1..];
      if rates[0].code in WidgetCodes then [rates[0]] + rest else rest
  }

  /** Inserts `x` before the first element whose key is not below its own. */
  function InsertBy<T>(x: T, s: seq<T>, key: T -> int): (r: seq<T>)
    requires SortedBy(s, key)
    ensures SortedBy(r, key)
    ensures |r| == |s| + 1
    ensures forall i :: 0 <= i < |r| ==> r[i] == x || r[i] in s
    ensures multiset(r) == multiset(s) + multiset{x}
  {
    if s == [] || key(x) <= key(s[0]) then
      assert forall i :: 1 <= i < |[x] + s| ==> ([x] + s)[i] == s[i - 1];
      [x] + s
    else
      var rest := InsertBy(x, s[1..], key);
      assert s == [s[0]] + s[1..];
      assert forall k :: 0 <= k < |rest| ==> key(s[0]) <= key(rest[k]);
      [s[0]] + rest
  }

  /** `sorted(by:)` on a key, as a stable insertion sort. */
  function SortBy<T>(s: seq<T>, key: T -> int): (r: seq<T>)
    ensures SortedBy(r, key)
    ensures multiset(r) == multiset(s)
  {
    if s == [] then []
    else
      assert s == [s[0]] + s[1..];
      InsertBy(s[0], SortBy(s[1..], key), key)
  }

  /** A sequence sorted by a key that is a permutation of a strictly key-ordered one is that sequence. */
  lemma {:induction false} SortedPermutationOfStrict<T>(s: seq<T>, e: seq<T>, key: T -> int)
    requires SortedBy(s, key) && StrictlyBy(e, key) && multiset(s) == multiset(e)
    ensures s == e
    decreases |s|
  {
    assert |s| == |multiset(s)| == |e|;
    if s != [] {
      HeadsAgree(s, e, key);
      TailsPermute(s, e);
      SortedPermutationOfStrict(s[1..], e[1..], key);
      assert s == [s[0]] + s[1..];
      assert e == [e[0]] + e[1..];
    }
  }

  /** A sorted permutation of a strictly ordered sequence starts with the same element. */
  lemma HeadsAgree<T>(s: seq<T>, e: seq<T>, key: T -> int)
    requires SortedBy(s, key) && StrictlyBy(e, key) && multiset(s) == multiset(e) && s != []
    ensures e != [] && s[0] == e[0]
  {
    PermutationMembers(s, e);
    assert e != [] by {
      assert s[0] in e;
    }
    var k :| 0 <= k < |s| && s[k] == e[0];
    var m :| 0 <= m < |e| && e[m] == s[0];
    assert key(s[0]) <= key(e[0]);
    assert m == 0;
  }

  /** Removing equal first elements from two permutations of each other leaves permutations. */
  lemma TailsPermute<T>(s: seq<T>, e: seq<T>)
    requires s != [] && e != [] && s[0] == e[0] && multiset(s) == multiset(e)
    ensures multiset(s[1..]) == multiset(e[1..])
  {
    assert s == [s[0]] + s[1..];
    assert e == [e[0]] + e[1..];
    assert multiset(s) == multiset{s[0]} + multiset(s[1..]);
    assert multiset(e) == multiset{e[0]} + multiset(e[1..]);
    assert multiset(s[1..]) == multiset(s) - multiset{s[0]};
    assert multiset(e[1..]) == multiset(e) - multiset{e[0]};
  }

  /** The rows of the small widget: the widget currencies, by order index, at most four. */
  function VisibleRates(rates: seq<CurrencyRate>): seq<CurrencyRate> {
    var sorted := SortBy(FilterWidget(rates), Rank);
    if |sorted| <= 4 then sorted else sorted[..4]
  }

  /**
   * The rows are widget currencies of the entry, sorted by their place in
   * USD, EUR, TRY, AED, and all of them when there are at most four.
   */
  lemma VisibleRatesFacts(rates: seq<CurrencyRate>)
    ensures var r := VisibleRates(rates);
            var filtered := FilterWidget(rates);
            SortedBy(r, Rank) &&
            |r| == (if |filtered| <= 4 then |filtered| else 4) &&
            (forall x :: x in r ==> x in rates && x.code in WidgetCodes) &&
            (|filtered| <= 4 ==> multiset(r) == multiset(filtered))
  {
    SortedPrefixFacts(FilterWidget(rates), Rank);
  }

  /** At most the first four elements of a sort: sorted, drawn from the input, and all of it when it is that short. */
  lemma SortedPrefixFacts<T>(s: seq<T>, key: T -> int)
    ensures var sorted := SortBy(s, key);
            var r := if |sorted| <= 4 then sorted else sorted[..4];
            SortedBy(r, key) &&
            |r| == (if |s| <= 4 then |s| else 4) &&
            (forall x :: x in r ==> x in s) &&
            (|s| <= 4 ==> multiset(r) == multiset(s))
  {
    var sorted := SortBy(s, key);
    assert |multiset(sorted)| == |multiset(s)|;
    var r := if |sorted| <= 4 then sorted else sorted[..4];
    forall x | x in r
      ensures x in s
    {
      assert x in sorted;
      assert x in multiset(s);
    }
  }

  /** Rows of a strictly ordered list of widget currencies are the list itself. */
  lemma VisibleRatesOfOrdered(rates: seq<CurrencyRate>)
    requires |rates| <= 4 && StrictlyBy(rates, Rank)
    requires forall i :: 0 <= i < |rates| ==> rates[i].code in WidgetCodes
    ensures VisibleRates(rates) == rates
  {
    SortedPermutationOfStrict(SortBy(rates, Rank), rates, Rank);
  }

  /** The expected records are in widget order. */
  lemma ExpectedInWidgetOrder(valute: map<string, CbrEntry>)
    ensures var x := Expected(valute, RequiredCurrencies);
            StrictlyBy(x, Rank) && RateCodes(x) == WidgetCodes
  {
    var x := Expected(valute, RequiredCurrencies);
    forall i | 0 <= i < 4
      ensures RateCodes(x)[i] == WidgetCodes[i]
    {
      assert x[i].code == RequiredCurrencies[i].code;
    }
    WidgetCodesInOrder(x);
  }

  /** Records whose codes are USD, EUR, TRY, AED, in that order, are strictly in widget order. */
  lemma WidgetCodesInOrder(rs: seq<CurrencyRate>)
    requires RateCodes(rs) == WidgetCodes
    ensures StrictlyBy(rs, Rank)
    ensures forall i :: 0 <= i < |rs| ==> rs[i].code in WidgetCodes
  {
    forall i | 0 <= i < |rs|
      ensures rs[i].code == WidgetCodes[i] && Rank(rs[i]) == i
    {
      assert rs[i].code == RateCodes(rs)[i];
    }
  }

  /** Shared records for USD, EUR, TRY, AED, read back as widget rates, keep their codes, order and prices. */
  lemma SharedRatesRead(shared: seq<SharedCurrencyRate>)
    requires SharedCodes(shared) == WidgetCodes
    ensures var rs := ToCurrencyRates(shared);
            |rs| == 4 && RateCodes(rs) == WidgetCodes && StrictlyBy(rs, Rank) &&
            (forall i :: 0 <= i < 4 ==>
               rs[i].code in WidgetCodes && rs[i].name == shared[i].name &&
               rs[i].rate == shared[i].rate && rs[i].flagEmoji == shared[i].flagEmoji)
  {
    var rs := ToCurrencyRates(shared);
    forall i | 0 <= i < 4
      ensures RateCodes(rs)[i] == WidgetCodes[i]
    {
      assert rs[i].code == SharedCodes(shared)[i];
    }
    WidgetCodesInOrder(rs);
  }

  /** An entry from a CBR response shows USD, EUR, TRY, AED in that order, each priced or backed up. */
  lemma VisibleCbrRates(valute: map<string, CbrEntry>)
    ensures VisibleRates(CbrEntryRates(valute)) == Expected(valute, RequiredCurrencies)
    ensures RateCodes(VisibleRates(CbrEntryRates(valute))) == WidgetCodes
  {
    var r := CbrEntryRates(valute);
    var x := Expected(valute, RequiredCurrencies);
    CbrEntryRatesComplete(valute);
    CbrEntryCodes(valute);
    assert FilterWidget(r) == r;
    ExpectedInWidgetOrder(valute);
    var sorted := SortBy(r, Rank);
    assert multiset(sorted) == multiset(x);
    SortedPermutationOfStrict(SortBy(r, Rank), x, Rank);
  }

  /** An entry from the ExchangeRate fallback is shown as it is. */
  lemma VisibleExchangeRateRates(rates: map<string, real>)
    requires ExchangeRateEntryRates(rates).Some?
    ensures VisibleRates(ExchangeRateEntryRates(rates).value) == ExchangeRateEntryRates(rates).value
  {
    ExchangeRateEntryShape(rates);
    ExchangeRateEntryOrdered(rates);
    var r := ExchangeRateEntryRates(rates).value;
    forall i | 0 <= i < |r|
      ensures r[i].code in WidgetCodes
    {
    }
    VisibleRatesOfOrdered(r);
  }

  /** The app's snapshot as widget rates: the four widget currencies in order, at the app's prices. */
  lemma SnapshotAsWidgetRates(cbr: RateTable, ex: RateTable, saved: int)
    ensures var snapshot := WidgetSnapshot(cbr, ex, saved);
            var rs := ToCurrencyRates(snapshot);
            |rs| == 4 && RateCodes(rs) == WidgetCodes && StrictlyBy(rs, Rank) &&
            forall i :: 0 <= i < 4 ==>
              rs[i].name == snapshot[i].name && rs[i].rate == snapshot[i].rate &&
              rs[i].flagEmoji == snapshot[i].flagEmoji
  {
    WidgetSnapshotShape(cbr, ex, saved);
    SharedRatesRead(WidgetSnapshot(cbr, ex, saved));
  }

  /**
   * The app's snapshot, read back by the widget within the hour, is shown as
   * the app priced it: USD, EUR, TRY, AED in order.
   */
  lemma SharedSnapshotShown(cbr: RateTable, ex: RateTable, saved: int, now: int,
                            c: CbrResponse, er: ExchangeRateResponse)
    requires saved <= now < saved + 3600
    ensures var t := GetTimeline(SharedStore(Some(saved), WidgetSnapshot(cbr, ex, saved)), now, c, er);
            var shown := VisibleRates(t.entries[0].rates);
            t.entries[0].date == saved && RateCodes(shown) == WidgetCodes &&
            forall i :: 0 <= i < 4 ==>
              shown[i].name == WidgetSnapshot(cbr, ex, saved)[i].name &&
              shown[i].rate == WidgetSnapshot(cbr, ex, saved)[i].rate &&
              shown[i].flagEmoji == WidgetSnapshot(cbr, ex, saved)[i].flagEmoji
  {
    var store := SharedStore(Some(saved), WidgetSnapshot(cbr, ex, saved));
    IsDataFreshIff(store, now, 60);
    WidgetSnapshotShape(cbr, ex, saved);
    SharedRatesRead(store.rates);
    VisibleRatesOfOrdered(ToCurrencyRates(store.rates));
  }

  // ---------------------------------------------------------------------------
  // The app-group suites the two sides use
  // ---------------------------------------------------------------------------

  /** The suite the app saves its snapshot under (Converter_mac/CurrencyCalculatorModel.swift:16). */
  const AppSuite: string := "group.com.yourcompany.currencyconverter"

  /** The suite the widget reads (CurrencyWidgetExtension/CurrencyDataService.swift:15). */
  const WidgetSuite: string := "group.com.bonitalabs.currencyconverter"

  /** The shared defaults of every suite that has been written. */
  type Suites = map<string, SharedStore>

  /** saveCurrencyRates: the records and the save time, under one suite. */
  function SaveShared(suites: Suites, suite: string, rates: seq<SharedCurrencyRate>, now: int): (r: Suites)
    ensures suite in r && r[suite] == SharedStore(Some(now), rates)
    ensures forall s :: s in suites && s != suite ==> s in r && r[s] == suites[s]
  {
    suites[suite := SharedStore(Some(now), rates)]
  }

  /** What getCurrencyRates and isDataFresh see in a suite: nothing when it was never written. */
  function ReadShared(suites: Suites, suite: string): (store: SharedStore)
    ensures suite !in suites ==> store.lastUpdated.None? && store.rates == []
  {
    if suite in suites then suites[suite] else SharedStore(None, [])
  }

  /**
   * As written the two suite names differ, so a snapshot the app saves is
   * never read by the widget: while nothing else writes the widget's suite,
   * every timeline is a fresh fetch, asked for again in three hours.
   */
  lemma AsWrittenWidgetMissesAppSave(suites: Suites, cbr: RateTable, ex: RateTable, saved: int, now: int,
                                     c: CbrResponse, er: ExchangeRateResponse)
    requires WidgetSuite !in suites
    ensures var after := SaveShared(suites, AppSuite, WidgetSnapshot(cbr, ex, saved), saved);
            GetTimeline(ReadShared(after, WidgetSuite), now, c, er) == Timeline([SimpleFetchCbr(c, er, now)], now + 10800)
  {
    var after := SaveShared(suites, AppSuite, WidgetSnapshot(cbr, ex, saved), saved);
    assert WidgetSuite !in after;
    IsDataFreshIff(ReadShared(after, WidgetSuite), now, 60);
  }

  /**
   * Corrected: with the widget reading the suite the app writes, the app's
   * snapshot is shown within the hour after the save.
   */
  lemma SharedSuiteShowsAppSave(suites: Suites, cbr: RateTable, ex: RateTable, saved: int, now: int,
                                c: CbrResponse, er: ExchangeRateResponse)
    requires saved <= now < saved + 3600
    ensures var after := SaveShared(suites, AppSuite, WidgetSnapshot(cbr, ex, saved), saved);
            var t := GetTimeline(ReadShared(after, AppSuite), now, c, er);
            var shown := VisibleRates(t.entries[0].rates);
            t.entries[0].date == saved && t.after == now + 3600 && RateCodes(shown) == WidgetCodes &&
            forall i :: 0 <= i < 4 ==>
              shown[i].name == WidgetSnapshot(cbr, ex, saved)[i].name &&
              shown[i].rate == WidgetSnapshot(cbr, ex, saved)[i].rate &&
              shown[i].flagEmoji == WidgetSnapshot(cbr, ex, saved)[i].flagEmoji
  {
    var after := SaveShared(suites, AppSuite, WidgetSnapshot(cbr, ex, saved), saved);
    assert ReadShared(after, AppSuite) == SharedStore(Some(saved), WidgetSnapshot(cbr, ex, saved));
    SharedSnapshotShown(cbr, ex, saved, now, c, er);
    GetTimelineRule(ReadShared(after, AppSuite), now, c, er);
  }
}
