/**
 * The two rate tables, the pair-rate rule, the conversion of the display value,
 * and the acceptance of a decoded response from either rate source
 * (Converter_mac/CurrencyCalculatorModel.swift).
 */
module Rates {
  import opened Wrappers
  import opened Doubles
  import opened Formatting
  import opened Currencies

  /** A rate table: the CBR table prices currencies in RUB, the ExchangeRate table per 1 USD. */
  type RateTable = map<string, Double>

  /** A decoded ExchangeRate `rates` object, whose numbers are finite. */
  function Lift(rates: map<string, real>): (t: RateTable)
    ensures t.Keys == rates.Keys
    ensures forall c :: c in rates ==> t[c] == Finite(rates[c])
  {
    map c | c in rates :: Finite(rates[c])
  }

  /** A lifted table is read back as its input; any other code falls back as in an empty table. */
  lemma LiftLookup(rates: map<string, real>, c: string)
    ensures c in rates ==> Lookup(Lift(rates), c) == Finite(rates[c])
    ensures c !in rates ==> Lookup(Lift(rates), c) == Lookup(map[], c)
  {
  }

  /** `source[code] ?? backupRates[code] ?? 1.0` */
  function Lookup(source: RateTable, code: string): Double {
    if code in source then source[code]
    else if code in BackupRates then Finite(BackupRates[code])
    else One
  }

  /** A code missing from the table is priced from the backup table, so it is positive for a catalog code. */
  lemma LookupMissingFallsBack(source: RateTable, code: string)
    requires code !in source
    ensures code in CatalogCodes ==> Lookup(source, code).Finite? && Lookup(source, code).value > 0.0
    ensures code !in BackupRates ==> Lookup(source, code) == One
  {
    BackupRatesCoverCatalog();
    CatalogCodesInOrder();
    if code in CatalogCodes {
      var i :| 0 <= i < |CatalogCodes| && CatalogCodes[i] == code;
      assert AvailableCurrencies[i].code == code;
    }
  }

  /** `fromCurrency.code == "RUB" || toCurrency.code == "RUB"`: the pair is priced from CBR data. */
  predicate UsesCbr(from: string, to: string) {
    from == "RUB" || to == "RUB"
  }

  /** updateConversionRate's rate for the pair from -> to, including its cross-rate branch. */
  function PairRate(from: string, to: string, cbr: RateTable, ex: RateTable): Double {
    var source := if UsesCbr(from, to) then cbr else ex;
    var fromRate := Lookup(source, from);
    var toRate := Lookup(source, to);
    if UsesCbr(from, to) then
      if from == "RUB" then Div(One, toRate)
      else if to == "RUB" then fromRate
      else Div(toRate, fromRate)
    else Div(toRate, fromRate)
  }

  /**
   * The rule as the three cases that can happen: the CBR cross-rate branch
   * `toRate / fromRate` is never taken, because a pair that reaches the CBR
   * branch has RUB on one side.
   */
  lemma PairRateRule(from: string, to: string, cbr: RateTable, ex: RateTable)
    ensures UsesCbr(from, to) ==> from == "RUB" || to == "RUB"
    ensures from == "RUB" ==> PairRate(from, to, cbr, ex) == Div(One, Lookup(cbr, to))
    ensures from != "RUB" && to == "RUB" ==> PairRate(from, to, cbr, ex) == Lookup(cbr, from)
    ensures !UsesCbr(from, to) ==> PairRate(from, to, cbr, ex) == Div(Lookup(ex, to), Lookup(ex, from))
  {
  }

  /** The pair rate reads only the table its branch selects. */
  lemma PairRateReadsSelectedTable(from: string, to: string, cbr: RateTable, ex: RateTable,
                                   cbr': RateTable, ex': RateTable)
    ensures UsesCbr(from, to) ==> PairRate(from, to, cbr, ex) == PairRate(from, to, cbr, ex')
    ensures !UsesCbr(from, to) ==> PairRate(from, to, cbr, ex) == PairRate(from, to, cbr', ex)
  {
  }

  /** For two distinct currencies with nonzero entries, swapping the pair inverts the rate. */
  lemma {:induction false} SwapInvertsPairRate(from: string, to: string, cbr: RateTable, ex: RateTable)
    requires from != to
    requires from == "RUB" ==> NonzeroFinite(Lookup(cbr, to))
    requires to == "RUB" ==> NonzeroFinite(Lookup(cbr, from))
    requires from != "RUB" && to != "RUB" ==> NonzeroFinite(Lookup(ex, from)) && NonzeroFinite(Lookup(ex, to))
    ensures PairRate(to, from, cbr, ex) == Div(One, PairRate(from, to, cbr, ex))
  {
    if from == "RUB" {
      ReciprocalInvolution(Lookup(cbr, to));
    } else if to == "RUB" {
    } else {
      DivSwapIsReciprocal(Lookup(ex, to), Lookup(ex, from));
    }
  }

  /**
   * A currency converted to itself: 1 for a non-RUB currency with a nonzero
   * entry, and for RUB exactly when the CBR table prices RUB at 1.
   */
  lemma {:induction false} SameCurrencyRate(code: string, cbr: RateTable, ex: RateTable)
    ensures code != "RUB" && NonzeroFinite(Lookup(ex, code)) ==> PairRate(code, code, cbr, ex) == One
    ensures PairRate("RUB", "RUB", cbr, ex) == One <==> Lookup(cbr, "RUB") == One
  {
    if code != "RUB" && NonzeroFinite(Lookup(ex, code)) {
      DivSelf(Lookup(ex, code));
    }
    var r := Lookup(cbr, "RUB");
    if r.Finite? && r.value != 0.0 && Div(One, r) == One {
      assert 1.0 / r.value == 1.0;
      assert r.value == 1.0;
    }
  }

  /**
   * convert() (Converter_mac/CurrencyCalculatorModel.swift:683-712): the display
   * read by NumberFormatter, else by Double(String) after dropping spaces and
   * turning commas into dots, times the rate, shown with up to two fraction
   * digits; "0" when the display is not a number, "Ошибка" when formatting fails.
   */
  function ConvertedAmount(f: Formatter, display: string, rate: Double): string {
    match f.number(display)
    case Some(n) => FormatAmount(f, Mul(Finite(n), rate))
    case None =>
      match f.double(Replace(Remove(display, ' '), ',', '.'))
      case Some(v) => FormatAmount(f, Mul(Finite(v), rate))
      case None => "0"
  }

  function FormatAmount(f: Formatter, amount: Double): string {
    f.format(Decimal(0, 2), amount).GetOr("Ошибка")
  }

  /**
   * The converted amount is "0" exactly for a display neither parser reads
   * (when formatting never yields "0" itself), and otherwise it is the formatted
   * product of the value read and the rate.
   */
  lemma ConvertedAmountCases(f: Formatter, display: string, rate: Double)
    ensures f.number(display).None? && f.double(Replace(Remove(display, ' '), ',', '.')).None? ==>
              ConvertedAmount(f, display, rate) == "0"
    ensures f.number(display).Some? ==>
              ConvertedAmount(f, display, rate) == FormatAmount(f, Mul(Finite(f.number(display).value), rate))
    ensures (forall x :: f.format(Decimal(0, 2), x) != Some("0")) && ConvertedAmount(f, display, rate) == "0" ==>
              f.number(display).None? && f.double(Replace(Remove(display, ' '), ',', '.')).None?
  {
  }

  // ---------------------------------------------------------------------------
  // Source acceptance

  /** One entry of the CBR `Valute` object, with the fields of the expected types, if present. */
  datatype CbrEntry = CbrEntry(value: Option<real>, nominal: Option<int>)

  /** Both `Value as? Double` and `Nominal as? Int` succeed. */
  predicate Complete(e: CbrEntry) {
    e.value.Some? && e.nominal.Some?
  }

  /** `value / Double(nominal)`: the price of one unit in RUB. */
  function CbrRate(e: CbrEntry): Double
    requires Complete(e)
  {
    Div(Finite(e.value.value), Finite(e.nominal.value as real))
  }

  const CbrRequired: seq<string> := ["USD", "EUR", "GBP", "CNY"]
  const ExchangeRateRequired: seq<string> := ["USD", "EUR", "RUB", "GBP", "JPY", "CNY", "TRY"]

  /** The complete entries of a decoded `Valute` object. */
  function CompleteEntries(valute: map<string, CbrEntry>): (m: map<string, CbrEntry>)
    ensures forall c :: c in m <==> c in valute && Complete(valute[c])
    ensures forall c :: c in m ==> m[c] == valute[c]
  {
    map c | c in valute && Complete(valute[c]) :: valute[c]
  }

  /** The table built from a `Valute` object: `["RUB": 1.0]`, then `Value / Nominal` per complete entry. */
  function CbrTable(valute: map<string, CbrEntry>): (t: RateTable)
    ensures forall c :: c in t <==> c == "RUB" || c in CompleteEntries(valute)
    ensures forall c :: c in CompleteEntries(valute) ==> t[c] == CbrRate(valute[c])
    ensures "RUB" !in CompleteEntries(valute) ==> t["RUB"] == One
  {
    map["RUB" := One] + map c | c in CompleteEntries(valute) :: CbrRate(valute[c])
  }

  /** `codes.filter { m[$0] != nil }.count` */
  function CountPresent<V>(codes: seq<string>, m: map<string, V>): (n: nat)
    ensures n <= |codes|
    ensures n == |codes| <==> forall i :: 0 <= i < |codes| ==> codes[i] in m
    ensures n == 0 <==> forall i :: 0 <= i < |codes| ==> codes[i] !in m
  {
    if codes == [] then 0
    else (if codes[0] in m then 1 else 0) + CountPresent(codes[1..], m)
  }

  /** Two tables that hold the same required codes count the same. */
  lemma {:induction false} CountPresentSameCodes<V, W>(codes: seq<string>, m: map<string, V>, m': map<string, W>)
    requires forall i :: 0 <= i < |codes| ==> (codes[i] in m <==> codes[i] in m')
    ensures CountPresent(codes, m) == CountPresent(codes, m')
  {
    if codes != [] {
      CountPresentSameCodes(codes[1..], m, m');
    }
  }

  /** A table that holds every required code another holds counts at least as many. */
  lemma {:induction false} CountPresentMonotone<V, W>(codes: seq<string>, m: map<string, V>, m': map<string, W>)
    requires forall i :: 0 <= i < |codes| ==> codes[i] in m ==> codes[i] in m'
    ensures CountPresent(codes, m) <= CountPresent(codes, m')
  {
    if codes != [] {
      CountPresentMonotone(codes[1..], m, m');
    }
  }

  /** The "at least 3 of the required codes" rule. */
  predicate HasEnoughData<V>(codes: seq<string>, m: map<string, V>) {
    CountPresent(codes, m) >= 3
  }

  /** A decoded `Valute` object is accepted as the new CBR table when it prices at least 3 of USD, EUR, GBP, CNY. */
  function AcceptCbr(valute: map<string, CbrEntry>): Option<RateTable> {
    var rates := CbrTable(valute);
    if HasEnoughData(CbrRequired, rates) then Some(rates) else None
  }

  /** A decoded `rates` object replaces the ExchangeRate table wholesale when it holds at least 3 of the 7 required codes. */
  function AcceptExchangeRates(rates: map<string, real>): Option<RateTable> {
    if HasEnoughData(ExchangeRateRequired, rates) then Some(Lift(rates)) else None
  }

  /**
   * The CBR table is accepted exactly when at least 3 of the 4 required
   * currencies have complete entries; the RUB entry the table always holds
   * does not help, and an accepted table always prices RUB.
   */
  lemma {:induction false} AcceptCbrRule(valute: map<string, CbrEntry>)
    ensures AcceptCbr(valute).Some? <==> CountPresent(CbrRequired, CompleteEntries(valute)) >= 3
    ensures AcceptCbr(valute).Some? ==> AcceptCbr(valute).value == CbrTable(valute)
    ensures AcceptCbr(valute).Some? ==> "RUB" in AcceptCbr(valute).value
  {
    CountPresentSameCodes(CbrRequired, CbrTable(valute), CompleteEntries(valute));
  }

  /** A response that prices only USD and EUR of the required four is rejected. */
  lemma {:induction false} CbrTwoOfFourRejected(valute: map<string, CbrEntry>)
    requires "GBP" !in CompleteEntries(valute) && "CNY" !in CompleteEntries(valute)
    ensures AcceptCbr(valute) == None
  {
    AcceptCbrRule(valute);
    var m := CompleteEntries(valute);
    var absent: seq<string> := ["GBP", "CNY"];
    assert CbrRequired == ["USD", "EUR"] + absent;
    CountPresentAppend(["USD", "EUR"], absent, m);
    assert forall i :: 0 <= i < |absent| ==> absent[i] !in m;
  }

  /** Counting over a concatenation adds the counts over its parts. */
  lemma {:induction false} CountPresentAppend<V>(a: seq<string>, b: seq<string>, m: map<string, V>)
    ensures CountPresent(a + b, m) == CountPresent(a, m) + CountPresent(b, m)
    decreases |a|
  {
    if a != [] {
      assert (a + b)[1..] == a[1..] + b;
      CountPresentAppend(a[1..], b, m);
    } else {
      assert a + b == b;
    }
  }

  /** An accepted ExchangeRate table is the response itself, with no entry of the previous table kept. */
  lemma AcceptExchangeRatesReplaces(rates: map<string, real>)
    ensures AcceptExchangeRates(rates).Some? <==> CountPresent(ExchangeRateRequired, rates) >= 3
    ensures AcceptExchangeRates(rates).Some? ==>
              AcceptExchangeRates(rates).value.Keys == rates.Keys &&
              forall c :: c in rates ==> AcceptExchangeRates(rates).value[c] == Finite(rates[c])
  {
  }

  /** The loop of simpleFetchCBR (Converter_mac/CurrencyCalculatorModel.swift:336-345), over the entries in any order. */
  method ParseCbrValute(valute: map<string, CbrEntry>) returns (rates: RateTable)
    ensures rates == CbrTable(valute)
  {
    rates := map["RUB" := One];
    var todo := valute.Keys;
    ghost var done: set<string> := {};
    while todo != {}
      invariant todo + done == valute.Keys && todo !! done
      invariant forall c :: c in rates <==> c == "RUB" || (c in done && Complete(valute[c]))
      invariant forall c :: c in done && Complete(valute[c]) ==> rates[c] == CbrRate(valute[c])
      invariant "RUB" !in done || !Complete(valute["RUB"]) ==> rates["RUB"] == One
      decreases todo
    {
      var code :| code in todo;
      var entry := valute[code];
      if entry.value.Some? && entry.nominal.Some? {
        rates := rates[code := Div(Finite(entry.value.value), Finite(entry.nominal.value as real))];
      }
      todo := todo - {code};
      done := done + {code};
    }
    assert rates.Keys == CbrTable(valute).Keys;
  }

  // ---------------------------------------------------------------------------
  // The tables at start-up

  /** As written: init copies the USD-anchored backup table into cbrRates (line 229). */
  function AsWrittenInitialCbrRates(): RateTable {
    Lift(BackupRates)
  }

  /** With that table, 1 USD converts to 1 RUB and RUB to RUB is not 1, until a CBR response is accepted. */
  lemma AsWrittenInitialRatesMisprice(ex: RateTable)
    ensures PairRate("USD", "RUB", AsWrittenInitialCbrRates(), ex) == One
    ensures PairRate("RUB", "RUB", AsWrittenInitialCbrRates(), ex) == Finite(1.0 / 85.49)
    ensures PairRate("RUB", "RUB", AsWrittenInitialCbrRates(), ex) != One
  {
  }

  /** Corrected: the backup table re-anchored on RUB, each currency priced at backup[RUB] / backup[code]. */
  function InitialCbrRates(): RateTable {
    map c | c in BackupRates :: Div(Finite(BackupRates["RUB"]), Finite(BackupRates[c]))
  }

  /** The corrected start-up table prices RUB at 1 and 1 USD at 85.49 RUB. */
  lemma InitialCbrRatesAreRubAnchored()
    ensures InitialCbrRates()["RUB"] == One
    ensures PairRate("RUB", "RUB", InitialCbrRates(), Lift(BackupRates)) == One
    ensures PairRate("USD", "RUB", InitialCbrRates(), Lift(BackupRates)) == Finite(85.49)
  {
    assert InitialCbrRates()["RUB"] == Div(Finite(85.49), Finite(85.49));
    assert InitialCbrRates()["USD"] == Div(Finite(85.49), Finite(1.0));
  }

  /** Every currency of the corrected start-up table is priced in RUB as the backup table's cross rate. */
  lemma InitialCbrRatesMatchBackupCrossRates()
    ensures forall c :: c in BackupRates ==>
              Lookup(InitialCbrRates(), c) == Div(Lookup(Lift(BackupRates), "RUB"), Lookup(Lift(BackupRates), c))
  {
    BackupRatesCoverCatalog();
  }
}
