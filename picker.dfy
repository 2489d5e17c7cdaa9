/**
 * The currency picker (Converter_mac/CurrencyPickerView.swift): the searched
 * list of currencies and the rate shown on each row.
 */
module Picker {
  import opened Wrappers
  import opened Doubles
  import opened Formatting
  import opened Currencies
  import opened Rates
  import opened ConverterModel

  /** localizedCaseInsensitiveContains(haystack, needle), supplied by the locale. */
  type Matcher = (string, string) -> bool

  /** The search text matches the currency's name or its code. */
  predicate Shown(c: Currency, search: string, matches: Matcher) {
    matches(c.name, search) || matches(c.code, search)
  }

  /** `cs.filter { name matches || code matches }` */
  function FilterMatching(cs: seq<Currency>, search: string, matches: Matcher): (r: seq<Currency>)
    ensures forall c :: c in r <==> c in cs && Shown(c, search, matches)
    ensures multiset(r) <= multiset(cs)
    ensures (forall i :: 0 <= i < |cs| ==> Shown(cs[i], search, matches)) ==> r == cs
  {
    if cs == [] then []
    else
      var rest := FilterMatching(cs[1..], search, matches);
      assert cs == [cs[0]] + cs[1..];
      if Shown(cs[0], search, matches) then [cs[0]] + rest else rest
  }

  /** Filtering keeps the catalog's order: the filter of two parts is the two filters in turn. */
  lemma {:induction false} FilterMatchingSplits(a: seq<Currency>, b: seq<Currency>, search: string, matches: Matcher)
    ensures FilterMatching(a + b, search, matches) == FilterMatching(a, search, matches) + FilterMatching(b, search, matches)
    decreases |a|
  {
    if a != [] {
      assert (a + b)[1..] == a[1..] + b;
      FilterMatchingSplits(a[1..], b, search, matches);
    } else {
      assert a + b == b;
    }
  }

  /** filteredCurrencies: everything for an empty search, otherwise the matching currencies. */
  function FilteredCurrencies(available: seq<Currency>, search: string, matches: Matcher): (r: seq<Currency>)
    ensures search == [] ==> r == available
    ensures search != [] ==> forall c :: c in r <==> c in available && Shown(c, search, matches)
    ensures multiset(r) <= multiset(available)
  {
    if search == [] then available else FilterMatching(available, search, matches)
  }

  /** Searching the searched list again with the same text changes nothing. */
  lemma FilteredCurrenciesIdempotent(available: seq<Currency>, search: string, matches: Matcher)
    ensures var once := FilteredCurrencies(available, search, matches);
            FilteredCurrencies(once, search, matches) == once
  {
    var once := FilteredCurrencies(available, search, matches);
    if search != [] {
      assert forall i :: 0 <= i < |once| ==> once[i] in once;
    }
  }

  /**
   * CurrencyRowView.getCurrencyRate: RUB shows the CBR price of one USD,
   * other currencies their ExchangeRate entry over the USD entry.
   */
  function PickerRateLabel(fmt: Formatter, code: string, cbr: RateTable, ex: RateTable): string {
    if code == "RUB" then
      if "USD" !in cbr then "Нет данных"
      else UsdLabel(fmt.format(Decimal(0, 4), cbr["USD"]), code, "Нет данных")
    else if "USD" !in ex || code !in ex then "Нет данных"
    else
      var rate := Div(ex[code], ex["USD"]);
      UsdLabel(fmt.format(Decimal(0, 4), rate), code, "Нет данных")
  }

  /** The picker's row and the model's (intended) label show the same rate, and fail together. */
  lemma PickerAgreesWithModelLabel(fmt: Formatter, code: string, cbr: RateTable, ex: RateTable)
    ensures var m := RateLabel(fmt, code, cbr, ex);
            PickerRateLabel(fmt, code, cbr, ex) == if m == "N/A" then "Нет данных" else m
  {
    var m := RateLabel(fmt, code, cbr, ex);
    if m != "N/A" {
      assert |m| >= 8 && m[..8] == "1 USD = ";
    }
  }

  /** For a currency other than RUB the row shows what getRateForCurrency shows as written. */
  lemma PickerAgreesAsWrittenOffRub(fmt: Formatter, code: string, cbr: RateTable, ex: RateTable)
    requires code != "RUB"
    ensures var m := AsWrittenRateLabel(fmt, code, cbr, ex);
            PickerRateLabel(fmt, code, cbr, ex) == if m == "N/A" then "Нет данных" else m
  {
    PickerAgreesWithModelLabel(fmt, code, cbr, ex);
  }
}
