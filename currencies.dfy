/** The currency catalog, its flags and the static backup rates (Converter_mac/CurrencyCalculatorModel.swift). */
module Currencies {
  import opened Wrappers

  /** A catalog entry.  The source's `id = UUID()` is an identity for SwiftUI lists and is not modelled. */
  datatype Currency = Currency(code: string, name: string, flagName: string)

  /** The white flag shown for a code the catalog does not know. */
  const UnknownFlag: string := "🏳️"

  /** Currency.flagEmoji: the flag glyph for a currency code. */
  function FlagEmoji(code: string): string {
    match code
    case "RUB" => "🇷🇺"
    case "USD" => "🇺🇸"
    case "EUR" => "🇪🇺"
    case "TRY" => "🇹🇷"
    case "KZT" => "🇰🇿"
    case "CNY" => "🇨🇳"
    case "AED" => "🇦🇪"
    case "UZS" => "🇺🇿"
    case "BYN" => "🇧🇾"
    case "THB" => "🇹🇭"
    case "UAH" => "🇺🇦"
    case "GBP" => "🇬🇧"
    case "JPY" => "🇯🇵"
    case _ => UnknownFlag
  }

  /** The two catalog entries the converter starts with. */
  const Rub: Currency := Currency("RUB", "Российский рубль", "russia")
  const Usd: Currency := Currency("USD", "Доллар США", "usa")

  /** availableCurrencies, in the order the pickers list them. */
  const AvailableCurrencies: seq<Currency> := [
    Rub,
    Usd,
    Currency("EUR", "Евро", "europe"),
    Currency("TRY", "Турецкая лира", "turkey"),
    Currency("KZT", "Казахский тенге", "kazakhstan"),
    Currency("CNY", "Китайский юань", "china"),
    Currency("AED", "Дирхам ОАЭ", "uae"),
    Currency("UZS", "Узбекский сум", "uzbekistan"),
    Currency("BYN", "Белорусский рубль", "belarus"),
    Currency("THB", "Таиландский бат", "thailand"),
    Currency("UAH", "Украинская гривна", "ukraine"),
    Currency("GBP", "Британский фунт", "uk"),
    Currency("JPY", "Японская йена", "japan")
  ]

  /** backupRates: units of each currency per 1 USD. */
  const BackupRates: map<string, real> := map[
    "USD" := 1.0,
    "EUR" := 0.92,
    "RUB" := 85.49,
    "GBP" := 0.78,
    "JPY" := 149.8,
    "CNY" := 7.18,
    "TRY" := 32.5,
    "KZT" := 450.2,
    "AED" := 3.67,
    "UZS" := 12450.0,
    "BYN" := 3.25,
    "THB" := 35.8,
    "UAH" := 39.5
  ]

  /** `currencies.first(where: { $0.code == code })` */
  function FirstWithCode(currencies: seq<Currency>, code: string): (r: Option<Currency>)
    ensures r.None? <==> forall i :: 0 <= i < |currencies| ==> currencies[i].code != code
    ensures r.Some? ==> exists i :: 0 <= i < |currencies| && currencies[i] == r.value &&
                          r.value.code == code &&
                          forall j :: 0 <= j < i ==> currencies[j].code != code
  {
    if currencies == [] then None
    else if currencies[0].code == code then Some(currencies[0])
    else
      var r := FirstWithCode(currencies[1..], code);
      assert r.Some? ==> exists i :: 0 <= i < |currencies| - 1 && currencies[1..][i] == r.value &&
                          forall j :: 0 <= j < i ==> currencies[1..][j].code != code;
      r
  }

  /** The catalog's codes, in catalog order. */
  const CatalogCodes: seq<string> :=
    ["RUB", "USD", "EUR", "TRY", "KZT", "CNY", "AED", "UZS", "BYN", "THB", "UAH", "GBP", "JPY"]

  lemma CatalogCodesInOrder()
    ensures |AvailableCurrencies| == |CatalogCodes|
    ensures forall i :: 0 <= i < |CatalogCodes| ==> AvailableCurrencies[i].code == CatalogCodes[i]
  {
  }

  /** Three upper-case letters read as one number: equal numbers, equal codes. */
  function CodeNumber(code: string): int {
    if |code| == 3 then (code[0] as int) * 65536 + (code[1] as int) * 256 + code[2] as int else -1
  }

  lemma CatalogCodeListDistinct()
    ensures forall i, j :: 0 <= i < j < |CatalogCodes| ==> CatalogCodes[i] != CatalogCodes[j]
  {
    var cs := CatalogCodes;
    var ns := [CodeNumber(cs[0]), CodeNumber(cs[1]), CodeNumber(cs[2]), CodeNumber(cs[3]),
               CodeNumber(cs[4]), CodeNumber(cs[5]), CodeNumber(cs[6]), CodeNumber(cs[7]),
               CodeNumber(cs[8]), CodeNumber(cs[9]), CodeNumber(cs[10]), CodeNumber(cs[11]),
               CodeNumber(cs[12])];
    forall i, j | 0 <= i < j < |cs| ensures cs[i] != cs[j] {
      assert CodeNumber(cs[i]) == ns[i] && CodeNumber(cs[j]) == ns[j];
    }
  }

  /** No two catalog entries share a code, so a code identifies a currency. */
  lemma CatalogCodesDistinct()
    ensures forall i, j :: 0 <= i < j < |AvailableCurrencies| ==>
              AvailableCurrencies[i].code != AvailableCurrencies[j].code
  {
    CatalogCodesInOrder();
    CatalogCodeListDistinct();
  }

  /** The backup table prices exactly the catalog's currencies, each at a positive rate. */
  lemma BackupRatesCoverCatalog()
    ensures forall i :: 0 <= i < |AvailableCurrencies| ==> AvailableCurrencies[i].code in BackupRates
    ensures forall k :: k in BackupRates ==> k in CatalogCodes
    ensures forall k :: k in BackupRates ==> BackupRates[k] > 0.0
  {
    CatalogCodesInOrder();
  }

  /** Every catalog currency has its own flag, never the white one. */
  lemma CatalogFlagsKnown()
    ensures forall c :: c in AvailableCurrencies ==> FlagEmoji(c.code) != UnknownFlag
  {
    CatalogCodesInOrder();
    forall i | 0 <= i < |CatalogCodes| ensures FlagEmoji(CatalogCodes[i]) != UnknownFlag { }
  }

  /** The initial selection (Converter_mac/CurrencyCalculatorModel.swift:224-225) finds USD and RUB. */
  lemma InitialSelectionFound()
    ensures AvailableCurrencies[0] == Rub && AvailableCurrencies[1] == Usd
    ensures FirstWithCode(AvailableCurrencies, "USD") == Some(Usd)
    ensures FirstWithCode(AvailableCurrencies, "RUB") == Some(Rub)
  {
    assert AvailableCurrencies[0].code == "RUB";
    assert AvailableCurrencies[1].code == "USD";
  }
}
