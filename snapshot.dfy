/**
 * The rates the app publishes for the widget: saveRatesForWidget
 * (Converter_mac/CurrencyCalculatorModel.swift:518-566) and the shared record
 * type (line 5).  The write to shared storage is left to the caller.
 */
module Snapshot {
  import opened Wrappers
  import opened Doubles
  import opened Currencies
  import opened Rates

  /** SharedCurrencyRate; the Date stamp is a number of seconds. */
  datatype SharedCurrencyRate = SharedCurrencyRate(
    code: string, name: string, rate: Double, flagEmoji: string, timestamp: int)

  /** The currencies the widget shows, in the order it shows them. */
  const WidgetCodes: seq<string> := ["USD", "EUR", "TRY", "AED"]

  /** `table[code] ?? default` */
  function RateOr(table: RateTable, code: string, default: real): Double {
    if code in table then table[code] else Finite(default)
  }

  /** `cbrRates["USD"] ?? exchangeRates["RUB"] ?? backupRates["RUB"] ?? 85.49`: RUB per USD. */
  function SnapshotUsdRate(cbr: RateTable, ex: RateTable): Double {
    if "USD" in cbr then cbr["USD"]
    else if "RUB" in ex then ex["RUB"]
    else if "RUB" in BackupRates then Finite(BackupRates["RUB"])
    else Finite(85.49)
  }

  /** `cbrRates[code] ?? (exchangeRates["RUB"] ?? 85.49) / (exchangeRates[code] ?? default)`: RUB per unit. */
  function SnapshotCrossRate(cbr: RateTable, ex: RateTable, code: string, default: real): Double {
    if code in cbr then cbr[code] else Div(RateOr(ex, "RUB", 85.49), RateOr(ex, code, default))
  }

  /** The four records saveRatesForWidget builds, stamped `now`. */
  function WidgetSnapshot(cbr: RateTable, ex: RateTable, now: int): seq<SharedCurrencyRate> {
    [ SharedCurrencyRate("USD", "Доллар США", SnapshotUsdRate(cbr, ex), "🇺🇸", now),
      SharedCurrencyRate("EUR", "Евро", SnapshotCrossRate(cbr, ex, "EUR", 0.92), "🇪🇺", now),
      SharedCurrencyRate("TRY", "Турецкая лира", SnapshotCrossRate(cbr, ex, "TRY", 32.5), "🇹🇷", now),
      SharedCurrencyRate("AED", "Дирхам ОАЭ", SnapshotCrossRate(cbr, ex, "AED", 3.67), "🇦🇪", now) ]
  }

  /** The codes of a list of records, in order. */
  function SharedCodes(rates: seq<SharedCurrencyRate>): (r: seq<string>)
    ensures |r| == |rates|
    ensures forall i :: 0 <= i < |r| ==> r[i] == rates[i].code
  {
    if rates == [] then [] else [rates[0].code] + SharedCodes(rates[1..])
  }

  /** Where the widget currencies stand in the catalog. */
  const WidgetCatalogIndex: seq<nat> := [1, 2, 3, 6]

  /** The snapshot always holds exactly the four widget currencies in order, with the same stamp. */
  lemma WidgetSnapshotShape(cbr: RateTable, ex: RateTable, now: int)
    ensures var r := WidgetSnapshot(cbr, ex, now);
            |r| == 4 && SharedCodes(r) == WidgetCodes &&
            forall i :: 0 <= i < 4 ==> r[i].timestamp == now
  {
    var r := WidgetSnapshot(cbr, ex, now);
    forall i | 0 <= i < 4
      ensures SharedCodes(r)[i] == WidgetCodes[i]
    {
    }
  }

  /** Each snapshot record carries the catalog's name and the flag for its code. */
  lemma WidgetSnapshotCatalogued(cbr: RateTable, ex: RateTable, now: int)
    ensures var r := WidgetSnapshot(cbr, ex, now);
            forall i :: 0 <= i < 4 ==>
              r[i].flagEmoji == FlagEmoji(r[i].code) &&
              WidgetCatalogIndex[i] < |AvailableCurrencies| &&
              AvailableCurrencies[WidgetCatalogIndex[i]].code == r[i].code &&
              AvailableCurrencies[WidgetCatalogIndex[i]].name == r[i].name
  {
    CatalogCodesInOrder();
  }

  /**
   * The snapshot's rates: USD from the CBR table, else the ExchangeRate RUB rate,
   * else 85.49; every other currency from the CBR table, else the ExchangeRate
   * cross rate, whose fixed defaults are exactly the backup rates.
   */
  lemma WidgetSnapshotRates(cbr: RateTable, ex: RateTable, now: int)
    ensures var r := WidgetSnapshot(cbr, ex, now);
            r[0].rate == (if "USD" in cbr then cbr["USD"] else Lookup(ex, "RUB")) &&
            forall i :: 1 <= i < 4 ==>
              r[i].rate == (if r[i].code in cbr then cbr[r[i].code]
                            else Div(Lookup(ex, "RUB"), Lookup(ex, r[i].code)))
  {
  }
}
