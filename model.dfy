/**
 * CurrencyCalculatorModel (Converter_mac/CurrencyCalculatorModel.swift:161-733)
 * as a class over the same fields, and the model set-up of ContentView
 * (Converter_mac/ContentView.swift:9-20) and its key handler (27-52).
 */
module ConverterModel {
  import opened Wrappers
  import opened Doubles
  import opened Formatting
  import opened Currencies
  import opened Rates
  import opened Calculator
  import opened Snapshot
  import opened Keys

  class CurrencyCalculatorModel {
    /** The locale's number formatting, used by every NumberFormatter and Double(String) call. */
    const fmt: Formatter

    var displayValue: string
    var fromCurrency: Currency
    var toCurrency: Currency
    var calculationHistory: string
    var conversionRate: Double
    var convertedValue: string
    var pendingOperation: CalculatorOperation
    var storedValue: real
    var isPerformingOperation: bool
    var calculatorHistory: string
    var cbrRates: RateTable
    var exchangeRates: RateTable

    /** The calculator's fields together. */
    function State(): CalcState
      reads this`displayValue, this`pendingOperation, this`storedValue, this`isPerformingOperation,
        this`calculatorHistory
    {
      CalcState(displayValue, pendingOperation, storedValue, isPerformingOperation, calculatorHistory)
    }

    /**
     * init(): the field defaults, USD -> RUB, both tables from the backup rates
     * (the CBR one re-anchored on RUB; see InitialCbrRates).  The first fetch and
     * the refresh timer it starts are not modelled.
     */
    constructor (fmt: Formatter)
      ensures this.fmt == fmt
      ensures State() == Initial
      ensures fromCurrency == Usd && toCurrency == Rub
      ensures exchangeRates == Lift(BackupRates) && cbrRates == InitialCbrRates()
      ensures conversionRate == Finite(0.012) && convertedValue == "0" && calculationHistory == ""
    {
      this.fmt := fmt;
      displayValue := "0";
      calculationHistory := "";
      conversionRate := Finite(0.012);
      convertedValue := "0";
      pendingOperation := NoOperation;
      storedValue := 0.0;
      isPerformingOperation := false;
      calculatorHistory := "";
      var from, to := UsdRubSelection(Usd, Rub);
      fromCurrency := from;
      toCurrency := to;
      exchangeRates := Lift(BackupRates);
      cbrRates := InitialCbrRates();
    }

    /** convert() */
    method Convert()
      modifies this`convertedValue
      ensures convertedValue == ConvertedAmount(fmt, displayValue, conversionRate)
    {
      var number := fmt.number(displayValue);
      if number.Some? {
        var result := Mul(Finite(number.value), conversionRate);
        var formatted := fmt.format(Decimal(0, 2), result);
        if formatted.Some? { convertedValue := formatted.value; } else { convertedValue := "Ошибка"; }
      } else {
        var cleanValue := Replace(Remove(displayValue, ' '), ',', '.');
        var value := fmt.double(cleanValue);
        if value.Some? {
          var result := Mul(Finite(value.value), conversionRate);
          var formatted := fmt.format(Decimal(0, 2), result);
          if formatted.Some? { convertedValue := formatted.value; } else { convertedValue := "Ошибка"; }
        } else {
          convertedValue := "0";
        }
      }
    }

    /** The summary line "1 X = rate Y", kept as it was when the rate cannot be formatted. */
    function RateSummary(rate: Double, from: string, to: string, previous: string): string {
      match fmt.format(Decimal(4, 4), rate)
      case Some(s) => "1 " + from + " = " + s + " " + to
      case None => previous
    }

    /** updateConversionRate() */
    method UpdateConversionRate()
      modifies this`conversionRate, this`calculationHistory, this`convertedValue
      ensures conversionRate == PairRate(fromCurrency.code, toCurrency.code, cbrRates, exchangeRates)
      ensures calculationHistory ==
                RateSummary(conversionRate, fromCurrency.code, toCurrency.code, old(calculationHistory))
      ensures convertedValue == ConvertedAmount(fmt, displayValue, conversionRate)
    {
      var useCbr := fromCurrency.code == "RUB" || toCurrency.code == "RUB";
      var ratesSource := if useCbr then cbrRates else exchangeRates;
      var fromRate := Lookup(ratesSource, fromCurrency.code);
      var toRate := Lookup(ratesSource, toCurrency.code);
      // The CBR branch's own cross-rate case cannot be reached (one side is RUB
      // there); it computes the same quotient as the ExchangeRate branch and
      // is folded into it.
      if fromCurrency.code == "RUB" {
        conversionRate := Div(One, toRate);
      } else if toCurrency.code == "RUB" {
        conversionRate := fromRate;
      } else {
        conversionRate := Div(toRate, fromRate);
      }
      var formatted := fmt.format(Decimal(4, 4), conversionRate);
      if formatted.Some? {
        calculationHistory := "1 " + fromCurrency.code + " = " + formatted.value + " " + toCurrency.code;
      }
      Convert();
    }

    /** swapCurrencies() */
    method SwapCurrencies()
      modifies this`fromCurrency, this`toCurrency, this`conversionRate, this`calculationHistory,
               this`convertedValue
      ensures fromCurrency == old(toCurrency) && toCurrency == old(fromCurrency)
      ensures conversionRate == PairRate(old(toCurrency).code, old(fromCurrency).code, cbrRates, exchangeRates)
      ensures calculationHistory ==
                RateSummary(conversionRate, fromCurrency.code, toCurrency.code, old(calculationHistory))
      ensures convertedValue == ConvertedAmount(fmt, displayValue, conversionRate)
    {
      var temp := fromCurrency;
      fromCurrency := toCurrency;
      toCurrency := temp;
      UpdateConversionRate();
    }

    /** appendDigit(digit) */
    method AppendDigit(digit: string)
      modifies this`displayValue, this`isPerformingOperation, this`convertedValue
      ensures State() == Calculator.AppendDigit(old(State()), digit)
      ensures convertedValue == ConvertedAmount(fmt, displayValue, conversionRate)
    {
      if isPerformingOperation {
        displayValue := digit;
        isPerformingOperation := false;
      } else if displayValue == "0" {
        displayValue := digit;
      } else {
        displayValue := displayValue + digit;
      }
      Convert();
    }

    /** appendDecimal() */
    method AppendDecimal()
      modifies this`displayValue, this`isPerformingOperation, this`convertedValue
      ensures State() == Calculator.AppendDecimal(old(State()))
      ensures convertedValue == ConvertedAmount(fmt, displayValue, conversionRate)
    {
      if isPerformingOperation {
        displayValue := "0.";
        isPerformingOperation := false;
      } else if '.' !in displayValue {
        displayValue := displayValue + ".";
      }
      Convert();
    }

    /** clear() */
    method Clear()
      modifies this`displayValue, this`pendingOperation, this`storedValue, this`calculatorHistory,
               this`convertedValue
      ensures State() == Calculator.Clear(old(State()))
      ensures convertedValue == ConvertedAmount(fmt, displayValue, conversionRate)
    {
      displayValue := "0";
      pendingOperation := NoOperation;
      storedValue := 0.0;
      calculatorHistory := "";
      Convert();
    }

    /** deleteLastDigit() */
    method DeleteLastDigit()
      modifies this`displayValue, this`convertedValue
      ensures State() == Calculator.DeleteLastDigit(old(State()))
      ensures convertedValue == ConvertedAmount(fmt, displayValue, conversionRate)
    {
      if |displayValue| > 1 {
        displayValue := displayValue[..|displayValue| - 1];
      } else {
        displayValue := "0";
      }
      Convert();
    }

    /** performOperation(operation) */
    method PerformOperation(operation: CalculatorOperation)
      modifies this`displayValue, this`pendingOperation, this`storedValue, this`isPerformingOperation,
               this`calculatorHistory, this`convertedValue
      ensures State() == Calculator.PerformOperation(fmt, old(State()), operation)
      ensures convertedValue == ConvertedAmount(fmt, displayValue, conversionRate)
    {
      var parsed := fmt.double(Replace(displayValue, ',', '.'));
      if parsed.Some? {
        var currentValue := parsed.value;
        if operation == Percent {
          var percentResult := currentValue / 100.0;
          displayValue := FormatDisplayValue(fmt, percentResult);
          Convert();
          return;
        }
        if pendingOperation != NoOperation {
          var result := CalculateResult(pendingOperation, storedValue, currentValue);
          displayValue := FormatDisplayValue(fmt, result);
          storedValue := result;
        } else {
          storedValue := currentValue;
        }
        pendingOperation := operation;
        isPerformingOperation := true;
        calculatorHistory := FormatDisplayValue(fmt, storedValue) + " " + Symbol(operation);
      }
      Convert();
    }

    /** performEquals() */
    method PerformEquals()
      modifies this`displayValue, this`pendingOperation, this`isPerformingOperation,
               this`calculatorHistory, this`convertedValue
      ensures State() == Calculator.PerformEquals(fmt, old(State()))
      ensures convertedValue ==
                if EqualsConverts(fmt, old(State())) then ConvertedAmount(fmt, displayValue, conversionRate)
                else old(convertedValue)
    {
      if pendingOperation != NoOperation {
        var parsed := fmt.double(Replace(displayValue, ',', '.'));
        if parsed.Some? {
          var currentValue := parsed.value;
          var result := CalculateResult(pendingOperation, storedValue, currentValue);
          calculatorHistory := FormatDisplayValue(fmt, storedValue) + " " + Symbol(pendingOperation) + " " +
                               FormatDisplayValue(fmt, currentValue) + " = " + FormatDisplayValue(fmt, result);
          displayValue := FormatDisplayValue(fmt, result);
          pendingOperation := NoOperation;
          isPerformingOperation := true;
          Convert();
        }
      }
    }

    /**
     * The main-thread half of simpleFetchCBR (lines 336-359): a decoded `Valute`
     * object replaces the CBR table when it prices enough required currencies,
     * and is otherwise dropped.
     */
    method ApplyCbrResponse(valute: map<string, CbrEntry>) returns (accepted: bool)
      modifies this`cbrRates
      ensures accepted == AcceptCbr(valute).Some?
      ensures cbrRates == if accepted then AcceptCbr(valute).value else old(cbrRates)
    {
      var rates := ParseCbrValute(valute);
      var hasEnoughData := CountPresent(CbrRequired, rates) >= 3;
      if hasEnoughData {
        cbrRates := rates;
      }
      accepted := hasEnoughData;
    }

    /**
     * The main-thread half of fetchExchangeRateOnly (lines 411-433): an accepted
     * `rates` object replaces the ExchangeRate table, the pair rate is
     * recomputed, and the widget snapshot is built and returned for saving;
     * a rejected one changes nothing.
     */
    method ApplyExchangeRateResponse(rates: map<string, real>, now: int)
      returns (published: Option<seq<SharedCurrencyRate>>)
      modifies this`exchangeRates, this`conversionRate, this`calculationHistory, this`convertedValue
      ensures AcceptExchangeRates(rates).None? ==>
                published == None && exchangeRates == old(exchangeRates) &&
                conversionRate == old(conversionRate) && calculationHistory == old(calculationHistory) &&
                convertedValue == old(convertedValue)
      ensures AcceptExchangeRates(rates).Some? ==>
                exchangeRates == Lift(rates) &&
                conversionRate == PairRate(fromCurrency.code, toCurrency.code, cbrRates, exchangeRates) &&
                calculationHistory ==
                  RateSummary(conversionRate, fromCurrency.code, toCurrency.code, old(calculationHistory)) &&
                convertedValue == ConvertedAmount(fmt, displayValue, conversionRate) &&
                published == Some(WidgetSnapshot(cbrRates, exchangeRates, now))
    {
      var hasEnoughData := HasEnoughData(ExchangeRateRequired, rates);
      if hasEnoughData {
        exchangeRates := Lift(rates);
        UpdateConversionRate();
        var snapshot := SaveRatesForWidget(now);
        published := Some(snapshot);
      } else {
        published := None;
      }
    }

    /** saveRatesForWidget() without the save: the four records, stamped `now`. */
    method SaveRatesForWidget(now: int) returns (rates: seq<SharedCurrencyRate>)
      ensures rates == WidgetSnapshot(cbrRates, exchangeRates, now)
      ensures |rates| == 4 && SharedCodes(rates) == WidgetCodes
    {
      rates := [];
      var rateUsd := SnapshotUsdRate(cbrRates, exchangeRates);
      rates := rates + [SharedCurrencyRate("USD", "Доллар США", rateUsd, "🇺🇸", now)];
      var rateEur := if "EUR" in cbrRates then cbrRates["EUR"]
                     else Div(RateOr(exchangeRates, "RUB", 85.49), RateOr(exchangeRates, "EUR", 0.92));
      rates := rates + [SharedCurrencyRate("EUR", "Евро", rateEur, "🇪🇺", now)];
      var rateTry := if "TRY" in cbrRates then cbrRates["TRY"]
                     else Div(RateOr(exchangeRates, "RUB", 85.49), RateOr(exchangeRates, "TRY", 32.5));
      rates := rates + [SharedCurrencyRate("TRY", "Турецкая лира", rateTry, "🇹🇷", now)];
      var rateAed := if "AED" in cbrRates then cbrRates["AED"]
                     else Div(RateOr(exchangeRates, "RUB", 85.49), RateOr(exchangeRates, "AED", 3.67));
      rates := rates + [SharedCurrencyRate("AED", "Дирхам ОАЭ", rateAed, "🇦🇪", now)];
      WidgetSnapshotShape(cbrRates, exchangeRates, now);
    }

    /** handleKeyPress(key) in ContentView, run on this model. */
    method HandleKeyPress(key: string)
      modifies this`displayValue, this`pendingOperation, this`storedValue, this`isPerformingOperation,
               this`calculatorHistory, this`convertedValue
      ensures State() == CommandStep(fmt, old(State()), KeyCommand(key))
      ensures convertedValue ==
                if CommandConverts(fmt, old(State()), KeyCommand(key)) then ConvertedAmount(fmt, displayValue, conversionRate)
                else old(convertedValue)
      ensures KeyCommand(key) == Ignored ==> unchanged(this)
    {
      if key in {"0", "1", "2", "3", "4", "5", "6", "7", "8", "9"} {
        AppendDigit(key);
      } else if key == "." {
        AppendDecimal();
      } else if key == "+" {
        PerformOperation(Add);
      } else if key == "-" {
        PerformOperation(Subtract);
      } else if key in {"*", "×", "x"} {
        PerformOperation(Multiply);
      } else if key in {"/", "÷"} {
        PerformOperation(Divide);
      } else if key == "%" {
        PerformOperation(Percent);
      } else if key in {"=", "Enter", "Return"} {
        PerformEquals();
      } else if key in {"Backspace", "Delete"} {
        DeleteLastDigit();
      } else if key in {"c", "C"} {
        Clear();
      }
    }
  }

  /** "1 USD = r CODE" for a formatted `r`, or the failure text when formatting fails. */
  function UsdLabel(formatted: Option<string>, code: string, failure: string): (r: string)
    ensures formatted.Some? ==> r == "1 USD = " + formatted.value + " " + code
    ensures formatted.None? ==> r == failure
  {
    match formatted
    case Some(s) => "1 USD = " + s + " " + code
    case None => failure
  }

  /**
   * getRateForCurrency as written: the currency's entry (from the CBR table
   * for RUB) over the ExchangeRate USD entry, or "N/A".
   */
  function AsWrittenRateLabel(fmt: Formatter, code: string, cbr: RateTable, ex: RateTable): string {
    var ratesSource := if code == "RUB" then cbr else ex;
    if "USD" in ex && code in ratesSource then
      UsdLabel(fmt.format(Decimal(0, 4), Div(ratesSource[code], ex["USD"])), code, "N/A")
    else "N/A"
  }

  /**
   * A parsed CBR table is anchored on RUB (RUB is 1), so once a CBR response
   * without a RUB entry is accepted, the RUB label as written says 1 USD is
   * 1 RUB per USD entry, whatever the CBR price of USD. Only on the start-up
   * tables as written, both the USD-anchored backup rates, does it read 85.49.
   */
  lemma AsWrittenRateLabelIgnoresCbrPrice(fmt: Formatter, valute: map<string, CbrEntry>, ex: RateTable)
    requires "RUB" !in CompleteEntries(valute)
    requires "USD" in ex && ex["USD"] == One
    ensures AsWrittenRateLabel(fmt, "RUB", CbrTable(valute), ex) ==
              UsdLabel(fmt.format(Decimal(0, 4), One), "RUB", "N/A")
    ensures AsWrittenRateLabel(fmt, "RUB", AsWrittenInitialCbrRates(), Lift(BackupRates)) ==
              UsdLabel(fmt.format(Decimal(0, 4), Finite(85.49)), "RUB", "N/A")
  {
    DivSelf(One);
    assert Lift(BackupRates)["USD"] == One;
    assert Lift(BackupRates)["RUB"] == Finite(85.49);
  }

  /**
   * getRateForCurrency as intended: for RUB the CBR price of one USD in RUB,
   * as the picker's row shows it; for other currencies as written.
   */
  function RateLabel(fmt: Formatter, code: string, cbr: RateTable, ex: RateTable): (r: string)
    ensures code == "RUB" ==>
              r == if "USD" in cbr then UsdLabel(fmt.format(Decimal(0, 4), cbr["USD"]), "RUB", "N/A") else "N/A"
    ensures code != "RUB" ==> r == AsWrittenRateLabel(fmt, code, cbr, ex)
    ensures ("USD" !in ex || code !in ex) && code != "RUB" ==> r == "N/A"
  {
    if code == "RUB" then
      if "USD" in cbr then UsdLabel(fmt.format(Decimal(0, 4), cbr["USD"]), code, "N/A") else "N/A"
    else if "USD" in ex && code in ex then
      UsdLabel(fmt.format(Decimal(0, 4), Div(ex[code], ex["USD"])), code, "N/A")
    else "N/A"
  }

  /** With a parsed CBR table the intended RUB label shows the CBR price of USD. */
  lemma RateLabelShowsCbrPrice(fmt: Formatter, valute: map<string, CbrEntry>, ex: RateTable)
    ensures "USD" in valute && Complete(valute["USD"]) ==>
              RateLabel(fmt, "RUB", CbrTable(valute), ex) ==
                UsdLabel(fmt.format(Decimal(0, 4), CbrRate(valute["USD"])), "RUB", "N/A")
    ensures RateLabel(fmt, "RUB", InitialCbrRates(), Lift(BackupRates)) ==
              UsdLabel(fmt.format(Decimal(0, 4), Finite(85.49)), "RUB", "N/A")
  {
    BackupRatesCoverCatalog();
    assert InitialCbrRates()["USD"] == Div(Finite(85.49), Finite(1.0));
  }

  /**
   * The two `first(where:) ?? fallback` look-ups of init
   * (Converter_mac/CurrencyCalculatorModel.swift:224-225), repeated by
   * ContentView's model set-up (Converter_mac/ContentView.swift:13-14): the
   * catalog always has USD and RUB.
   */
  method UsdRubSelection(from: Currency, to: Currency) returns (newFrom: Currency, newTo: Currency)
    ensures newFrom == Usd && newTo == Rub
  {
    InitialSelectionFound();
    newFrom := FirstWithCode(AvailableCurrencies, "USD").GetOr(from);
    newTo := FirstWithCode(AvailableCurrencies, "RUB").GetOr(to);
  }

  /**
   * ContentView's model (Converter_mac/ContentView.swift:9-20): a new model with
   * USD -> RUB selected again and the pair rate computed. Starting from the
   * corrected start-up CBR table, the first rate shown is 85.49 RUB per USD;
   * from the table as written it would be 1.0 (Rates.AsWrittenInitialRatesMisprice).
   */
  method NewContentViewModel(fmt: Formatter) returns (model: CurrencyCalculatorModel)
    ensures fresh(model) && model.fmt == fmt
    ensures model.fromCurrency.code == "USD" && model.toCurrency.code == "RUB"
    ensures model.State() == Initial
    ensures model.conversionRate == Finite(85.49)
    ensures model.convertedValue == ConvertedAmount(fmt, "0", Finite(85.49))
  {
    model := new CurrencyCalculatorModel(fmt);
    var from, to := UsdRubSelection(model.fromCurrency, model.toCurrency);
    model.fromCurrency := from;
    model.toCurrency := to;
    InitialCbrRatesAreRubAnchored();
    ghost var rate := PairRate("USD", "RUB", model.cbrRates, model.exchangeRates);
    assert rate == Finite(85.49);
    model.UpdateConversionRate();
    assert model.conversionRate == rate;
  }
}
