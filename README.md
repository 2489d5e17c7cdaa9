# Currency converter core, modelled in Dafny

This project models the parts of a macOS currency converter (with a WidgetKit widget) that do the real work:

- **Calculator keypad.** The digit, decimal, clear, backspace, operator and equals actions of `CurrencyCalculatorModel`, and the key dispatch in `ContentView`.
- **Conversion.** The conversion of the entered amount at the selected pair's rate.
- **Rate tables.** Two tables are kept:
  - the Central Bank of Russia table (CBR, roubles per unit), used whenever RUB is one side of the pair;
  - the ExchangeRate table (units per US dollar), used otherwise.
- **Accepting downloads.** The rules that accept a downloaded table, or reject it and keep the previous one.
- **Widget snapshot.** The four-currency snapshot the app saves for the widget.
- **Widget side.** How the widget turns a CBR `Valute` object or an ExchangeRate table into its four rows. It falls back to fixed rates when both fail. Given a shared store holding the app's snapshot, it prefers that snapshot for an hour after the save; as written, though, the app and the widget name different app-group suites, so the widget never sees the app's save (see Findings). It orders its small-view rows USD, EUR, TRY, AED.
- **Picker.** The currency picker's search and its rate row.

Modules, one per concern:

| module | file | what it holds |
|---|---|---|
| `Wrappers` | wrappers.dfy | `Option` and its `??` |
| `Doubles` | doubles.dfy | the finite / infinite / NaN results of Swift `Double` division and multiplication that the rate arithmetic can reach |
| `Formatting` | formatting.dfy | the injected `NumberFormatter` / `Double(String)` behaviour (`Formatter`), the character replacements, the display formatting |
| `Currencies` | currencies.dfy | the thirteen-currency catalog, flags, backup rates |
| `Rates` | rates.dfy | rate look-up with fallbacks, the pair rate, conversion, CBR table building and the acceptance rules |
| `Calculator` | calculator.dfy | the keypad state and one step function per action |
| `Snapshot` | snapshot.dfy | the records saved for the widget |
| `Keys` | keys.dfy | key to command dispatch, the rate source label |
| `ConverterModel` | model.dfy | the `CurrencyCalculatorModel` class, whose methods update its fields as the app's do; the rate labels; the view's set-up |
| `Widget` | widget.dfy | the widget's entries, fetch fallbacks, timeline and visible rows |
| `Picker` | picker.dfy | search filtering and the picker's rate row |

Outside input is passed in as parameters:

- Number formatting and parsing come in as a `Formatter` value.
- Clocks come in as an integer count of seconds (`now`).
- Network responses come in as already-decoded values: CBR `Valute` entries with optional Value and Nominal; an ExchangeRate `rates` map; or "unavailable".

## Model

| member | source | states |
|---|---|---|
| Doubles.DivByZeroIsNotFinite | Converter_mac/CurrencyCalculatorModel.swift:490 | a rate divided by a zero rate is never a finite number (infinity or NaN), so a zero backup never yields a usable rate |
| Doubles.DivSelf | Converter_mac/CurrencyCalculatorModel.swift:500 | a nonzero finite rate over itself is exactly 1 |
| Doubles.DivSwapIsReciprocal | Converter_mac/CurrencyCalculatorModel.swift:496-500 | swapping numerator and denominator of a ratio of nonzero rates gives its reciprocal, which is again nonzero and finite |
| Doubles.ReciprocalInvolution | Converter_mac/CurrencyCalculatorModel.swift:490 | 1/(1/x) is x for a nonzero finite rate |
| Doubles.MulFiniteIsFinite | Converter_mac/CurrencyCalculatorModel.swift:683-712 | an amount times a rate is finite exactly when the rate is, and is then the real product |
| Formatting.Replace | Converter_mac/CurrencyCalculatorModel.swift:617 | the result has the input's length and differs from it only where the replaced character stood |
| Formatting.Remove | Converter_mac/CurrencyCalculatorModel.swift:696-697 | removing spaces leaves no space and keeps every other character with its multiplicity |
| Formatting.ReplaceIdempotent | Converter_mac/CurrencyCalculatorModel.swift:698 | after replacing ',' with '.' no ',' is left, so replacing again changes nothing |
| Currencies.FirstWithCode | Converter_mac/CurrencyCalculatorModel.swift:224-225 | `first(where:)`: none exactly when no entry has the code; otherwise the earliest entry with that code |
| Currencies.CatalogCodesInOrder | Converter_mac/CurrencyCalculatorModel.swift:189-203 | the catalog lists RUB, USD, EUR, TRY, KZT, CNY, AED, UZS, BYN, THB, UAH, GBP, JPY in that order |
| Currencies.CatalogCodeListDistinct | Converter_mac/CurrencyCalculatorModel.swift:189-203 | no code appears twice in the catalog's code list |
| Currencies.CatalogCodesDistinct | Converter_mac/CurrencyCalculatorModel.swift:189-203 | no two catalog currencies share a code |
| Currencies.BackupRatesCoverCatalog | Converter_mac/CurrencyCalculatorModel.swift:206-220 | every catalog currency has a backup rate, every backup rate is for a catalog currency, and all are positive |
| Currencies.CatalogFlagsKnown | Converter_mac/CurrencyCalculatorModel.swift:120-137 | no catalog currency gets the white-flag default of the flag table |
| Currencies.InitialSelectionFound | Converter_mac/CurrencyCalculatorModel.swift:222-225 | the catalog starts with RUB and USD, and the look-ups of the initial selection find exactly those two entries |
| Rates.LiftLookup | Converter_mac/CurrencyCalculatorModel.swift:228 | looking a currency up in the stored table gives its input rate as a finite number, and a currency not in the input falls back exactly as in an empty table |
| Rates.LookupMissingFallsBack | Converter_mac/CurrencyCalculatorModel.swift:482-483 | a currency missing from the source table gets its positive backup rate if it is in the catalog, and 1.0 if it has no backup |
| Rates.PairRateRule | Converter_mac/CurrencyCalculatorModel.swift:474-502 | the CBR table is chosen exactly when one side is RUB. From RUB the rate is 1 over the target's rate. To RUB it is the source's rate. Otherwise it is the target's ExchangeRate rate over the source's |
| Rates.PairRateReadsSelectedTable | Converter_mac/CurrencyCalculatorModel.swift:474-483 | the pair rate depends only on the table it selects: changing the other table never changes it |
| Rates.SwapInvertsPairRate | Converter_mac/CurrencyCalculatorModel.swift:568-573 | for two distinct currencies whose entries in the table the pair reads are nonzero and finite (the CBR entry of the non-RUB side for a RUB pair, both ExchangeRate entries otherwise), swapping the currencies gives the reciprocal rate |
| Rates.SameCurrencyRate | Converter_mac/CurrencyCalculatorModel.swift:488-502 | a non-RUB currency to itself converts at exactly 1. RUB to RUB converts at 1 exactly when the CBR table prices RUB at 1 |
| Rates.ConvertedAmountCases | Converter_mac/CurrencyCalculatorModel.swift:683-712 | an amount neither parser reads shows "0". An amount the formatter reads is multiplied by the rate and formatted with up to two decimals ("Ошибка" when formatting fails). When formatting never prints "0", a "0" result means neither parser read the amount |
| Rates.CbrTable | Converter_mac/CurrencyCalculatorModel.swift:335-344 | the table prices every complete entry at Value over Nominal and always contains RUB, at 1 unless the response itself prices RUB |
| Rates.CountPresent | Converter_mac/CurrencyCalculatorModel.swift:346-348 | the count of required codes present is at most their number; it is full exactly when all are present, and zero exactly when none is |
| Rates.CountPresentAppend | Converter_mac/CurrencyCalculatorModel.swift:346-348 | the count over two lists of codes is the sum of their counts |
| Rates.CountPresentSameCodes | Converter_mac/CurrencyCalculatorModel.swift:346-348 | two tables with the same required codes present have the same count |
| Rates.CountPresentMonotone | Converter_mac/CurrencyCalculatorModel.swift:346-348 | a table holding every required code another holds has at least its count |
| Rates.AcceptCbrRule | Converter_mac/CurrencyCalculatorModel.swift:335-353 | a CBR response is accepted exactly when at least three of USD, EUR, GBP, CNY are fully priced; the accepted table is the parsed one and contains RUB |
| Rates.CbrTwoOfFourRejected | Converter_mac/CurrencyCalculatorModel.swift:346-353 | a response missing GBP and CNY is always rejected |
| Rates.AcceptExchangeRatesReplaces | Converter_mac/CurrencyCalculatorModel.swift:412-421 | an ExchangeRate table is accepted exactly when at least three of USD, EUR, RUB, GBP, JPY, CNY, TRY are present; it then replaces the old table entry for entry |
| Rates.ParseCbrValute | Converter_mac/CurrencyCalculatorModel.swift:335-344 | the loop over `Valute` builds exactly the CBR table (RUB at 1, each complete entry at Value over Nominal) |
| Rates.AsWrittenInitialRatesMisprice | Converter_mac/CurrencyCalculatorModel.swift:228-229 | with the start-up CBR table set to the USD-anchored backup rates, USD to RUB converts at 1 and RUB to RUB at 1/85.49 |
| Rates.InitialCbrRatesAreRubAnchored | Converter_mac/CurrencyCalculatorModel.swift:206-229 | the corrected start-up CBR table prices RUB at 1, so RUB to RUB is 1 and USD to RUB is 85.49 |
| Rates.InitialCbrRatesMatchBackupCrossRates | Converter_mac/CurrencyCalculatorModel.swift:206-229 | the corrected start-up CBR table prices every backed-up currency at the RUB backup rate over its own backup rate |
| Calculator.SymbolInjective | Converter_mac/CurrencyCalculatorModel.swift:149-158 | distinct operations have distinct symbols, and only "no operation" has the empty symbol |
| Calculator.DivideByZeroIsZero | Converter_mac/CurrencyCalculatorModel.swift:662-663 | dividing by zero gives 0; any other division undoes multiplication |
| Calculator.AppendDigitCases | Converter_mac/CurrencyCalculatorModel.swift:577-587 | after an operation the digit replaces the display. A lone "0" is replaced. Otherwise the digit is appended. The operation flag is cleared and nothing else changes |
| Calculator.AppendDecimalCases | Converter_mac/CurrencyCalculatorModel.swift:589-597 | after an operation the display becomes "0."; a display with a point is left alone; otherwise a point is appended; nothing else changes |
| Calculator.DeleteLastDigitCases | Converter_mac/CurrencyCalculatorModel.swift:607-614 | a display of one character or fewer becomes "0"; a longer one loses exactly its last character; nothing else changes |
| Calculator.EditsKeepValidEntry | Converter_mac/CurrencyCalculatorModel.swift:577-614 | typing digits, the point, backspace and clear keep the display a digit string with at most one point |
| Calculator.AppendedDigitValid | Converter_mac/CurrencyCalculatorModel.swift:577-587 | digits appended to a valid entry other than "0" leave a valid entry |
| Calculator.AppendedPointValid | Converter_mac/CurrencyCalculatorModel.swift:589-597 | a point appended to a valid entry without one leaves a valid entry |
| Calculator.DroppedLastValid | Converter_mac/CurrencyCalculatorModel.swift:607-614 | dropping the last character of a valid entry longer than one character leaves a valid entry |
| Calculator.PendingNeverPercent | Converter_mac/CurrencyCalculatorModel.swift:616-652 | no action ever leaves percent as the pending operation, because percent applies at once |
| Calculator.ClearIdempotent | Converter_mac/CurrencyCalculatorModel.swift:599-605 | clear resets display, pending operation, stored value and history and keeps the operation flag; clearing twice is clearing once |
| Calculator.PerformOperationCases | Converter_mac/CurrencyCalculatorModel.swift:616-639 | an unparseable display changes nothing. Percent divides the display by 100. With an operation pending, the pending result is shown and stored. Otherwise the display is stored. The new operation becomes pending and the history is "stored symbol", the new stored value followed by the operation's symbol |
| Calculator.PerformEqualsCases | Converter_mac/CurrencyCalculatorModel.swift:641-652 | without a pending operation and a parseable display nothing changes. Otherwise the result is shown, the history records "stored symbol operand = result" and the pending operation is dropped. A second equals changes nothing |
| Calculator.TypingDigits | Converter_mac/CurrencyCalculatorModel.swift:577-587 | typing 1, 2, 3 from the start shows "123" |
| Calculator.ThreePlusFive | Converter_mac/CurrencyCalculatorModel.swift:616-669 | with a formatter that prints whole numbers without fraction digits, 3 + shows history "3 +", and 3 + 5 = shows "8" and records "3 + 5 = 8" |
| Snapshot.SharedCodes | Converter_mac/CurrencyCalculatorModel.swift:518-566 | the codes of the records, in order |
| Snapshot.WidgetSnapshotShape | Converter_mac/CurrencyCalculatorModel.swift:518-566 | the snapshot is four records with the codes USD, EUR, TRY, AED, in that order, each stamped with the save time |
| Snapshot.WidgetSnapshotCatalogued | Converter_mac/CurrencyCalculatorModel.swift:518-566 | each snapshot record carries its code's flag and the name of the catalog currency with that code |
| Snapshot.WidgetSnapshotRates | Converter_mac/CurrencyCalculatorModel.swift:523-555 | USD is priced from the CBR table, else the ExchangeRate RUB rate (with its defaults). Every other record comes from the CBR table, else RUB per USD over units per USD |
| Keys.DigitKeys | Converter_mac/ContentView.swift:28-29 | a key is a digit command exactly when it is a single digit, which is then the digit typed |
| Keys.OperatorKeys | Converter_mac/ContentView.swift:30-41 | each operator command is produced by exactly its keys ("*", "×", "x" multiply; "/", "÷" divide; ...), and no key yields "no operation" |
| Keys.OtherKeys | Converter_mac/ContentView.swift:42-49 | equals, delete and clear are produced by exactly their keys; every other key is ignored |
| Keys.IgnoredKeyChangesNothing | Converter_mac/ContentView.swift:48-49 | an unhandled key leaves the calculator as it was and triggers no conversion |
| Keys.KeysKeepInvariants | Converter_mac/ContentView.swift:27-52 | no key press makes percent pending, and editing keys keep a valid entry valid |
| Keys.SourceLabelNamesTable | Converter_mac/ContentView.swift:336 | the label names the CBR exactly when the pair rate reads the CBR table, and the rate then ignores the ExchangeRate table (and conversely) |
| ConverterModel.CurrencyCalculatorModel.constructor | Converter_mac/CurrencyCalculatorModel.swift:161-236 | fresh calculator state; the catalog's USD entry selected as source and its RUB entry as target; ExchangeRate table at the backup rates; CBR table at the corrected RUB-anchored start-up table; rate 0.012 and amount "0" |
| ConverterModel.CurrencyCalculatorModel.Convert | Converter_mac/CurrencyCalculatorModel.swift:683-712 | the converted amount is the display converted at the current rate, and only it changes |
| ConverterModel.CurrencyCalculatorModel.UpdateConversionRate | Converter_mac/CurrencyCalculatorModel.swift:470-515 | the rate becomes the pair rate for the selected codes and tables. The summary "1 FROM = rate TO" replaces the history when formatting succeeds. The amount is re-converted |
| ConverterModel.CurrencyCalculatorModel.SwapCurrencies | Converter_mac/CurrencyCalculatorModel.swift:568-573 | the two currencies trade places and the rate, summary and amount are recomputed for the swapped pair |
| ConverterModel.CurrencyCalculatorModel.AppendDigit | Converter_mac/CurrencyCalculatorModel.swift:577-587 | the calculator takes the digit step and the amount is re-converted |
| ConverterModel.CurrencyCalculatorModel.AppendDecimal | Converter_mac/CurrencyCalculatorModel.swift:589-597 | the calculator takes the decimal step and the amount is re-converted |
| ConverterModel.CurrencyCalculatorModel.Clear | Converter_mac/CurrencyCalculatorModel.swift:599-605 | the calculator is cleared and the amount is re-converted |
| ConverterModel.CurrencyCalculatorModel.DeleteLastDigit | Converter_mac/CurrencyCalculatorModel.swift:607-614 | the calculator takes the backspace step and the amount is re-converted |
| ConverterModel.CurrencyCalculatorModel.PerformOperation | Converter_mac/CurrencyCalculatorModel.swift:616-639 | the calculator takes the operation step and the amount is re-converted, even when the display did not parse |
| ConverterModel.CurrencyCalculatorModel.PerformEquals | Converter_mac/CurrencyCalculatorModel.swift:641-652 | the calculator takes the equals step; the amount is re-converted only when an equation was completed |
| ConverterModel.CurrencyCalculatorModel.ApplyCbrResponse | Converter_mac/CurrencyCalculatorModel.swift:335-353 | a response that prices at least three of USD, EUR, GBP, CNY replaces the CBR table with the parsed one; a rejected one leaves it |
| ConverterModel.CurrencyCalculatorModel.ApplyExchangeRateResponse | Converter_mac/CurrencyCalculatorModel.swift:412-429 | a rejected table changes nothing and publishes nothing. An accepted one replaces the ExchangeRate table, recomputes rate, summary and amount, and publishes the widget snapshot |
| ConverterModel.CurrencyCalculatorModel.SaveRatesForWidget | Converter_mac/CurrencyCalculatorModel.swift:518-566 | the saved records are the widget snapshot of the current tables: four records, USD, EUR, TRY, AED |
| ConverterModel.CurrencyCalculatorModel.HandleKeyPress | Converter_mac/ContentView.swift:27-52 | the calculator takes the step of the key's command, the amount is re-converted when that command converts, and an ignored key changes no field |
| ConverterModel.AsWrittenRateLabelIgnoresCbrPrice | Converter_mac/CurrencyCalculatorModel.swift:714-732 | as written, the RUB label divides the RUB entry by the ExchangeRate USD entry, so after any accepted CBR response without a RUB entry it reads "1 USD = 1 RUB"; only on the start-up tables as written does it read 85.49 |
| ConverterModel.RateLabel | Converter_mac/CurrencyCalculatorModel.swift:714-732 | corrected: RUB shows the CBR price of one USD. Other currencies are labelled as written, and "N/A" when either ExchangeRate entry is missing |
| ConverterModel.RateLabelShowsCbrPrice | Converter_mac/CurrencyCalculatorModel.swift:714-732 | with a parsed CBR table the corrected RUB label shows the USD Value over Nominal; at start-up it shows 85.49 |
| ConverterModel.UsdRubSelection | Converter_mac/CurrencyCalculatorModel.swift:224-225 | the `first(where:)` look-ups for USD and RUB, made by `init` and again by the view's set-up, select the catalog's USD entry as source and its RUB entry as target, whatever was selected before |
| ConverterModel.NewContentViewModel | Converter_mac/ContentView.swift:9-20 | the view's model starts at USD to RUB with a fresh calculator; with the corrected start-up CBR table the rate is 85.49 and the amount is converted at it |
| Widget.Placeholder | CurrencyWidgetExtension/CurrencyWidget.swift:31-41 | the placeholder's four rows, written out on their own, are exactly the fallback entry's |
| Widget.Expected | CurrencyWidgetExtension/CurrencyWidget.swift:126-186 | one record per required currency, in order: CBR-priced when the response prices it, otherwise at its backup rate |
| Widget.ParseCbrRates | CurrencyWidgetExtension/CurrencyWidget.swift:140-180 | the two loops build exactly the entry `Valute` determines: the priced required currencies, then backups for the rest |
| Widget.FoundStep | CurrencyWidgetExtension/CurrencyWidget.swift:140-154 | one turn of the first loop appends the next required currency at its CBR price exactly when the response prices it |
| Widget.MissingStep | CurrencyWidgetExtension/CurrencyWidget.swift:157-180 | one turn of the second loop appends the next required currency at its backup rate exactly when its code is not yet listed |
| Widget.FoundFacts | CurrencyWidgetExtension/CurrencyWidget.swift:140-154 | the first loop keeps only priced currencies, keeps every priced one, and is empty exactly when none is priced |
| Widget.MissingFacts | CurrencyWidgetExtension/CurrencyWidget.swift:157-180 | the second loop adds only currencies not yet listed, nothing when all are listed, and all backups when none is |
| Widget.FoundAndMissingArePermutation | CurrencyWidgetExtension/CurrencyWidget.swift:140-180 | the two loops together produce the expected records, each exactly once |
| Widget.LastRecordOnce | CurrencyWidgetExtension/CurrencyWidget.swift:140-180 | when a currency is listed by the first loop exactly when priced, the two loops add exactly one record for it, the expected one |
| Widget.ExpectedSnoc | CurrencyWidgetExtension/CurrencyWidget.swift:126-186 | the expected records of a list of currencies are those of all but the last, followed by the last one's |
| Widget.MissingUnpriced | CurrencyWidgetExtension/CurrencyWidget.swift:160-180 | every backed-up record is for a currency the response does not price |
| Widget.FoundCodesArePriced | CurrencyWidgetExtension/CurrencyWidget.swift:140-159 | a required code is listed by the first loop exactly when the response prices it |
| Widget.CbrEntryRatesSplit | CurrencyWidgetExtension/CurrencyWidget.swift:140-180 | the entry is the first loop's records followed by the second loop's |
| Widget.CbrEntryRatesComplete | CurrencyWidgetExtension/CurrencyWidget.swift:126-186 | a decoded response always yields four records, the expected ones, each once |
| Widget.CbrEntryRatesPricedFirst | CurrencyWidgetExtension/CurrencyWidget.swift:140-180 | CBR-priced records come before backed-up ones |
| Widget.EmptyValuteGivesFallbackRates | CurrencyWidgetExtension/CurrencyWidget.swift:157-180 | an empty `Valute` yields exactly the fallback rates |
| Widget.BuildExchangeRateRates | CurrencyWidgetExtension/CurrencyWidget.swift:246-308 | the appends build exactly the ExchangeRate fallback entry, or nothing when it cannot be built |
| Widget.ExchangeRateEntryUsed | CurrencyWidgetExtension/CurrencyWidget.swift:246-308 | the ExchangeRate data is used exactly when it has RUB and one of EUR, TRY, AED |
| Widget.ExchangeRateEntryShape | CurrencyWidgetExtension/CurrencyWidget.swift:246-308 | USD comes first at the RUB rate. Each present widget currency follows, and only those, at RUB per USD over its units per USD |
| Widget.ExchangeRateEntryOrdered | CurrencyWidgetExtension/CurrencyWidget.swift:246-308 | the fallback's records are strictly in widget order |
| Widget.CbrEntryCodes | CurrencyWidgetExtension/CurrencyWidget.swift:126-186 | every CBR entry record is a widget currency |
| Widget.SimpleFetchCbrShape | CurrencyWidgetExtension/CurrencyWidget.swift:101-220 | a fetched entry is dated now and has two to four widget currencies, always including USD, whichever source answered |
| Widget.IsDataFreshIff | CurrencyWidgetExtension/CurrencyDataService.swift:69-82 | stored data is fresh exactly when a save time exists and lies less than the window's seconds in the past |
| Widget.GetTimelineRule | CurrencyWidgetExtension/CurrencyWidget.swift:70-98 | one entry. Records saved under an hour ago are shown as saved, dated by the save, and asked for again in an hour. Otherwise a fetched entry is shown and asked for again in three hours |
| Widget.OrderIndexPlaces | CurrencyWidgetExtension/CurrencyWidget.swift:400-401 | a widget currency's index is its place in USD, EUR, TRY, AED; any other code gets 999 |
| Widget.FilterWidget | CurrencyWidgetExtension/CurrencyWidget.swift:399-403 | keeps exactly the widget currencies, each no more often than given, and everything when all are widget currencies |
| Widget.InsertBy | CurrencyWidgetExtension/CurrencyWidget.swift:400-402 | inserting into a sorted list keeps it sorted and adds exactly the new element |
| Widget.SortBy | CurrencyWidgetExtension/CurrencyWidget.swift:400-402 | sorting yields a sorted permutation |
| Widget.SortedPermutationOfStrict | CurrencyWidgetExtension/CurrencyWidget.swift:400-402 | a sorted permutation of a strictly ordered list is that list |
| Widget.SortedPrefixFacts | CurrencyWidgetExtension/CurrencyWidget.swift:400-403 | the first four (or fewer) of a sorted list are sorted, number min(4, length), come from the list, and are all of it when it is that short |
| Widget.VisibleRatesFacts | CurrencyWidgetExtension/CurrencyWidget.swift:397-404 | the rows are sorted widget currencies of the entry, at most four, and all of them when there are at most four |
| Widget.VisibleRatesOfOrdered | CurrencyWidgetExtension/CurrencyWidget.swift:397-404 | an entry already strictly in widget order is shown as is |
| Widget.WidgetCodesInOrder | CurrencyWidgetExtension/CurrencyWidget.swift:400-401 | records with the codes USD, EUR, TRY, AED, in that order, are strictly in widget order |
| Widget.ExpectedInWidgetOrder | CurrencyWidgetExtension/CurrencyWidget.swift:132-137 | the required currencies are USD, EUR, TRY, AED, in widget order |
| Widget.VisibleCbrRates | CurrencyWidgetExtension/CurrencyWidget.swift:126-186 | a CBR entry's rows are exactly the expected records, in the order USD, EUR, TRY, AED |
| Widget.VisibleExchangeRateRates | CurrencyWidgetExtension/CurrencyWidget.swift:246-308 | an ExchangeRate entry's rows are the entry itself |
| Widget.SharedRatesRead | CurrencyWidgetExtension/CurrencyWidget.swift:70-98 | shared records for USD, EUR, TRY, AED read back as four widget rows with the same codes, strictly in order, with the same names, prices and flags |
| Widget.SnapshotAsWidgetRates | Converter_mac/CurrencyCalculatorModel.swift:518-566 | given a shared store holding the app's snapshot, it reads back as the four widget currencies strictly in order, with the app's names, prices and flags |
| Widget.SharedSnapshotShown | CurrencyWidgetExtension/CurrencyWidget.swift:70-98 | given a shared store holding the app's snapshot, within the hour after the save the widget shows USD, EUR, TRY, AED with exactly the names, prices and flags the app saved, dated by the save |
| Widget.SaveShared | Converter_mac/CurrencyCalculatorModel.swift:30-39 | saving puts the records and the save time under the given suite and leaves every other suite as it was |
| Widget.ReadShared | CurrencyWidgetExtension/CurrencyDataService.swift:45-82 | a suite that was never written reads as no save time and no records |
| Widget.AsWrittenWidgetMissesAppSave | CurrencyWidgetExtension/CurrencyDataService.swift:15-25 | as written, after the app saves under its suite, the widget, reading its own never-written suite, always shows a fresh fetch, asked for again in three hours |
| Widget.SharedSuiteShowsAppSave | Converter_mac/CurrencyCalculatorModel.swift:16-38 | corrected: when the widget reads the suite the app writes, within the hour after the save it shows the app's four records, dated by the save, and asks again in an hour |
| Picker.FilterMatching | Converter_mac/CurrencyPickerView.swift:16-20 | keeps exactly the currencies whose code or name matches, each no more often than given, and everything when all match |
| Picker.FilterMatchingSplits | Converter_mac/CurrencyPickerView.swift:16-20 | filtering a concatenation is concatenating the filtered parts, so the filter keeps the list's order |
| Picker.FilteredCurrencies | Converter_mac/CurrencyPickerView.swift:12-21 | an empty search shows the whole list; otherwise exactly the matching currencies |
| Picker.FilteredCurrenciesIdempotent | Converter_mac/CurrencyPickerView.swift:12-21 | searching the searched list again with the same text changes nothing |
| Picker.PickerAgreesWithModelLabel | Converter_mac/CurrencyPickerView.swift:104-129 | the picker's row shows the same rate as the corrected model label, and fails exactly when it does ("Нет данных" for "N/A") |
| Picker.PickerAgreesAsWrittenOffRub | Converter_mac/CurrencyPickerView.swift:104-129 | for any currency but RUB the row agrees with the model's label as written |

## Left out

- Networking: URLSession requests, timeouts, JSON decoding and its failures. A response enters as an already-decoded value.
- `fetchAllExchangeRates`: the double completion and the dispatch to the main queue. The methods `ApplyCbrResponse` and `ApplyExchangeRateResponse` model what happens when each response arrives. They do not model the order in which the responses arrive.
- Timers and periodic updates; `isLoading`, `lastUpdated` and its date formatting; `showFromCurrencyPicker`, `showToCurrencyPicker`, `showCalculatorHistory`. These are UI state with no bearing on rates.
- `NumberFormatter` and `Double(String)` are not modelled. They are supplied as the `Formatter` parameter, and every lemma holds for any formatter. Locale grouping and rounding are therefore not captured.
- Double arithmetic in the calculator is real arithmetic: no rounding, overflow or signed zero. In the rate arithmetic only zero-division results (infinity, NaN) are modelled. The rate tables hold `Double` values.
- Parsers are assumed to return finite numbers, so `Double("inf")` or `Double("nan")` is not modelled.
- `Calculator.DeleteLastDigit`: counts characters as Unicode scalars. Swift counts grapheme clusters, which differ only for combined characters that the keypad never types.
- `CurrencyDataService` storage: UserDefaults is a map from suite name to a `SharedStore` value; the encoding of the records and a missing app-group container are outside the model.
- `Widget.SharedSnapshotShown`: assumes the widget's store holds the app's snapshot, that is, one shared suite. As written the app saves under "group.com.yourcompany.currencyconverter" and the widget reads "group.com.bonitalabs.currencyconverter" (see Findings); the entitlements that would decide whether either suite is usable are not part of this model.
- `ConverterModel.CurrencyCalculatorModel.SaveRatesForWidget`: stamps all four records with one time `now`, while the source takes `Date()` once per record, so the stamps may differ by the time between those calls.
- Calendar arithmetic: time is whole seconds, and an hour is 3600 seconds, with no daylight-saving effects.
- The widget's views, `getSnapshot`, `CurrencyRate.formattedRate` and the record `id` (a UUID). They are presentation only.
- Widget sorting: Swift's `sorted(by:)` is not guaranteed stable, while the model uses a stable insertion sort. The entries sorted are strictly ordered, so the outcome is the same.
- The widget gives each fetched entry the current date.
- `ConverterModel.UsdRubSelection`: the contract names the chosen entries but does not restate the `first(where:)` look-ups or their `??` defaults. The look-ups' results are proved separately by `Currencies.InitialSelectionFound`.
- `ConverterModel.NewContentViewModel`: its rate of 85.49 holds for the corrected start-up CBR table the constructor uses. With the table as written the first USD to RUB rate is 1.0 (see Findings).
- `Formatting.Remove`: the contract states that no space remains and that every other character keeps its multiplicity; it does not state that their order is kept.
- `ConverterModel.RateLabel`: models `getRateForCurrency` as a function of the formatter and both tables, not as a method of the class, since it changes nothing.
- `ConverterModel.CurrencyCalculatorModel.constructor`: starts from the corrected CBR table rather than the backup rates (see Findings).

## Findings

| source | as written | input that shows it | evidently intended | confidence | as-written member | corrected member |
|---|---|---|---|---|---|---|
| Converter_mac/CurrencyCalculatorModel.swift:228-229 | `init` sets the CBR table to the backup rates, which are units per USD, while every reader of the CBR table expects roubles per unit | right after start-up, before a CBR response arrives: USD to RUB converts at 1.0 and RUB to RUB at 1/85.49 | a RUB-anchored start-up table: RUB at 1, each currency at the RUB backup over its own | high, not executed | Rates.AsWrittenInitialRatesMisprice | Rates.InitialCbrRatesAreRubAnchored |
| Converter_mac/CurrencyCalculatorModel.swift:715-725 | for RUB, `getRateForCurrency` divides the CBR table's RUB entry, which is 1 after any accepted CBR response without a RUB entry, by the ExchangeRate USD entry, which is 1. `getRateForCurrency` has no caller in the files of this model | any parsed CBR response without a RUB entry, with the ExchangeRate USD entry at 1: the label reads "1 USD = 1 RUB" | the CBR price of one USD, as the currency picker's row shows it | high, not executed | ConverterModel.AsWrittenRateLabelIgnoresCbrPrice | ConverterModel.RateLabelShowsCbrPrice |
| CurrencyWidgetExtension/CurrencyDataService.swift:15 | the widget reads the suite "group.com.bonitalabs.currencyconverter", while the app saves under "group.com.yourcompany.currencyconverter" (Converter_mac/CurrencyCalculatorModel.swift:16); both use the same keys | any save by the app followed by a widget refresh within the hour: the widget finds no save time and fetches instead of showing the saved rates | one app-group suite shared by both sides | medium, not executed | Widget.AsWrittenWidgetMissesAppSave | Widget.SharedSuiteShowsAppSave |
