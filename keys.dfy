/**
 * Keyboard dispatch and the source label of ContentView
 * (Converter_mac/ContentView.swift:27-52, 336).
 */
module Keys {
  import opened Formatting
  import opened Calculator
  import opened Rates

  /** What one key press asks of the calculator. */
  datatype Command =
    | DigitKey(digit: string)
    | DecimalKey
    | OperationKey(op: CalculatorOperation)
    | EqualsKey
    | DeleteKey
    | ClearKey
    | Ignored

  /** handleKeyPress's switch: every key string to the command it runs. */
  function KeyCommand(key: string): Command {
    if key in {"0", "1", "2", "3", "4", "5", "6", "7", "8", "9"} then DigitKey(key)
    else if key == "." then DecimalKey
    else if key == "+" then OperationKey(Add)
    else if key == "-" then OperationKey(Subtract)
    else if key in {"*", "×", "x"} then OperationKey(Multiply)
    else if key in {"/", "÷"} then OperationKey(Divide)
    else if key == "%" then OperationKey(Percent)
    else if key in {"=", "Enter", "Return"} then EqualsKey
    else if key in {"Backspace", "Delete"} then DeleteKey
    else if key in {"c", "C"} then ClearKey
    else Ignored
  }

  /** Every key string the switch names. */
  const HandledKeys: set<string> := {
    "0", "1", "2", "3", "4", "5", "6", "7", "8", "9", ".", "+", "-", "*", "×", "x", "/", "÷", "%",
    "=", "Enter", "Return", "Backspace", "Delete", "c", "C" }

  /** The calculator transition a command runs. */
  function CommandStep(f: Formatter, s: CalcState, c: Command): CalcState {
    match c
    case DigitKey(d) => AppendDigit(s, d)
    case DecimalKey => AppendDecimal(s)
    case OperationKey(op) => PerformOperation(f, s, op)
    case EqualsKey => PerformEquals(f, s)
    case DeleteKey => DeleteLastDigit(s)
    case ClearKey => Clear(s)
    case Ignored => s
  }

  /** Whether the command ends by recomputing the converted amount. */
  predicate CommandConverts(f: Formatter, s: CalcState, c: Command) {
    match c
    case EqualsKey => EqualsConverts(f, s)
    case Ignored => false
    case _ => true
  }

  /** The digit keys are exactly the one-digit strings, and each appends itself. */
  lemma DigitKeys(key: string)
    ensures KeyCommand(key).DigitKey? <==> IsDigitString(key)
    ensures KeyCommand(key).DigitKey? ==> KeyCommand(key).digit == key
  {
    if IsDigitString(key) {
      assert key == [key[0]];
      assert key in {"0", "1", "2", "3", "4", "5", "6", "7", "8", "9"};
    }
  }

  /** The operator keys, each in both directions. */
  lemma OperatorKeys(key: string)
    ensures KeyCommand(key) == DecimalKey <==> key == "."
    ensures KeyCommand(key) == OperationKey(Add) <==> key == "+"
    ensures KeyCommand(key) == OperationKey(Subtract) <==> key == "-"
    ensures KeyCommand(key) == OperationKey(Multiply) <==> key in {"*", "×", "x"}
    ensures KeyCommand(key) == OperationKey(Divide) <==> key in {"/", "÷"}
    ensures KeyCommand(key) == OperationKey(Percent) <==> key == "%"
    ensures KeyCommand(key) != OperationKey(NoOperation)
  {
  }

  /** The equals, delete and clear keys, and every other key ignored. */
  lemma OtherKeys(key: string)
    ensures KeyCommand(key) == EqualsKey <==> key in {"=", "Enter", "Return"}
    ensures KeyCommand(key) == DeleteKey <==> key in {"Backspace", "Delete"}
    ensures KeyCommand(key) == ClearKey <==> key in {"c", "C"}
    ensures KeyCommand(key) == Ignored <==> key !in HandledKeys
  {
  }

  /** An ignored key changes nothing and converts nothing. */
  lemma IgnoredKeyChangesNothing(f: Formatter, s: CalcState, key: string)
    requires key !in HandledKeys
    ensures CommandStep(f, s, KeyCommand(key)) == s
    ensures !CommandConverts(f, s, KeyCommand(key))
  {
    OtherKeys(key);
  }

  /**
   * Every key keeps the pending operation off Percent, and a key other than an
   * operator or equals (which show formatted numbers) keeps a typed display well formed.
   */
  lemma {:induction false} KeysKeepInvariants(f: Formatter, s: CalcState, key: string)
    requires s.pending != Percent
    ensures CommandStep(f, s, KeyCommand(key)).pending != Percent
    ensures ValidEntry(s.display) && !KeyCommand(key).OperationKey? && KeyCommand(key) != EqualsKey ==>
              ValidEntry(CommandStep(f, s, KeyCommand(key)).display)
  {
    var c := KeyCommand(key);
    if c.DigitKey? {
      DigitKeys(key);
      PendingNeverPercent(f, s, c.digit, Add);
      if ValidEntry(s.display) { EditsKeepValidEntry(s, c.digit); }
    } else {
      PendingNeverPercent(f, s, "0", if c.OperationKey? then c.op else Add);
      if ValidEntry(s.display) { EditsKeepValidEntry(s, "0"); }
    }
  }

  /** The label under the rate: "ЦБ РФ" when either currency is RUB, else "ExchangeRate". */
  function SourceLabel(from: string, to: string): string {
    if from == "RUB" || to == "RUB" then "ЦБ РФ" else "ExchangeRate"
  }

  /** The label names the table the pair rate reads: "ЦБ РФ" exactly when the CBR table prices the pair. */
  lemma SourceLabelNamesTable(from: string, to: string, cbr: RateTable, ex: RateTable,
                              cbr': RateTable, ex': RateTable)
    ensures SourceLabel(from, to) == "ЦБ РФ" <==> UsesCbr(from, to)
    ensures SourceLabel(from, to) == "ЦБ РФ" ==> PairRate(from, to, cbr, ex) == PairRate(from, to, cbr, ex')
    ensures SourceLabel(from, to) != "ЦБ РФ" ==> PairRate(from, to, cbr, ex) == PairRate(from, to, cbr', ex)
  {
    PairRateReadsSelectedTable(from, to, cbr, ex, cbr', ex');
  }
}
