/**
 * The four-function calculator of CurrencyCalculatorModel
 * (Converter_mac/CurrencyCalculatorModel.swift:577-681), as transitions on a
 * value that collects the calculator's fields; the class in model.dfy applies
 * them to its own fields.
 */
module Calculator {
  import opened Wrappers
  import opened Doubles
  import opened Formatting

  /** CalculatorOperation; `.none` is NoOperation. */
  datatype CalculatorOperation = NoOperation | Add | Subtract | Multiply | Divide | Percent

  /** CalculatorOperation.symbol */
  function Symbol(op: CalculatorOperation): string {
    match op
    case NoOperation => ""
    case Add => "+"
    case Subtract => "-"
    case Multiply => "×"
    case Divide => "÷"
    case Percent => "%"
  }

  /** Distinct operations are shown with distinct symbols; only NoOperation shows none. */
  lemma SymbolInjective(a: CalculatorOperation, b: CalculatorOperation)
    ensures Symbol(a) == Symbol(b) <==> a == b
    ensures Symbol(a) == "" <==> a == NoOperation
  {
  }

  /** calculateResult, for the pending operation `op`. */
  function CalculateResult(op: CalculatorOperation, a: real, b: real): real {
    match op
    case Add => a + b
    case Subtract => a - b
    case Multiply => a * b
    case Divide => if b != 0.0 then a / b else 0.0
    case Percent => a * (b / 100.0)
    case NoOperation => b
  }

  /** Division by zero yields 0 rather than an error; any other division is exact. */
  lemma DivideByZeroIsZero(a: real, b: real)
    ensures CalculateResult(Divide, a, 0.0) == 0.0
    ensures b != 0.0 ==> CalculateResult(Divide, a, b) * b == a
  {
  }

  /** The calculator's fields: displayValue, pendingOperation, storedValue, isPerformingOperation, calculatorHistory. */
  datatype CalcState = CalcState(
    display: string,
    pending: CalculatorOperation,
    stored: real,
    performing: bool,
    history: string)

  /** The fields as they are initialised. */
  const Initial: CalcState := CalcState("0", NoOperation, 0.0, false, "")

  /** appendDigit(digit) */
  function AppendDigit(s: CalcState, digit: string): CalcState {
    if s.performing then s.(display := digit, performing := false)
    else if s.display == "0" then s.(display := digit)
    else s.(display := s.display + digit)
  }

  /** appendDecimal() */
  function AppendDecimal(s: CalcState): CalcState {
    if s.performing then s.(display := "0.", performing := false)
    else if '.' !in s.display then s.(display := s.display + ".")
    else s
  }

  /** clear() */
  function Clear(s: CalcState): CalcState {
    s.(display := "0", pending := NoOperation, stored := 0.0, history := "")
  }

  /** deleteLastDigit() */
  function DeleteLastDigit(s: CalcState): CalcState {
    if |s.display| > 1 then s.(display := s.display[..|s.display| - 1]) else s.(display := "0")
  }

  /** performOperation(op) */
  function PerformOperation(f: Formatter, s: CalcState, op: CalculatorOperation): CalcState {
    match ParseDisplay(f, s.display)
    case None => s
    case Some(v) =>
      if op == Percent then s.(display := FormatDisplayValue(f, v / 100.0))
      else
        var stored := if s.pending != NoOperation then CalculateResult(s.pending, s.stored, v) else v;
        var display := if s.pending != NoOperation then FormatDisplayValue(f, stored) else s.display;
        CalcState(display, op, stored, true, FormatDisplayValue(f, stored) + " " + Symbol(op))
  }

  /** performEquals() */
  function PerformEquals(f: Formatter, s: CalcState): CalcState {
    if s.pending == NoOperation then s
    else
      match ParseDisplay(f, s.display)
      case None => s
      case Some(v) =>
        var result := CalculateResult(s.pending, s.stored, v);
        s.(display := FormatDisplayValue(f, result),
           pending := NoOperation,
           performing := true,
           history := FormatDisplayValue(f, s.stored) + " " + Symbol(s.pending) + " " +
                      FormatDisplayValue(f, v) + " = " + FormatDisplayValue(f, result))
  }

  /** performEquals() calls convert() only when it computes a result. */
  predicate EqualsConverts(f: Formatter, s: CalcState) {
    s.pending != NoOperation && ParseDisplay(f, s.display).Some?
  }

  // ---------------------------------------------------------------------------
  // Digit entry

  predicate IsDigit(c: char) {
    '0' <= c <= '9'
  }

  /** One of the keys "0" to "9". */
  predicate IsDigitString(d: string) {
    |d| == 1 && IsDigit(d[0])
  }

  /**
   * A display typed with digit and decimal-point keys: non-empty, only digits
   * and at most one '.', never a leading '.', and a leading '0' only alone or
   * before the '.'.
   */
  predicate ValidEntry(s: string) {
    && |s| > 0
    && (forall i :: 0 <= i < |s| ==> IsDigit(s[i]) || s[i] == '.')
    && (forall i, j :: 0 <= i < j < |s| && s[i] == '.' ==> s[j] != '.')
    && s[0] != '.'
    && (s[0] == '0' && |s| > 1 ==> s[1] == '.')
  }

  /** appendDigit's three cases; it changes only the display and the awaiting-entry flag. */
  lemma AppendDigitCases(s: CalcState, d: string)
    ensures s.performing ==> AppendDigit(s, d).display == d && !AppendDigit(s, d).performing
    ensures !s.performing && s.display == "0" ==> AppendDigit(s, d).display == d
    ensures !s.performing && s.display != "0" ==> AppendDigit(s, d).display == s.display + d
    ensures !AppendDigit(s, d).performing
    ensures AppendDigit(s, d).(display := s.display, performing := s.performing) == s
  {
  }

  /** appendDecimal adds a '.' only when there is none, and starts a new entry as "0.". */
  lemma AppendDecimalCases(s: CalcState)
    ensures s.performing ==> AppendDecimal(s).display == "0."
    ensures !s.performing && '.' in s.display ==> AppendDecimal(s) == s
    ensures !s.performing && '.' !in s.display ==> AppendDecimal(s).display == s.display + "."
    ensures AppendDecimal(s).(display := s.display, performing := s.performing) == s
  {
  }

  /** A one-character display deletes to "0"; a longer one loses its last character. */
  lemma DeleteLastDigitCases(s: CalcState)
    ensures |s.display| <= 1 ==> DeleteLastDigit(s).display == "0"
    ensures |s.display| > 1 ==> DeleteLastDigit(s).display + [s.display[|s.display| - 1]] == s.display
    ensures DeleteLastDigit(s).(display := s.display) == s
  {
  }

  /** The digit keys, decimal point and delete keep a typed display well formed. */
  lemma EditsKeepValidEntry(s: CalcState, d: string)
    requires ValidEntry(s.display) && IsDigitString(d)
    ensures ValidEntry(AppendDigit(s, d).display)
    ensures ValidEntry(AppendDecimal(s).display)
    ensures ValidEntry(DeleteLastDigit(s).display)
    ensures ValidEntry(Clear(s).display)
  {
    if !s.performing && s.display != "0" {
      AppendedDigitValid(s.display, d);
    }
    if !s.performing && '.' !in s.display {
      AppendedPointValid(s.display);
    }
    if |s.display| > 1 {
      DroppedLastValid(s.display);
    }
  }

  /** A digit appended to a well-formed display other than "0" keeps it well formed. */
  lemma AppendedDigitValid(t: string, d: string)
    requires ValidEntry(t) && IsDigitString(d) && t != "0"
    ensures ValidEntry(t + d)
  {
    var u := t + d;
    assert u[0] == t[0];
    assert t[0] == '0' && |t| > 1 ==> u[1] == t[1];
    assert t[0] == '0' && |t| == 1 ==> t == "0";
    assert forall i :: 0 <= i < |u| ==> u[i] == (if i < |t| then t[i] else d[0]);
  }

  /** A point appended to a well-formed display without one keeps it well formed. */
  lemma AppendedPointValid(t: string)
    requires ValidEntry(t) && '.' !in t
    ensures ValidEntry(t + ".")
  {
    var u := t + ".";
    assert forall i :: 0 <= i < |t| ==> u[i] == t[i] && t[i] != '.';
    assert t[0] == '0' && |t| == 1 ==> u == "0.";
  }

  /** Dropping the last character of a well-formed display of two or more keeps it well formed. */
  lemma DroppedLastValid(t: string)
    requires ValidEntry(t) && |t| > 1
    ensures ValidEntry(t[..|t| - 1])
  {
    var u := t[..|t| - 1];
    assert forall i :: 0 <= i < |u| ==> u[i] == t[i];
  }

  /** The pending operation never becomes Percent: percent is applied at once and never deferred. */
  lemma PendingNeverPercent(f: Formatter, s: CalcState, d: string, op: CalculatorOperation)
    requires s.pending != Percent
    ensures AppendDigit(s, d).pending != Percent
    ensures AppendDecimal(s).pending != Percent
    ensures Clear(s).pending != Percent
    ensures DeleteLastDigit(s).pending != Percent
    ensures PerformOperation(f, s, op).pending != Percent
    ensures PerformEquals(f, s).pending != Percent
  {
  }

  /** clear() resets the operands and the history and keeps the awaiting-entry flag; twice is once. */
  lemma ClearIdempotent(s: CalcState)
    ensures Clear(s) == CalcState("0", NoOperation, 0.0, s.performing, "")
    ensures Clear(Clear(s)) == Clear(s)
  {
  }

  /** performOperation in its cases. */
  lemma PerformOperationCases(f: Formatter, s: CalcState, op: CalculatorOperation)
    ensures ParseDisplay(f, s.display).None? ==> PerformOperation(f, s, op) == s
    ensures ParseDisplay(f, s.display).Some? && op == Percent ==>
              PerformOperation(f, s, op) ==
              s.(display := FormatDisplayValue(f, ParseDisplay(f, s.display).value / 100.0))
    ensures ParseDisplay(f, s.display).Some? && op != Percent && s.pending != NoOperation ==>
              var r := CalculateResult(s.pending, s.stored, ParseDisplay(f, s.display).value);
              PerformOperation(f, s, op).stored == r && PerformOperation(f, s, op).display == FormatDisplayValue(f, r)
    ensures ParseDisplay(f, s.display).Some? && op != Percent && s.pending == NoOperation ==>
              PerformOperation(f, s, op).stored == ParseDisplay(f, s.display).value &&
              PerformOperation(f, s, op).display == s.display
    ensures ParseDisplay(f, s.display).Some? && op != Percent ==>
              PerformOperation(f, s, op).pending == op && PerformOperation(f, s, op).performing &&
              PerformOperation(f, s, op).history ==
                FormatDisplayValue(f, PerformOperation(f, s, op).stored) + " " + Symbol(op)
  {
  }

  /**
   * performEquals does nothing without a pending operation or a readable display;
   * otherwise it shows the result, clears the pending operation, keeps the stored
   * operand, and a second call does nothing.
   */
  lemma PerformEqualsCases(f: Formatter, s: CalcState)
    ensures !EqualsConverts(f, s) ==> PerformEquals(f, s) == s
    ensures EqualsConverts(f, s) ==>
              var t := PerformEquals(f, s);
              t.display == FormatDisplayValue(f, CalculateResult(s.pending, s.stored, ParseDisplay(f, s.display).value)) &&
              t.pending == NoOperation && t.performing && t.stored == s.stored &&
              t.history == FormatDisplayValue(f, s.stored) + " " + Symbol(s.pending) + " " +
                           FormatDisplayValue(f, ParseDisplay(f, s.display).value) + " = " + t.display
    ensures !EqualsConverts(f, PerformEquals(f, s))
    ensures PerformEquals(f, PerformEquals(f, s)) == PerformEquals(f, s)
  {
  }

  /** Typing 1, 2, 3 on a fresh calculator shows "123". */
  lemma TypingDigits()
    ensures AppendDigit(AppendDigit(AppendDigit(Initial, "1"), "2"), "3").display == "123"
  {
  }

  /**
   * 3 + 5 = on a formatter that reads "3" and "5" and prints whole 3, 5 and 8
   * without fraction digits: stored 3 and history "3 +" after +, "5" after the
   * digit, then "8" shown and "3 + 5 = 8" recorded after =.
   */
  lemma ThreePlusFive(f: Formatter)
    requires ParseDisplay(f, "3") == Some(3.0) && ParseDisplay(f, "5") == Some(5.0)
    requires f.format(Decimal(0, 0), Finite(3.0)) == Some("3")
    requires f.format(Decimal(0, 0), Finite(5.0)) == Some("5")
    requires f.format(Decimal(0, 0), Finite(8.0)) == Some("8")
    ensures var s1 := PerformOperation(f, Initial.(display := "3"), Add);
            s1.stored == 3.0 && s1.performing && s1.pending == Add && s1.history == "3 +" &&
            var s2 := AppendDigit(s1, "5");
            s2.display == "5" &&
            var s3 := PerformEquals(f, s2);
            s3.display == "8" && s3.pending == NoOperation && s3.history == "3 + 5 = 8"
  {
    assert IsWhole(3.0) && IsWhole(5.0) && IsWhole(8.0);
    var s1 := PerformOperation(f, Initial.(display := "3"), Add);
    var s2 := AppendDigit(s1, "5");
    assert ParseDisplay(f, s2.display) == Some(5.0);
  }
}
