/**
 * NumberFormatter and Double(String), which depend on the user's locale, are not
 * modelled: they are the fields of a `Formatter` that every operation receives,
 * and every property below holds for every formatter.  The string edits that
 * the source applies before parsing are modelled exactly.
 */
module Formatting {
  import opened Wrappers
  import opened Doubles

  /** A NumberFormatter with `numberStyle = .decimal` and the given fraction digit bounds. */
  datatype NumberStyle = Decimal(minimumFractionDigits: nat, maximumFractionDigits: nat)

  datatype Formatter = Formatter(
    format: (NumberStyle, Double) -> Option<string>,  // NumberFormatter.string(from:), nil on failure
    number: string -> Option<real>,                   // NumberFormatter.number(from:) in .decimal style
    double: string -> Option<real>)                   // Swift's Double(String)

  /** `s.replacingOccurrences(of: a, with: b)` for one-character strings a and b. */
  function Replace(s: string, a: char, b: char): (r: string)
    ensures |r| == |s|
    ensures forall i :: 0 <= i < |s| ==> r[i] == (if s[i] == a then b else s[i])
  {
    if s == [] then [] else [if s[0] == a then b else s[0]] + Replace(s[1..], a, b)
  }

  /** `s.replacingOccurrences(of: c, with: "")` for a one-character string c. */
  function Remove(s: string, c: char): (r: string)
    ensures c !in r
    ensures forall x :: x != c ==> multiset(r)[x] == multiset(s)[x]
  {
    if s == [] then []
    else
      assert s == [s[0]] + s[1..];
      if s[0] == c then Remove(s[1..], c) else [s[0]] + Remove(s[1..], c)
  }

  /** Replacing a character leaves none of it behind, so a second replacement does nothing. */
  lemma ReplaceIdempotent(s: string, a: char, b: char)
    requires a != b
    ensures a !in Replace(s, a, b)
    ensures Replace(Replace(s, a, b), a, b) == Replace(s, a, b)
  {
  }

  /** `value.truncatingRemainder(dividingBy: 1) == 0` */
  predicate IsWhole(v: real) {
    v.Floor as real == v
  }

  /**
   * formatDisplayValue (Converter_mac/CurrencyCalculatorModel.swift:671-681):
   * up to 10 fraction digits, none for a whole number, "0" when formatting fails.
   */
  function FormatDisplayValue(f: Formatter, v: real): string {
    f.format(Decimal(0, if IsWhole(v) then 0 else 10), Finite(v)).GetOr("0")
  }

  /** `Double(displayValue.replacingOccurrences(of: ",", with: "."))` */
  function ParseDisplay(f: Formatter, s: string): Option<real> {
    f.double(Replace(s, ',', '.'))
  }
}
