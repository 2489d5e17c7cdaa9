/**
 * The part of IEEE 754 double arithmetic that the rate computations can reach.
 * Every finite double is stood for by a `real` (rounding is not modelled); the
 * rates are quotients, and a zero divisor (a zero rate, a zero `Nominal`) gives
 * an infinity or NaN exactly as in Swift.  Signed zero is not distinguished.
 */
module Doubles {

  datatype Double = Finite(value: real) | Infinity(negative: bool) | NaN

  const One: Double := Finite(1.0)

  /** `a / b` on doubles. */
  function Div(a: Double, b: Double): Double {
    match (a, b)
    case (NaN, _) => NaN
    case (_, NaN) => NaN
    case (Finite(x), Finite(y)) =>
      if y != 0.0 then Finite(x / y)
      else if x == 0.0 then NaN
      else Infinity(x < 0.0)
    case (Finite(_), Infinity(_)) => Finite(0.0)
    case (Infinity(n), Finite(y)) => Infinity(n != (y < 0.0))
    case (Infinity(_), Infinity(_)) => NaN
  }

  /** `a * b` on doubles. */
  function Mul(a: Double, b: Double): Double {
    match (a, b)
    case (NaN, _) => NaN
    case (_, NaN) => NaN
    case (Finite(x), Finite(y)) => Finite(x * y)
    case (Finite(x), Infinity(n)) => if x == 0.0 then NaN else Infinity(n != (x < 0.0))
    case (Infinity(n), Finite(y)) => if y == 0.0 then NaN else Infinity(n != (y < 0.0))
    case (Infinity(n), Infinity(m)) => Infinity(n != m)
  }

  /** A finite, nonzero double: the only kind of rate a quotient can be inverted through. */
  predicate NonzeroFinite(x: Double) {
    x.Finite? && x.value != 0.0
  }

  /** Dividing by a zero never yields a finite value. */
  lemma DivByZeroIsNotFinite(a: Double)
    ensures !Div(a, Finite(0.0)).Finite?
  {
  }

  /** x / x == 1 for a nonzero finite x. */
  lemma DivSelf(x: Double)
    requires NonzeroFinite(x)
    ensures Div(x, x) == One
  {
  }

  /** Swapping numerator and denominator inverts a quotient: y / x == 1 / (x / y). */
  lemma DivSwapIsReciprocal(x: Double, y: Double)
    requires NonzeroFinite(x) && NonzeroFinite(y)
    ensures NonzeroFinite(Div(x, y))
    ensures Div(y, x) == Div(One, Div(x, y))
  {
    var a, b := x.value, y.value;
    assert (a / b) * (b / a) == 1.0;
    assert 1.0 / (a / b) == b / a;
  }

  /** 1 / (1 / x) == x for a nonzero finite x. */
  lemma ReciprocalInvolution(x: Double)
    requires NonzeroFinite(x)
    ensures NonzeroFinite(Div(One, x))
    ensures Div(One, Div(One, x)) == x
  {
    var a := x.value;
    assert (1.0 / a) * a == 1.0;
  }

  /** A finite amount times a rate is finite exactly when the rate is, and then it is the product. */
  lemma MulFiniteIsFinite(a: real, r: Double)
    ensures r.Finite? <==> Mul(Finite(a), r).Finite?
    ensures r.Finite? ==> Mul(Finite(a), r) == Finite(a * r.value)
  {
  }
}
