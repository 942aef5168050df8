/** `DoubleEvaluator`: the linear interpolation used by the Y-scale
    animations, guarded against non-finite end points. */
module DoubleEvaluators {
  import opened JavaLang

  /** The point reached after covering `fraction` of the way from `s` to `e`. */
  function Lerp(fraction: real, s: real, e: real): real
  {
    s + fraction * (e - s)
  }

  /** `evaluate(fraction, startValue, endValue)`: throws `AssertionError` when
      either end point is NaN or infinite, and otherwise gives the point
      `startValue + fraction * (endValue - startValue)`. */
  function Evaluate(fraction: real, startValue: Double, endValue: Double): (r: Result<real>)
    ensures r.Throw? <==> (startValue.IsNaN() || startValue.IsInfinite() ||
                           endValue.IsNaN() || endValue.IsInfinite())
    ensures r.Throw? ==> r.error == AssertionError
    ensures r.Ok? ==> r.value == Lerp(fraction, startValue.value, endValue.value)
  {
    if startValue.IsNaN() || startValue.IsInfinite() || endValue.IsNaN() || endValue.IsInfinite() then
      Throw(AssertionError)
    else
      var diff := endValue.value - startValue.value;
      Ok(startValue.value + fraction * diff)
  }

  /** An animation between a NaN or an infinity and anything fails the
      assertion, whichever end it is at; two finite end points always
      interpolate. */
  lemma EvaluateRejectsNonFinite(fraction: real, other: Double, s: real, e: real)
    ensures Evaluate(fraction, NaN, other) == Throw(AssertionError)
    ensures Evaluate(fraction, other, NaN) == Throw(AssertionError)
    ensures Evaluate(fraction, PositiveInfinity, other) == Throw(AssertionError)
    ensures Evaluate(fraction, other, PositiveInfinity) == Throw(AssertionError)
    ensures Evaluate(fraction, NegativeInfinity, other) == Throw(AssertionError)
    ensures Evaluate(fraction, other, NegativeInfinity) == Throw(AssertionError)
    ensures Evaluate(fraction, Finite(s), Finite(e)).Ok?
  {
  }

  /** Fraction 0 gives the start value and fraction 1 the end value. */
  lemma EvaluateEndPoints(s: real, e: real)
    ensures Evaluate(0.0, Finite(s), Finite(e)) == Ok(s)
    ensures Evaluate(1.0, Finite(s), Finite(e)) == Ok(e)
  {
  }

  /** For a fraction in [0, 1] the result lies between the two end points,
      whichever of them is the larger. */
  lemma EvaluateStaysBetween(fraction: real, s: real, e: real)
    requires 0.0 <= fraction <= 1.0
    ensures Evaluate(fraction, Finite(s), Finite(e)).Ok?
    ensures s <= e ==> s <= Evaluate(fraction, Finite(s), Finite(e)).value <= e
    ensures e <= s ==> e <= Evaluate(fraction, Finite(s), Finite(e)).value <= s
  {
    LerpBetween(fraction, s, e);
  }

  lemma LerpBetween(f: real, s: real, e: real)
    requires 0.0 <= f <= 1.0
    ensures s <= e ==> s <= Lerp(f, s, e) <= e
    ensures e <= s ==> e <= Lerp(f, s, e) <= s
  {
    ScaledDistance(f, e - s, f * (e - s));
  }

  /** A fraction in [0, 1] of a distance lies between 0 and that distance. */
  lemma ScaledDistance(f: real, d: real, y: real)
    requires 0.0 <= f <= 1.0 && y == f * d
    ensures d >= 0.0 ==> 0.0 <= y <= d
    ensures d <= 0.0 ==> d <= y <= 0.0
  {
    assert d - y == (1.0 - f) * d;
  }

  /** With start <= end the interpolation is monotone in the fraction. */
  lemma EvaluateMonotone(f1: real, f2: real, s: real, e: real)
    requires f1 <= f2 && s <= e
    ensures Evaluate(f1, Finite(s), Finite(e)).value <= Evaluate(f2, Finite(s), Finite(e)).value
  {
    LerpMonotone(f1, f2, s, e);
  }

  lemma LerpMonotone(f1: real, f2: real, s: real, e: real)
    requires f1 <= f2 && s <= e
    ensures Lerp(f1, s, e) <= Lerp(f2, s, e)
  {
    assert f2 * (e - s) - f1 * (e - s) == (f2 - f1) * (e - s);
  }
}
