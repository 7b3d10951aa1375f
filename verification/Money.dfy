/** Amounts in integer paise, percentages in integer hundredths, half-even rounding. */
module Money {

  function Min(a: int, b: int): int { if a <= b then a else b }

  function Max(a: int, b: int): int { if a >= b then a else b }

  /** `numerator / denominator` rounded to the nearest integer, ties to the even one (Decimal.quantize). */
  function HalfEven(numerator: int, denominator: int): (r: int)
    requires denominator > 0
    ensures -denominator <= 2 * (numerator - r * denominator) <= denominator
    ensures 2 * (numerator - r * denominator) == denominator ==> r % 2 == 0
    ensures 2 * (numerator - r * denominator) == -denominator ==> r % 2 == 0
  {
    var q := numerator / denominator;
    var rest := numerator % denominator;
    assert numerator == q * denominator + rest;
    assert (q + 1) * denominator == q * denominator + denominator;
    if 2 * rest < denominator || (2 * rest == denominator && q % 2 == 0) then q else q + 1
  }

  /** Two multiples of `d` closer than `d` apart coincide; at distance `d` they are neighbours. */
  lemma MultiplesApart(a: int, b: int, d: int)
    requires d > 0
    ensures a > b ==> a * d - b * d >= d
    ensures a > b + 1 ==> a * d - b * d >= 2 * d
    ensures a == b + 1 ==> a * d - b * d == d
  {
    assert a * d - b * d == (a - b) * d;
    if a > b + 1 {
      MulMonotone(2, a - b, d);
    } else if a > b {
      assert (a - b) * d == d;
    }
  }

  lemma MulMonotone(low: int, high: int, d: int)
    requires low <= high && d >= 0
    ensures low * d <= high * d
  {
    assert (high - low) * d >= 0;
  }

  /** Distance and tie-breaking pin the rounded value down: nothing else satisfies both. */
  lemma HalfEvenUnique(numerator: int, denominator: int, r: int)
    requires denominator > 0
    requires -denominator <= 2 * (numerator - r * denominator) <= denominator
    requires 2 * (numerator - r * denominator) == denominator ==> r % 2 == 0
    requires 2 * (numerator - r * denominator) == -denominator ==> r % 2 == 0
    ensures r == HalfEven(numerator, denominator)
  {
    var h := HalfEven(numerator, denominator);
    MultiplesApart(r, h, denominator);
    MultiplesApart(h, r, denominator);
    var atR, atH := r * denominator, h * denominator;
    assert 2 * (atR - atH) <= 2 * denominator && 2 * (atH - atR) <= 2 * denominator;
  }

  /** A value between two whole numbers of paise stays between them when rounded. */
  lemma HalfEvenBounds(numerator: int, denominator: int, low: int, high: int)
    requires denominator > 0
    requires low * denominator <= numerator <= high * denominator
    ensures low <= HalfEven(numerator, denominator) <= high
  {
    var h := HalfEven(numerator, denominator);
    MultiplesApart(h, high, denominator);
    MultiplesApart(low, h, denominator);
    var atH, atLow, atHigh := h * denominator, low * denominator, high * denominator;
    assert -denominator <= 2 * (numerator - atH) <= denominator;
  }
}
