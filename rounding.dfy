/** Python's built-in `round`: to the nearest integer (or the nearest multiple of
    10^-digits), with exact ties going to the even neighbour. Floats are modelled as
    exact reals, so the binary representation of a decimal does not enter. */
module Rounding {

  /** `round(x)`: the integer nearest `x`, ties to even. */
  function RoundHalfEven(x: real): (r: int)
    ensures -0.5 <= (r as real) - x <= 0.5
    ensures ((r as real) - x == 0.5 || x - (r as real) == 0.5) ==> r % 2 == 0
  {
    var f := x.Floor;
    var frac := x - f as real;
    if frac < 0.5 then f
    else if frac > 0.5 then f + 1
    else if f % 2 == 0 then f
    else f + 1
  }

  /** Rounding never reverses an order: were RoundHalfEven(x) > RoundHalfEven(y),
      then x >= RoundHalfEven(x) - 0.5 >= RoundHalfEven(y) + 0.5 >= y. */
  lemma RoundHalfEvenMonotone(x: real, y: real)
    requires x <= y
    ensures RoundHalfEven(x) <= RoundHalfEven(y)
  {
  }

  /** An integer is its own rounding, so a value between two integers rounds between them. */
  lemma RoundHalfEvenBetween(x: real, lo: int, hi: int)
    requires (lo as real) <= x <= (hi as real)
    ensures lo <= RoundHalfEven(x) <= hi
  {
    RoundHalfEvenMonotone(lo as real, x);
    RoundHalfEvenMonotone(x, hi as real);
  }

  function Pow10(n: nat): (p: nat)
    ensures p >= 1
  {
    if n == 0 then 1 else 10 * Pow10(n - 1)
  }

  /** `round(x, digits)`: the nearest multiple of 10^-digits, ties to even. */
  function RoundDigits(x: real, digits: nat): real
  {
    RoundScaled(x, Pow10(digits) as real)
  }

  /** Rounds `x` to the nearest multiple of `1 / scale`. */
  function RoundScaled(x: real, scale: real): real
    requires scale > 0.0
  {
    (RoundHalfEven(x * scale) as real) / scale
  }

  /** The rounding error is at most half a unit in the last kept place. */
  lemma RoundScaledError(x: real, scale: real)
    requires scale > 0.0
    ensures -0.5 <= (RoundScaled(x, scale) - x) * scale <= 0.5
  {
    QuotientTimesScale(RoundHalfEven(x * scale) as real, scale, x);
  }

  lemma QuotientTimesScale(n: real, scale: real, x: real)
    requires scale > 0.0
    ensures (n / scale - x) * scale == n - x * scale
  {
    assert (n / scale) * scale == n;
  }

  /** Rounding to a multiple of `1 / scale` keeps a value inside bounds that are
      themselves multiples of it (given here as the integers `lo` and `hi`, times `scale`). */
  lemma RoundScaledBetween(x: real, scale: real, lo: int, hi: int)
    requires scale > 0.0
    requires (lo as real) <= x * scale <= (hi as real)
    ensures (lo as real) / scale <= RoundScaled(x, scale) <= (hi as real) / scale
  {
    RoundedQuotientBetween(x * scale, scale, lo, hi);
  }

  lemma RoundedQuotientBetween(a: real, scale: real, lo: int, hi: int)
    requires scale > 0.0
    requires (lo as real) <= a <= (hi as real)
    ensures (lo as real) / scale <= (RoundHalfEven(a) as real) / scale <= (hi as real) / scale
  {
    RoundHalfEvenBetween(a, lo, hi);
    DivideMonotone(lo as real, RoundHalfEven(a) as real, scale);
    DivideMonotone(RoundHalfEven(a) as real, hi as real, scale);
  }

  /** Rounding to a multiple of `1 / scale` never reverses an order either. */
  lemma RoundScaledMonotone(x: real, y: real, scale: real)
    requires scale > 0.0
    requires x <= y
    ensures RoundScaled(x, scale) <= RoundScaled(y, scale)
  {
    ScaleMonotone(x, y, scale);
    RoundedQuotientMonotone(x * scale, y * scale, scale);
  }

  lemma RoundedQuotientMonotone(a: real, b: real, scale: real)
    requires scale > 0.0
    requires a <= b
    ensures (RoundHalfEven(a) as real) / scale <= (RoundHalfEven(b) as real) / scale
  {
    RoundHalfEvenMonotone(a, b);
    DivideMonotone(RoundHalfEven(a) as real, RoundHalfEven(b) as real, scale);
  }

  lemma DivideMonotone(a: real, b: real, p: real)
    requires p > 0.0
    requires a <= b
    ensures a / p <= b / p
  {
    assert b / p - a / p == (b - a) / p;
  }

  lemma ScaleMonotone(x: real, y: real, p: real)
    requires p > 0.0
    requires x <= y
    ensures x * p <= y * p
  {
    assert y * p - x * p == (y - x) * p;
  }
}
