/** Python's `%` on floats with a positive divisor: the result takes the sign of
    the divisor, so it always lies in [0, m). Floats are modelled as exact reals. */
module Angles {

  /** Python's `abs`, and `max` and `min` of two floats. */
  function Abs(x: real): real { if x < 0.0 then -x else x }

  function MaxReal(a: real, b: real): real { if a >= b then a else b }

  function MinReal(a: real, b: real): real { if a <= b then a else b }

  /** `x % m` for a positive divisor `m`, as Python computes it (floor division). */
  function FloorMod(x: real, m: real): (r: real)
    requires m > 0.0
    ensures 0.0 <= r < m
    ensures x == r + ((x / m).Floor as real) * m
  {
    FloorBounds(x, m);
    x - ((x / m).Floor as real) * m
  }

  /** The largest multiple of `m` not above `x` is within `m` of it. */
  lemma FloorBounds(x: real, m: real)
    requires m > 0.0
    ensures ((x / m).Floor as real) * m <= x < ((x / m).Floor as real) * m + m
  {
    var y := x / m;
    var q := y.Floor as real;
    var d := y - q;
    assert 0.0 <= d < 1.0;
    MulMonotone(0.0, d, m);
    MulMonotone(d, 1.0, m);
    assert d * m == y * m - q * m;
    assert y * m == x;
  }

  /** A helper for the bounds above: multiplying by a positive constant keeps `<=` and `<`. */
  lemma MulMonotone(a: real, b: real, m: real)
    requires m > 0.0
    ensures a <= b ==> a * m <= b * m
    ensures a < b ==> a * m < b * m
    ensures (b / m) * m == b
  {
  }

  /** `FloorMod` is the only value in [0, m) that differs from `x` by a whole multiple of `m`. */
  lemma {:induction false} FloorModUnique(x: real, m: real, r: real, k: int)
    requires m > 0.0
    requires 0.0 <= r < m
    requires x == r + (k as real) * m
    ensures FloorMod(x, m) == r
  {
    assert x / m == r / m + (k as real);
    assert 0.0 <= r / m < 1.0 by {
      MulMonotone(r / m, 1.0, m);
    }
    assert (x / m).Floor == k;
  }

  /** Adding any whole number of periods does not change the remainder. */
  lemma FloorModPeriodic(x: real, m: real, n: int)
    requires m > 0.0
    ensures FloorMod(x + (n as real) * m, m) == FloorMod(x, m)
  {
    var r := FloorMod(x, m);
    var k := (x / m).Floor;
    assert x + (n as real) * m == r + ((k + n) as real) * m;
    FloorModUnique(x + (n as real) * m, m, r, k + n);
  }

  /** A value already in [0, m) is its own remainder. */
  lemma FloorModIdentity(x: real, m: real)
    requires m > 0.0
    requires 0.0 <= x < m
    ensures FloorMod(x, m) == x
  {
    FloorModUnique(x, m, x, 0);
  }

  /** `azimuth % 360`: an azimuth reduced to [0, 360). */
  function Mod360(x: real): (r: real)
    ensures 0.0 <= r < 360.0
    ensures 0.0 <= x < 360.0 ==> r == x
  {
    if 0.0 <= x < 360.0 then FloorModIdentity(x, 360.0); FloorMod(x, 360.0)
    else FloorMod(x, 360.0)
  }

  /** Reduction mod 360 forgets whole turns. */
  lemma Mod360Periodic(x: real, n: int)
    ensures Mod360(x + (n as real) * 360.0) == Mod360(x)
  {
    FloorModPeriodic(x, 360.0, n);
  }

  /** An angle in [0, 360) (a bearing or a reduced azimuth). */
  type Angle = a: real | 0.0 <= a < 360.0
}
