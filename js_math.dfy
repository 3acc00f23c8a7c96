/** The JavaScript `Math` rounding functions the core uses, over exact reals,
    and the `Math.random()`-scaled draw with the random number as a parameter. */
module JsMath {

  /** `Math.round`: the nearest integer, halves rounded up. */
  function RoundHalfUp(x: real): (r: int)
    ensures (r as real) - 0.5 <= x < (r as real) + 0.5
  {
    (x + 0.5).Floor
  }

  /** `Math.ceil(a / b)` for a positive divisor. */
  function CeilDiv(a: int, b: int): (q: int)
    requires b > 0
    ensures (q - 1) * b < a <= q * b
  {
    -((-a) / b)
  }

  lemma ProductNonNegative(a: real, b: real)
    requires a >= 0.0 && b >= 0.0
    ensures a * b >= 0.0
  {
  }

  /** A draw in [0, 1) scaled by a positive `n` floors into 0..n-1. */
  lemma ScaleFloorPositive(rnd: real, n: int)
    requires 0.0 <= rnd < 1.0 && n > 0
    ensures 0 <= (rnd * (n as real)).Floor < n
  {
    var x := rnd * (n as real);
    assert (1.0 - rnd) * (n as real) > 0.0;
    assert x.Floor as real <= x;
  }

  /** A draw in [0, 1) scaled by a non-positive `n` floors into n..0. */
  lemma ScaleFloorNonPositive(rnd: real, n: int)
    requires 0.0 <= rnd < 1.0 && n <= 0
    ensures n <= (rnd * (n as real)).Floor <= 0
  {
    var x := rnd * (n as real);
    var m := -(n as real);
    ProductNonNegative(1.0 - rnd, m);
    ProductNonNegative(rnd, m);
    assert (1.0 - rnd) * m == m - rnd * m;
    assert x == -(rnd * m);
    assert n as real <= x <= 0.0;
    assert x.Floor as real <= x < x.Floor as real + 1.0;
  }

  /** `Math.floor(rnd * n)` for the random draw `rnd`. */
  function RandomBelow(rnd: real, n: int): (m: int)
    requires 0.0 <= rnd < 1.0
    ensures n > 0 ==> 0 <= m < n
    ensures n <= 0 ==> n <= m <= 0
  {
    if n > 0 then
      ScaleFloorPositive(rnd, n);
      (rnd * (n as real)).Floor
    else
      ScaleFloorNonPositive(rnd, n);
      (rnd * (n as real)).Floor
  }
}
