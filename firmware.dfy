/** The bin sensor firmware's measurement helpers: the median of three
    ultrasonic readings, the distance-to-fill conversion, and what the
    four-digit display shows. Readings are reals (the firmware's `float`). */
module Firmware {

  /** The fill conversion's calibration: at 4 cm or nearer the bin is full, at
      100 cm or further it is empty. */
  const FullDistance: real := 4.0
  const EmptyDistance: real := 100.0

  function MinReal(x: real, y: real): real
  {
    if x <= y then x else y
  }

  function MaxReal(x: real, y: real): real
  {
    if x >= y then x else y
  }

  /** The middle one of three readings: one of them, with at least two
      readings at or below it and at least two at or above it. */
  function Median(a: real, b: real, c: real): (m: real)
    ensures m == a || m == b || m == c
    ensures MinReal(a, MinReal(b, c)) <= m <= MaxReal(a, MaxReal(b, c))
    ensures (if a <= m then 1 else 0) + (if b <= m then 1 else 0) + (if c <= m then 1 else 0) >= 2
    ensures (if a >= m then 1 else 0) + (if b >= m then 1 else 0) + (if c >= m then 1 else 0) >= 2
  {
    MaxReal(MinReal(a, b), MinReal(MaxReal(a, b), c))
  }

  /** The median does not depend on the order the readings were taken in. */
  lemma MedianSymmetric(a: real, b: real, c: real)
    ensures Median(a, b, c) == Median(b, a, c) == Median(a, c, b) == Median(c, b, a)
  {
  }

  /** A single spike is ignored: two equal readings decide the result. */
  lemma MedianIgnoresSpike(x: real, spike: real)
    ensures Median(x, x, spike) == x && Median(x, spike, x) == x && Median(spike, x, x) == x
  {
  }

  /** `getDistanceCM`: -1 when any of the three readings failed (is negative);
      otherwise their median, found by three compare-and-swap steps. */
  method DistanceCM(a0: real, b0: real, c0: real) returns (d: real)
    ensures a0 < 0.0 || b0 < 0.0 || c0 < 0.0 ==> d == -1.0
    ensures a0 >= 0.0 && b0 >= 0.0 && c0 >= 0.0 ==> d == Median(a0, b0, c0)
  {
    var a, b, c := a0, b0, c0;
    if a < 0.0 || b < 0.0 || c < 0.0 {
      return -1.0;
    }
    if a > b {
      var t := a;
      a := b;
      b := t;
    }
    if b > c {
      var t := b;
      b := c;
      c := t;
    }
    if a > b {
      var t := a;
      a := b;
      b := t;
    }
    assert a <= b <= c;
    assert multiset{a, b, c} == multiset{a0, b0, c0};
    return b;
  }

  /** The C cast `(int)x`: truncation toward zero. */
  function TruncToInt(x: real): (n: int)
    ensures x >= 0.0 ==> n as real <= x < n as real + 1.0
    ensures x < 0.0 ==> n as real - 1.0 < x <= n as real
  {
    if x >= 0.0 then x.Floor else -((-x).Floor)
  }

  /** Arduino's `constrain(x, lo, hi)`. */
  function Constrain(x: int, lo: int, hi: int): (r: int)
    requires lo <= hi
    ensures lo <= r <= hi
    ensures lo <= x <= hi ==> r == x
    ensures x < lo ==> r == lo
    ensures x > hi ==> r == hi
  {
    if x < lo then lo else if x > hi then hi else x
  }

  /** The linear fill figure between the two calibration distances. */
  function Percent(d: real): real
  {
    ((EmptyDistance - d) / (EmptyDistance - FullDistance)) * 100.0
  }

  /** Between the calibration distances the linear figure lies strictly
      between 0 and 100, and it falls as the distance grows. */
  lemma PercentBounds(d: real)
    requires FullDistance < d < EmptyDistance
    ensures 0.0 < Percent(d) < 100.0
  {
  }

  lemma PercentDecreasing(d1: real, d2: real)
    requires d1 <= d2
    ensures Percent(d2) <= Percent(d1)
  {
  }

  /** `getFillPercent`: -1 for a failed reading, 100 at or inside the full
      distance, 0 at or beyond the empty distance, and in between the linear
      figure rounded half up, which already lies in 0..100. */
  function FillPercent(d: real): (p: int)
    ensures p == -1 <==> d < 0.0
    ensures 0.0 <= d <= FullDistance ==> p == 100
    ensures d >= EmptyDistance ==> p == 0
    ensures d >= 0.0 ==> 0 <= p <= 100
    ensures FullDistance < d < EmptyDistance ==>
              Percent(d) - 0.5 < p as real <= Percent(d) + 0.5
  {
    if d < 0.0 then -1
    else if d <= FullDistance then 100
    else if d >= EmptyDistance then 0
    else
      PercentBounds(d);
      Constrain(TruncToInt(Percent(d) + 0.5), 0, 100)
  }

  /** A bin further from the sensor is never shown fuller. */
  lemma FillMonotone(d1: real, d2: real)
    requires 0.0 <= d1 <= d2
    ensures FillPercent(d2) <= FillPercent(d1)
  {
    if FullDistance < d1 && d2 < EmptyDistance {
      PercentDecreasing(d1, d2);
      FloorMonotone(Percent(d2) + 0.5, Percent(d1) + 0.5);
    }
  }

  lemma FloorMonotone(x: real, y: real)
    requires x <= y
    ensures x.Floor <= y.Floor
  {
    assert x.Floor as real <= x <= y < y.Floor as real + 1.0;
  }

  datatype Display = Dashes | Full | Number(n: int)

  /** `showOnDisplay`: dashes for a failed reading, "FULL" above 99 %, else the
      figure itself. */
  function ShowOnDisplay(distance: real, fill: int): (shown: Display)
    ensures shown == Dashes <==> distance < 0.0 || fill < 0
    ensures shown == Full <==> distance >= 0.0 && fill > 99
    ensures shown.Number? ==> shown.n == fill && 0 <= fill <= 99
  {
    if distance < 0.0 || fill < 0 then Dashes
    else if fill > 99 then Full
    else Number(fill)
  }

  /** What a measured distance ends up showing: dashes exactly for a failed
      reading, "FULL" exactly when the fill is 100 (always so at or inside the
      full distance), and 0 for an empty bin. */
  lemma ReadingDisplay(d: real)
    ensures ShowOnDisplay(d, FillPercent(d)) == Dashes <==> d < 0.0
    ensures ShowOnDisplay(d, FillPercent(d)) == Full <==> d >= 0.0 && FillPercent(d) == 100
    ensures 0.0 <= d <= FullDistance ==> ShowOnDisplay(d, FillPercent(d)) == Full
    ensures d >= EmptyDistance ==> ShowOnDisplay(d, FillPercent(d)) == Number(0)
  {
  }
}
