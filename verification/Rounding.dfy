/** Round-half-to-even, as the `round` of the modelled program does it on exact values. */
module Rounding {

  function RoundHalfEven(x: real): (n: int)
    ensures n as real - 0.5 <= x <= n as real + 0.5
  {
    var f := x.Floor;
    var d := x - f as real;
    if d < 0.5 then f
    else if d > 0.5 then f + 1
    else if f % 2 == 0 then f
    else f + 1
  }

  lemma RoundMonotone(x: real, y: real)
    requires x <= y
    ensures RoundHalfEven(x) <= RoundHalfEven(y)
  {
  }

  lemma RoundInteger(n: int)
    ensures RoundHalfEven(n as real) == n
  {
  }

  /** The nearest integer; halfway between two, the even one. */
  lemma NearestEven(x: real, n: int)
    ensures RoundHalfEven(x) == n <==>
            || n as real - 0.5 < x < n as real + 0.5
            || (n % 2 == 0 && x in {n as real - 0.5, n as real + 0.5})
  {
  }

  /** `round(x, d)` with `scale == 10^d`. */
  function RoundTo(x: real, scale: real): (r: real)
    requires scale > 0.0
    ensures r * scale == RoundHalfEven(x * scale) as real
  {
    RoundHalfEven(x * scale) as real / scale
  }

  lemma DivMonotone(a: real, b: real, s: real)
    requires a <= b && s > 0.0
    ensures a / s <= b / s
  {
    var d := (b - a) / s;
    assert d * s == b - a;
    assert d >= 0.0;
    assert a / s + d == b / s;
  }

  lemma ProductNonNegative(a: real, b: real)
    requires a >= 0.0 && b >= 0.0
    ensures a * b >= 0.0
  {
  }

  lemma Cancel(a: real, c: real)
    requires c > 0.0
    ensures a * c / c == a
  {
  }

  lemma QuotientBounds(total: real, c: real, lo: real, hi: real)
    requires c > 0.0 && lo * c <= total <= hi * c
    ensures lo <= total / c <= hi
  {
    DivMonotone(lo * c, total, c);
    DivMonotone(total, hi * c, c);
    Cancel(lo, c);
    Cancel(hi, c);
  }

  lemma RoundToMonotone(x: real, y: real, scale: real)
    requires scale > 0.0 && x <= y
    ensures RoundTo(x, scale) <= RoundTo(y, scale)
  {
    assert x * scale <= y * scale;
    RoundMonotone(x * scale, y * scale);
    DivMonotone(RoundHalfEven(x * scale) as real, RoundHalfEven(y * scale) as real, scale);
  }

  /** A value that already has `d` decimals is its own rounding. */
  lemma RoundToFixed(x: real, n: int, scale: real)
    requires scale > 0.0 && x * scale == n as real
    ensures RoundTo(x, scale) == x
  {
    RoundInteger(n);
    assert RoundTo(x, scale) * scale == x * scale;
  }
}
