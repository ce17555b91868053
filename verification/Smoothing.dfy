/** Moving averages: what each one is of the samples it has seen, and the objects that keep it. */
module Smoothing {
  import opened Prelude
  import Rounding

  function Sum(xs: seq<real>): real {
    if xs == [] then 0.0 else Sum(xs[..|xs| - 1]) + xs[|xs| - 1]
  }

  /** The last `n` samples, or all of them while there are fewer. */
  function Tail(xs: seq<real>, n: nat): seq<real> {
    if |xs| <= n then xs else xs[|xs| - n..]
  }

  function Sma(xs: seq<real>, n: nat): Option<real>
    requires n > 0
  {
    if |xs| < n then None else Some(Sum(Tail(xs, n)) / n as real)
  }

  /** One step of Wilder's average. */
  function WilderStep(prev: real, x: real, n: nat): real
    requires n > 0
  {
    (prev * (n as real - 1.0) + x) / n as real
  }

  /** Wilder's average of some samples, seeded with the mean of the first `n`. */
  function Wilder(xs: seq<real>, n: nat): (r: Option<real>)
    requires n > 0
    ensures r.Some? <==> |xs| >= n
  {
    if |xs| < n then None
    else if |xs| == n then Some(Sum(xs) / n as real)
    else Some(WilderStep(Wilder(xs[..|xs| - 1], n).value, xs[|xs| - 1], n))
  }

  function Scaled(k: real, d: real): real {
    k * d
  }

  function Toward(prev: real, x: real, k: real): real {
    prev + Scaled(k, x - prev)
  }

  function EmaStep(prev: real, x: real, n: nat): real {
    Toward(prev, x, 2.0 / (n as real + 1.0))
  }

  /** The exponential average, seeded with the mean of the first `n` samples. */
  function Ema(xs: seq<real>, n: nat): (r: Option<real>)
    requires n > 0
    ensures r.Some? <==> |xs| >= n
  {
    if |xs| < n then None
    else if |xs| == n then Some(Sum(xs) / n as real)
    else Some(EmaStep(Ema(xs[..|xs| - 1], n).value, xs[|xs| - 1], n))
  }

  // ----- bounds -----

  ghost predicate Within(xs: seq<real>, lo: real, hi: real) {
    forall k :: 0 <= k < |xs| ==> lo <= xs[k] <= hi
  }

  lemma {:induction false} SumBounds(xs: seq<real>, lo: real, hi: real)
    requires Within(xs, lo, hi)
    ensures lo * |xs| as real <= Sum(xs) <= hi * |xs| as real
  {
    if xs != [] {
      var m := |xs| - 1;
      SumBounds(xs[..m], lo, hi);
      OneMoreTime(lo, m as real);
      OneMoreTime(hi, m as real);
    }
  }

  lemma OneMoreTime(a: real, m: real)
    ensures a * (m + 1.0) == a * m + a
  {
  }

  lemma MeanBounds(total: real, n: nat, lo: real, hi: real)
    requires n > 0 && lo * n as real <= total <= hi * n as real
    ensures lo <= total / n as real <= hi
  {
    Rounding.QuotientBounds(total, n as real, lo, hi);
  }

  lemma BlendBounds(prev: real, x: real, m: real, lo: real, hi: real)
    requires m >= 0.0 && lo <= prev <= hi && lo <= x <= hi
    ensures lo * (m + 1.0) <= prev * m + x <= hi * (m + 1.0)
  {
    Rounding.ProductNonNegative(prev - lo, m);
    Rounding.ProductNonNegative(hi - prev, m);
  }

  lemma WilderStepBounds(prev: real, x: real, n: nat, lo: real, hi: real)
    requires n > 0 && lo <= prev <= hi && lo <= x <= hi
    ensures lo <= WilderStep(prev, x, n) <= hi
  {
    var m := n as real - 1.0;
    BlendBounds(prev, x, m, lo, hi);
    Rounding.QuotientBounds(prev * m + x, m + 1.0, lo, hi);
  }

  /** An average never leaves the range of its samples. */
  lemma {:induction false} WilderBounds(xs: seq<real>, n: nat, lo: real, hi: real)
    requires n > 0 && |xs| >= n && Within(xs, lo, hi)
    ensures lo <= Wilder(xs, n).value <= hi
  {
    if |xs| == n {
      SumBounds(xs, lo, hi);
      MeanBounds(Sum(xs), n, lo, hi);
    } else {
      WilderBounds(xs[..|xs| - 1], n, lo, hi);
      WilderStepBounds(Wilder(xs[..|xs| - 1], n).value, xs[|xs| - 1], n, lo, hi);
    }
  }

  lemma ScaleBetween(k: real, d: real)
    requires 0.0 <= k <= 1.0 && d >= 0.0
    ensures 0.0 <= k * d <= d
  {
    Rounding.ProductNonNegative(k, d);
    Rounding.ProductNonNegative(1.0 - k, d);
  }

  lemma ScaleNegative(k: real, d: real, e: real)
    requires e == -d
    ensures Scaled(k, d) == -(k * e)
  {
  }

  lemma ScaledBounds(k: real, d: real)
    requires 0.0 <= k <= 1.0
    ensures if d >= 0.0 then 0.0 <= Scaled(k, d) <= d else d <= Scaled(k, d) <= 0.0
  {
    if d >= 0.0 {
      ScaleBetween(k, d);
    } else {
      var e := -d;
      ScaleBetween(k, e);
      ScaleNegative(k, d, e);
    }
  }

  /** Part of the way from one value towards another lies between them. */
  lemma TowardBounds(prev: real, x: real, k: real, lo: real, hi: real)
    requires 0.0 <= k <= 1.0 && lo <= prev <= hi && lo <= x <= hi
    ensures lo <= Toward(prev, x, k) <= hi
  {
    hide Scaled;
    ScaledBounds(k, x - prev);
  }

  lemma EmaStepBounds(prev: real, x: real, n: nat, lo: real, hi: real)
    requires n > 0 && lo <= prev <= hi && lo <= x <= hi
    ensures lo <= EmaStep(prev, x, n) <= hi
  {
    hide Toward;
    var k := 2.0 / (n as real + 1.0);
    EmaRate(n, k);
    TowardBounds(prev, x, k, lo, hi);
  }

  lemma EmaRate(n: nat, k: real)
    requires n > 0 && k == 2.0 / (n as real + 1.0)
    ensures 0.0 <= k <= 1.0
  {
    Rounding.DivMonotone(0.0, 2.0, n as real + 1.0);
    Rounding.DivMonotone(2.0, n as real + 1.0, n as real + 1.0);
  }

  lemma {:induction false} EmaBounds(xs: seq<real>, n: nat, lo: real, hi: real)
    requires n > 0 && |xs| >= n && Within(xs, lo, hi)
    ensures lo <= Ema(xs, n).value <= hi
  {
    if |xs| == n {
      SumBounds(xs, lo, hi);
      MeanBounds(Sum(xs), n, lo, hi);
    } else {
      EmaBounds(xs[..|xs| - 1], n, lo, hi);
      EmaStepBounds(Ema(xs[..|xs| - 1], n).value, xs[|xs| - 1], n, lo, hi);
    }
  }

  /** Sample by sample, the first two streams together never exceed the third. */
  ghost predicate Dominated(xs: seq<real>, ys: seq<real>, zs: seq<real>) {
    |xs| == |ys| == |zs| && forall k :: 0 <= k < |zs| ==> xs[k] + ys[k] <= zs[k]
  }

  lemma {:induction false} SumDominated(xs: seq<real>, ys: seq<real>, zs: seq<real>)
    requires Dominated(xs, ys, zs)
    ensures Sum(xs) + Sum(ys) <= Sum(zs)
  {
    if zs != [] {
      SumDominated(xs[..|xs| - 1], ys[..|ys| - 1], zs[..|zs| - 1]);
    }
  }

  lemma QuotientsDominated(a: real, b: real, c: real, n: nat)
    requires n > 0 && a + b <= c
    ensures a / n as real + b / n as real <= c / n as real
  {
    Rounding.DivMonotone(a + b, c, n as real);
    assert (a + b) / n as real == a / n as real + b / n as real;
  }

  /** Smoothing keeps domination. */
  lemma {:induction false} WilderDominated(xs: seq<real>, ys: seq<real>, zs: seq<real>, n: nat)
    requires n > 0 && |zs| >= n && Dominated(xs, ys, zs)
    ensures Wilder(xs, n).value + Wilder(ys, n).value <= Wilder(zs, n).value
  {
    var l := |zs| - 1;
    if |zs| == n {
      SumDominated(xs, ys, zs);
      QuotientsDominated(Sum(xs), Sum(ys), Sum(zs), n);
    } else {
      WilderDominated(xs[..l], ys[..l], zs[..l], n);
      var a, b, c := Wilder(xs[..l], n).value, Wilder(ys[..l], n).value, Wilder(zs[..l], n).value;
      StepsDominated(a, b, c, xs[l], ys[l], zs[l], n);
    }
  }

  lemma StepsDominated(a: real, b: real, c: real, x: real, y: real, z: real, n: nat)
    requires n > 0 && a + b <= c && x + y <= z
    ensures WilderStep(a, x, n) + WilderStep(b, y, n) <= WilderStep(c, z, n)
  {
    var m := n as real - 1.0;
    assert 0.0 <= (c - a - b) * m;
    QuotientsDominated(a * m + x, b * m + y, c * m + z, n);
  }

  lemma OneMore(xs: seq<real>, x: real, n: nat)
    requires n > 0
    ensures Sum(xs + [x]) == Sum(xs) + x
    ensures |xs| + 1 < n ==> Wilder(xs + [x], n) == None == Ema(xs + [x], n)
    ensures |xs| + 1 == n ==> Wilder(xs + [x], n) == Some((Sum(xs) + x) / n as real) == Ema(xs + [x], n)
    ensures |xs| >= n ==> Wilder(xs + [x], n) == Some(WilderStep(Wilder(xs, n).value, x, n))
    ensures |xs| >= n ==> Ema(xs + [x], n) == Some(EmaStep(Ema(xs, n).value, x, n))
  {
    assert (xs + [x])[..|xs|] == xs;
  }

  /** Nothing before the last `n` samples counts. */
  lemma SmaForgets(before: seq<real>, last: seq<real>)
    requires last != []
    ensures Sma(before + last, |last|) == Some(Sum(last) / |last| as real)
  {
    assert Tail(before + last, |last|) == last;
  }

  // ----- the objects -----

  class SMA {
    const n: nat
    var window: seq<real>
    var sum: real
    ghost var samples: seq<real>

    ghost predicate Valid()
      reads this
    {
      n > 0 && window == Tail(samples, n) && sum == Sum(window)
    }

    constructor (n: nat)
      requires n > 0
      ensures Valid() && samples == [] && this.n == n
    {
      this.n := n;
      window, sum, samples := [], 0.0, [];
    }

    method Update(x: real) returns (r: Option<real>)
      requires Valid()
      modifies this
      ensures Valid() && samples == old(samples) + [x]
      ensures r == Sma(samples, n)
    {
      if |window| == n {
        SumHead(window);
        sum := sum - window[0];
        window := window[1..];
      }
      assert (window + [x])[..|window|] == window;
      window := window + [x];
      sum := sum + x;
      samples := samples + [x];
      r := Value();
    }

    method Value() returns (r: Option<real>)
      requires Valid()
      ensures r == Sma(samples, n)
    {
      r := if |window| == n then Some(sum / n as real) else None;
    }
  }

  lemma {:induction false} SumHead(xs: seq<real>)
    requires xs != []
    ensures Sum(xs[1..]) == Sum(xs) - xs[0]
  {
    if |xs| > 1 {
      var m := |xs| - 1;
      assert xs[1..][..m - 1] == xs[..m][1..];
      SumHead(xs[..m]);
    }
  }

  class EMA {
    const n: nat
    const k: real
    const seed: SMA
    var value: Option<real>
    ghost var samples: seq<real>

    ghost predicate Valid()
      reads this, seed
    {
      && n > 0 && seed.n == n && k == 2.0 / (n as real + 1.0)
      && seed.Valid()
      && (value.None? ==> seed.samples == samples)
      && value == Ema(samples, n)
    }

    constructor (n: nat)
      requires n > 0
      ensures Valid() && samples == [] && this.n == n && fresh(seed)
    {
      this.n, k := n, 2.0 / (n as real + 1.0);
      seed := new SMA(n);
      value, samples := None, [];
    }

    method Update(x: real)
      requires Valid()
      modifies this, seed
      ensures Valid() && samples == old(samples) + [x]
    {
      hide Ema, Toward, Sma, Wilder, Sum;
      OneMore(samples, x, n);
      match value {
        case None =>
          var seeded := seed.Update(x);
          SeedIsEma(samples + [x], n);
          if seeded.Some? {
            value := seeded;
          }
        case Some(v) =>
          value := Some(Toward(v, x, k));
      }
      samples := samples + [x];
    }
  }

  lemma SeedIsEma(xs: seq<real>, n: nat)
    requires n > 0 && |xs| <= n
    ensures Sma(xs, n) == Ema(xs, n)
  {
  }

  class WilderSmoother {
    const n: nat
    var seedSum: real
    var seedCount: nat
    var value: Option<real>
    ghost var samples: seq<real>

    ghost predicate Valid()
      reads this
    {
      && n > 0
      && value == Wilder(samples, n)
      && (value.None? ==> seedSum == Sum(samples) && seedCount == |samples|)
    }

    constructor (n: nat)
      requires n > 0
      ensures Valid() && samples == [] && this.n == n
    {
      this.n := n;
      seedSum, seedCount, value, samples := 0.0, 0, None, [];
    }

    method Update(x: real)
      requires Valid()
      modifies this
      ensures Valid() && samples == old(samples) + [x]
    {
      OneMore(samples, x, n);
      match value {
        case None =>
          seedSum, seedCount := seedSum + x, seedCount + 1;
          if seedCount == n {
            value := Some(seedSum / n as real);
          }
        case Some(v) =>
          value := Some(WilderStep(v, x, n));
      }
      samples := samples + [x];
    }
  }
}
