/** What the indicators read, told by the weight of each sample and by shares, not by their updates. */
module Readings {
  import opened Prelude
  import opened Market
  import opened Smoothing
  import opened Indicators
  import Rounding

  // ----- the weight of one sample in an average -----

  function Power(x: real, n: nat): real {
    if n == 0 then 1.0 else x * Power(x, n - 1)
  }

  /** Two streams that have all samples in common but one. */
  ghost predicate DifferAt(xs: seq<real>, ys: seq<real>, k: nat) {
    |xs| == |ys| && k < |xs| && forall j :: 0 <= j < |xs| && j != k ==> xs[j] == ys[j]
  }

  /** How many steps an average has made since it took a sample in; the first `n` come in as one. */
  function Age(length: nat, k: nat, n: nat): nat
    requires k < length && n <= length
  {
    if k < n then length - n else length - 1 - k
  }

  lemma {:induction false} SumDiffers(xs: seq<real>, ys: seq<real>, k: nat)
    requires DifferAt(xs, ys, k)
    ensures Sum(ys) - Sum(xs) == ys[k] - xs[k]
  {
    var m := |xs| - 1;
    if k < m {
      SumDiffers(xs[..m], ys[..m], k);
    } else {
      assert xs[..m] == ys[..m];
    }
  }

  lemma OneStepOn(power: real, first: real, before: real, share: real, d: real, keep: real, all: real, after: real)
    requires power * first * before == share * d && all * after == keep * before
    ensures (all * power) * first * after == (keep * share) * d
  {
    assert (all * power) * first * after == (power * first) * (all * after);
    assert (power * first) * (keep * before) == keep * (power * first * before);
    assert keep * (share * d) == (keep * share) * d;
  }

  lemma LastStep(xs: seq<real>, n: nat)
    requires n > 0 && |xs| > n
    ensures Wilder(xs, n) == Some(WilderStep(Wilder(xs[..|xs| - 1], n).value, xs[|xs| - 1], n))
    ensures Ema(xs, n) == Some(EmaStep(Ema(xs[..|xs| - 1], n).value, xs[|xs| - 1], n))
  {
  }

  /** What one sample's difference `d` has become after some steps: `first` at once, `keep / all` a step. */
  ghost predicate Fades(all: real, keep: real, age: nat, first: real, diff: real, d: real) {
    Power(all, age) * first * diff == Power(keep, age) * d
  }

  lemma FadesFrom(all: real, keep: real, first: real, diff: real, d: real)
    requires first * diff == d
    ensures Fades(all, keep, 0, first, diff, d)
  {
  }

  /** An average's step: `keep` parts of what it was and a new sample, as `all` parts. */
  ghost predicate Blend(all: real, keep: real, before: real, x: real, after: real) {
    all * after == keep * before + x
  }

  /** The same sample comes in on both streams: the difference there was fades by one step. */
  lemma FadesOn(all: real, keep: real, age: nat, first: real, x: real, y: real, s: real, t: real, a: real, d: real)
    requires Fades(all, keep, age, first, y - x, d) && Blend(all, keep, x, a, s) && Blend(all, keep, y, a, t)
    ensures Fades(all, keep, age + 1, first, t - s, d)
  {
    assert all * (t - s) == keep * (y - x);
    OneStepOn(Power(all, age), first, y - x, Power(keep, age), d, keep, all, t - s);
  }

  /** The sample that differs comes in, taken `share` times. */
  lemma ComesIn(all: real, keep: real, x: real, s: real, t: real, a: real, b: real, share: real)
    requires share > 0.0 && Blend(all, keep, x, share * a, s) && Blend(all, keep, x, share * b, t)
    ensures Fades(all, keep, 0, all / share, t - s, b - a)
  {
    assert all * (t - s) == share * (b - a);
    Share(all, share);
    Cancels(share, all / share, t - s, b - a);
    FadesFrom(all, keep, all / share, t - s, b - a);
  }

  lemma Cancels(share: real, first: real, diff: real, d: real)
    requires share > 0.0 && share * first * diff == share * d
    ensures first * diff == d
  {
    assert share * (first * diff - d) == 0.0;
  }

  lemma WilderSeeds(xs: seq<real>, ys: seq<real>, k: nat, n: nat, all: real)
    requires n > 0 && |xs| == n && DifferAt(xs, ys, k) && all == n as real
    ensures all * (Wilder(ys, n).value - Wilder(xs, n).value) == ys[k] - xs[k]
  {
    hide Sum;
    SumDiffers(xs, ys, k);
    MeansDiffer(Sum(xs), Sum(ys), all);
  }

  lemma EmaSeeds(xs: seq<real>, ys: seq<real>, k: nat, n: nat, all: real)
    requires n > 0 && |xs| == n && DifferAt(xs, ys, k) && all == n as real
    ensures all * (Ema(ys, n).value - Ema(xs, n).value) == ys[k] - xs[k]
  {
    hide Sum;
    SumDiffers(xs, ys, k);
    MeansDiffer(Sum(xs), Sum(ys), all);
  }

  lemma MeansDiffer(a: real, b: real, c: real)
    requires c != 0.0
    ensures c * (b / c - a / c) == b - a
  {
  }

  lemma WilderBlends(x: real, a: real, n: nat, all: real)
    requires n > 0 && all == n as real
    ensures Blend(all, all - 1.0, x, 1.0 * a, WilderStep(x, a, n))
  {
    Share(x * (all - 1.0) + a, all);
  }

  lemma EmaBlends(x: real, a: real, n: nat, all: real)
    requires all == n as real + 1.0
    ensures Blend(all, all - 2.0, x, 2.0 * a, EmaStep(x, a, n))
  {
    Share(2.0, all);
    Spread(all, 2.0 / all, x, a);
  }

  lemma Spread(c: real, k: real, x: real, a: real)
    requires c * k == 2.0
    ensures c * (x + k * (a - x)) == (c - 2.0) * x + 2.0 * a
  {
    assert c * (k * (a - x)) == (c * k) * (a - x);
  }

  /**
   * In Wilder's average a sample weighs one nth when it comes in, and every later sample leaves
   * it (n - 1) / n of its weight.
   */
  lemma {:induction false} WilderWeight(xs: seq<real>, ys: seq<real>, k: nat, n: nat)
    requires n > 0 && |xs| >= n && DifferAt(xs, ys, k)
    ensures var all := n as real;
      Fades(all, all - 1.0, Age(|xs|, k, n), all, Wilder(ys, n).value - Wilder(xs, n).value, ys[k] - xs[k])
  {
    hide WilderStep, Wilder, Fades, Blend;
    var m, d, all := |xs| - 1, ys[k] - xs[k], n as real;
    var diff := Wilder(ys, n).value - Wilder(xs, n).value;
    if |xs| == n {
      WilderSeeds(xs, ys, k, n, all);
      FadesFrom(all, all - 1.0, all, diff, d);
    } else {
      LastStep(xs, n);
      LastStep(ys, n);
      var x, y := Wilder(xs[..m], n).value, Wilder(ys[..m], n).value;
      WilderBlends(x, xs[m], n, all);
      WilderBlends(y, ys[m], n, all);
      if k < m {
        WilderWeight(xs[..m], ys[..m], k, n);
        FadesOn(all, all - 1.0, Age(m, k, n), all, x, y, Wilder(xs, n).value, Wilder(ys, n).value, 1.0 * xs[m], d);
      } else {
        assert xs[..m] == ys[..m];
        ComesIn(all, all - 1.0, x, Wilder(xs, n).value, Wilder(ys, n).value, xs[m], ys[m], 1.0);
      }
    }
  }

  /**
   * In the exponential average a sample weighs 2 / (n + 1) when it comes in, those of the seed one
   * nth, and every later sample leaves it (n - 1) / (n + 1) of its weight.
   */
  lemma {:induction false} EmaWeight(xs: seq<real>, ys: seq<real>, k: nat, n: nat)
    requires n > 0 && |xs| >= n && DifferAt(xs, ys, k)
    ensures var all := n as real + 1.0;
      Fades(all, all - 2.0, Age(|xs|, k, n), if k < n then n as real else all / 2.0,
            Ema(ys, n).value - Ema(xs, n).value, ys[k] - xs[k])
  {
    hide EmaStep, Ema, Fades, Blend;
    var m, d, all := |xs| - 1, ys[k] - xs[k], n as real + 1.0;
    var first, diff := if k < n then n as real else all / 2.0, Ema(ys, n).value - Ema(xs, n).value;
    if |xs| == n {
      EmaSeeds(xs, ys, k, n, first);
      FadesFrom(all, all - 2.0, first, diff, d);
    } else {
      LastStep(xs, n);
      LastStep(ys, n);
      var x, y := Ema(xs[..m], n).value, Ema(ys[..m], n).value;
      EmaBlends(x, xs[m], n, all);
      EmaBlends(y, ys[m], n, all);
      if k < m {
        EmaWeight(xs[..m], ys[..m], k, n);
        FadesOn(all, all - 2.0, Age(m, k, n), first, x, y, Ema(xs, n).value, Ema(ys, n).value, 2.0 * xs[m], d);
      } else {
        assert xs[..m] == ys[..m];
        ComesIn(all, all - 2.0, x, Ema(xs, n).value, Ema(ys, n).value, xs[m], ys[m], 2.0);
      }
    }
  }

  // ----- true range -----

  /** The bar's range stretched to the close before it: the widest of the three spans, and no wider. */
  predicate IsRange(r: real, close: real, b: Bar) {
    && r >= b.high - b.low && r >= b.high - close && r >= close - b.low
    && r in {b.high - b.low, b.high - close, close - b.low}
  }

  lemma {:induction false} RangesTold(bars: seq<Bar>)
    requires AllSane(bars)
    ensures bars != [] ==> TrueRanges(bars)[0] == bars[0].high - bars[0].low
    ensures forall k :: 0 < k < |bars| ==> IsRange(TrueRanges(bars)[k], bars[k - 1].close, bars[k])
  {
    if bars != [] {
      var m := |bars| - 1;
      RangesTold(bars[..m]);
      if m > 0 {
        RangeTold(bars[m - 1], bars[m]);
      }
    }
  }

  lemma RangeTold(p: Bar, b: Bar)
    requires Sane(b)
    ensures IsRange(TrueRange(Some(p), b), p.close, b)
  {
  }

  // ----- relative strength -----

  lemma {:induction false} ChangesTold(closes: seq<real>)
    ensures |Gains(closes)| == |Losses(closes)| == if closes == [] then 0 else |closes| - 1
    ensures forall k :: 0 <= k < |closes| - 1 ==>
      && Gains(closes)[k] == (if closes[k + 1] > closes[k] then closes[k + 1] - closes[k] else 0.0)
      && Losses(closes)[k] == (if closes[k + 1] < closes[k] then closes[k] - closes[k + 1] else 0.0)
  {
    if |closes| > 1 {
      ChangesTold(closes[..|closes| - 1]);
    }
  }

  /** RSI is the share, in percent, that the gains have of all movement; it is 100 without losses. */
  lemma RsiIsShare(closes: seq<real>, n: nat)
    requires n > 0 && |closes| > n
    ensures Rsi(closes, n).Some? && Wilder(Gains(closes), n).Some? && Wilder(Losses(closes), n).Some?
    ensures var gain, loss := Wilder(Gains(closes), n).value, Wilder(Losses(closes), n).value;
      var rsi := Rsi(closes, n).value;
      if loss == 0.0 then rsi == 100.0 else rsi * (gain + loss) == 100.0 * gain
  {
    hide Wilder, Gains, Losses;
    AveragesNonNegative(closes, n);
    var gain, loss := Wilder(Gains(closes), n).value, Wilder(Losses(closes), n).value;
    if loss != 0.0 {
      StrengthIsShare(gain, loss);
    }
  }

  lemma StrengthIsShare(gain: real, loss: real)
    requires gain >= 0.0 && loss > 0.0
    ensures Strength(gain, loss) * (gain + loss) == 100.0 * gain
  {
    var q := gain / loss;
    Rounding.DivMonotone(0.0, gain, loss);
    assert q * loss == gain && 0.0 / loss == 0.0;
    var u := 1.0 + q;
    var h := 100.0 / u;
    assert h * u == 100.0;
    assert u * loss == gain + loss;
    assert h * (gain + loss) == h * (u * loss) == (h * u) * loss == 100.0 * loss;
  }

  // ----- directional movement -----

  /** Whichever side moved further moved by as much, if it moved outwards at all; the other did not. */
  predicate IsMovement(plus: real, minus: real, p: Bar, b: Bar) {
    var up, down := b.high - p.high, p.low - b.low;
    && (up > down && up > 0.0 ==> plus == up && minus == 0.0)
    && (down > up && down > 0.0 ==> minus == down && plus == 0.0)
    && (up == down || (up <= 0.0 && down <= 0.0) ==> plus == 0.0 == minus)
  }

  /** The samples of the smoothers are the ranges and movements of the bars after the first. */
  ghost predicate SamplesOf(d: Dmi, bars: seq<Bar>) {
    && |d.trs| == |d.plus| == |d.minus| == (if bars == [] then 0 else |bars| - 1)
    && forall k :: 0 <= k < |d.trs| ==>
         IsRange(d.trs[k], bars[k].close, bars[k + 1]) && IsMovement(d.plus[k], d.minus[k], bars[k], bars[k + 1])
  }

  lemma {:induction false} MovementTold(bars: seq<Bar>, n: nat)
    requires n > 0 && AllSane(bars)
    ensures SamplesOf(DmiOf(bars, n), bars)
  {
    hide TrueRange, PlusDm, MinusDm, IsRange, IsMovement, Wilder, Directed;
    if |bars| > 1 {
      var m := |bars| - 1;
      MovementTold(bars[..m], n);
      RangeTold(bars[m - 1], bars[m]);
      MoveTold(bars[m - 1], bars[m]);
      var d := Sampled(DmiOf(bars[..m], n), bars[m - 1], bars[m]);
      assert SamplesOf(d, bars);
      DirectedSamples(d, n);
    }
  }

  lemma DirectedSamples(d: Dmi, n: nat)
    requires n > 0
    ensures var e := Directed(d, n); e.trs == d.trs && e.plus == d.plus && e.minus == d.minus
  {
    hide Wilder;
  }

  lemma MoveTold(p: Bar, b: Bar)
    ensures IsMovement(PlusDm(p, b), MinusDm(p, b), p, b)
  {
  }

  /** The DIs are the smoothed movements in percent of the smoothed range; the index is their relative gap. */
  ghost predicate IsDirection(d: Dmi, dx: real, n: nat)
    requires n > 0 && |d.trs| == |d.plus| == |d.minus| >= n
  {
    && d.diPlus.Some? && d.diMinus.Some?
    && var atr, dp, dm := Wilder(d.trs, n).value, d.diPlus.value, d.diMinus.value;
    && atr * dp == 100.0 * Wilder(d.plus, n).value
    && atr * dm == 100.0 * Wilder(d.minus, n).value
    && if dp + dm == 0.0 then dx == 0.0 else (dp + dm) * dx == 100.0 * (if dp > dm then dp - dm else dm - dp)
  }

  /** Every bar with a smoothed range above zero adds one reading of the index; other bars add none. */
  lemma DirectionTold(bars: seq<Bar>, n: nat)
    requires n > 0 && |bars| > 1
    ensures var d, before := DmiOf(bars, n), DmiOf(bars[..|bars| - 1], n);
      && |d.trs| == |d.plus| == |d.minus| == |bars| - 1
      && (if |bars| > n && Wilder(d.trs, n).value > 0.0
          then |d.dxs| == |before.dxs| + 1 && d.dxs[..|before.dxs|] == before.dxs
               && IsDirection(d, d.dxs[|before.dxs|], n)
          else d.dxs == before.dxs && d.diPlus == before.diPlus && d.diMinus == before.diMinus)
  {
    hide Wilder, Directed, IsDirection, TrueRange, PlusDm, MinusDm;
    SamplesCounted(bars[..|bars| - 1], n);
    var d := Sampled(DmiOf(bars[..|bars| - 1], n), bars[|bars| - 2], bars[|bars| - 1]);
    DirectedTold(d, n);
  }

  lemma DirectedTold(d: Dmi, n: nat)
    requires n > 0 && |d.trs| == |d.plus| == |d.minus|
    ensures var e := Directed(d, n);
      && e.trs == d.trs && e.plus == d.plus && e.minus == d.minus
      && (if |d.trs| >= n && Wilder(d.trs, n).value > 0.0
          then |e.dxs| == |d.dxs| + 1 && e.dxs[..|d.dxs|] == d.dxs && IsDirection(e, e.dxs[|d.dxs|], n)
          else e.dxs == d.dxs && e.diPlus == d.diPlus && e.diMinus == d.diMinus)
  {
    hide Wilder, Dx, Di;
    if |d.trs| >= n && Wilder(d.trs, n).value > 0.0 {
      var atr, p, m := Wilder(d.trs, n).value, Wilder(d.plus, n).value, Wilder(d.minus, n).value;
      DiTold(p, atr);
      DiTold(m, atr);
      DxTold(Di(p, atr), Di(m, atr));
    }
  }

  lemma {:induction false} SamplesCounted(bars: seq<Bar>, n: nat)
    requires n > 0
    ensures var d := DmiOf(bars, n); |d.trs| == |d.plus| == |d.minus| == if bars == [] then 0 else |bars| - 1
  {
    hide Wilder;
    if |bars| > 1 {
      SamplesCounted(bars[..|bars| - 1], n);
    }
  }

  lemma DiTold(dm: real, atr: real)
    requires atr > 0.0
    ensures atr * Di(dm, atr) == 100.0 * dm
  {
  }

  lemma DxTold(a: real, b: real)
    ensures (a + b) * Dx(a, b) == (if a + b == 0.0 then 0.0 else 100.0 * (if a > b then a - b else b - a))
    ensures a + b == 0.0 ==> Dx(a, b) == 0.0
  {
    var denom := a + b;
    if denom == 0.0 {
      assert Dx(a, b) == 0.0;
    } else {
      Share(100.0 * Abs(a - b), denom);
      assert Dx(a, b) == 100.0 * Abs(a - b) / denom;
    }
  }

  lemma Share(x: real, c: real)
    requires c != 0.0
    ensures c * (x / c) == x
  {
  }
}
