/** ATR, RSI and ADX: their values as functions of the bars, their bounds, and the objects. */
module Indicators {
  import opened Prelude
  import opened Market
  import opened Smoothing
  import Rounding

  // ----- true range -----

  function TrueRange(prev: Option<Bar>, b: Bar): real {
    match prev
    case None => b.high - b.low
    case Some(p) => Max(Max(b.high - b.low, Abs(b.high - p.close)), Abs(b.low - p.close))
  }

  function Previous(bars: seq<Bar>): Option<Bar> {
    if bars == [] then None else Some(bars[|bars| - 1])
  }

  function TrueRanges(bars: seq<Bar>): (r: seq<real>)
    ensures |r| == |bars|
  {
    if bars == [] then []
    else TrueRanges(bars[..|bars| - 1]) + [TrueRange(Previous(bars[..|bars| - 1]), bars[|bars| - 1])]
  }

  function Atr(bars: seq<Bar>, n: nat): Option<real>
    requires n > 0
  {
    Wilder(TrueRanges(bars), n)
  }

  lemma {:induction false} AtrNonNegative(bars: seq<Bar>, n: nat)
    requires n > 0 && AllSane(bars) && |bars| >= n
    ensures Atr(bars, n).value >= 0.0
  {
    TrueRangesNonNegative(bars);
    var hi := Largest(TrueRanges(bars));
    WilderBounds(TrueRanges(bars), n, 0.0, hi);
  }

  lemma {:induction false} TrueRangesNonNegative(bars: seq<Bar>)
    requires AllSane(bars)
    ensures forall k :: 0 <= k < |bars| ==> TrueRanges(bars)[k] >= 0.0
  {
    if bars != [] {
      TrueRangesNonNegative(bars[..|bars| - 1]);
      assert Sane(bars[|bars| - 1]);
    }
  }

  ghost function Largest(xs: seq<real>): (hi: real)
    ensures forall k :: 0 <= k < |xs| ==> xs[k] <= hi
  {
    if xs == [] then 0.0 else Max(Largest(xs[..|xs| - 1]), xs[|xs| - 1])
  }

  // ----- directional movement -----

  function PlusDm(p: Bar, b: Bar): real {
    var up, down := b.high - p.high, p.low - b.low;
    if up > down && up > 0.0 then up else 0.0
  }

  function MinusDm(p: Bar, b: Bar): real {
    var up, down := b.high - p.high, p.low - b.low;
    if down > up && down > 0.0 then down else 0.0
  }

  /** The movement of one bar never exceeds its true range. */
  lemma MovementFitsRange(p: Bar, b: Bar)
    requires Sane(p) && Sane(b)
    ensures PlusDm(p, b) >= 0.0 && MinusDm(p, b) >= 0.0
    ensures PlusDm(p, b) + MinusDm(p, b) <= TrueRange(Some(p), b)
  {
  }

  /** The samples fed to the smoothers so far, and the last DI values. */
  datatype Dmi = Dmi(
    trs: seq<real>,
    plus: seq<real>,
    minus: seq<real>,
    dxs: seq<real>,
    diPlus: Option<real>,
    diMinus: Option<real>)

  function Di(dm: real, atr: real): real
    requires atr > 0.0
  {
    100.0 * dm / atr
  }

  function Dx(diPlus: real, diMinus: real): real {
    var denom := diPlus + diMinus;
    if denom == 0.0 then 0.0 else 100.0 * Abs(diPlus - diMinus) / denom
  }

  function Sampled(d: Dmi, p: Bar, b: Bar): Dmi {
    d.(trs := d.trs + [TrueRange(Some(p), b)], plus := d.plus + [PlusDm(p, b)], minus := d.minus + [MinusDm(p, b)])
  }

  function Directed(d: Dmi, n: nat): Dmi
    requires n > 0
  {
    var atr, p, m := Wilder(d.trs, n), Wilder(d.plus, n), Wilder(d.minus, n);
    if atr.Some? && atr.value > 0.0 && p.Some? && m.Some? then
      var diPlus, diMinus := Di(p.value, atr.value), Di(m.value, atr.value);
      d.(diPlus := Some(diPlus), diMinus := Some(diMinus), dxs := d.dxs + [Dx(diPlus, diMinus)])
    else d
  }

  function DmiOf(bars: seq<Bar>, n: nat): Dmi
    requires n > 0
  {
    if |bars| <= 1 then Dmi([], [], [], [], None, None)
    else Directed(Sampled(DmiOf(bars[..|bars| - 1], n), bars[|bars| - 2], bars[|bars| - 1]), n)
  }

  function Adx(bars: seq<Bar>, n: nat): Option<real>
    requires n > 0
  {
    Wilder(DmiOf(bars, n).dxs, n)
  }

  ghost predicate DmiBounded(d: Dmi) {
    && Dominated(d.plus, d.minus, d.trs)
    && (forall k :: 0 <= k < |d.trs| ==> d.plus[k] >= 0.0 && d.minus[k] >= 0.0)
    && (d.diPlus.Some? <==> d.diMinus.Some?)
    && (d.dxs != [] ==> d.diPlus.Some?)
    && (d.diPlus.Some? ==>
          d.diPlus.value >= 0.0 && d.diMinus.value >= 0.0 && d.diPlus.value + d.diMinus.value <= 100.0)
    && Within(d.dxs, 0.0, 100.0)
  }

  lemma QuotientOfSum(a: real, b: real, c: real)
    requires c > 0.0
    ensures (a + b) / c == a / c + b / c
  {
    var x, y := a / c, b / c;
    assert (x + y) * c == x * c + y * c == a + b;
  }

  lemma DiBounds(p: real, m: real, atr: real)
    requires p >= 0.0 && m >= 0.0 && atr > 0.0 && p + m <= atr
    ensures Di(p, atr) >= 0.0 && Di(m, atr) >= 0.0 && Di(p, atr) + Di(m, atr) <= 100.0
  {
    Rounding.DivMonotone(0.0, 100.0 * p, atr);
    Rounding.DivMonotone(0.0, 100.0 * m, atr);
    Rounding.DivMonotone(100.0 * p + 100.0 * m, 100.0 * atr, atr);
    assert 0.0 / atr == 0.0 && 100.0 * atr / atr == 100.0;
    QuotientOfSum(100.0 * p, 100.0 * m, atr);
  }

  lemma DxBounds(a: real, b: real)
    requires a >= 0.0 && b >= 0.0
    ensures 0.0 <= Dx(a, b) <= 100.0
  {
    var denom := a + b;
    if denom != 0.0 {
      Rounding.DivMonotone(0.0, 100.0 * Abs(a - b), denom);
      Rounding.DivMonotone(100.0 * Abs(a - b), 100.0 * denom, denom);
      assert 0.0 / denom == 0.0 && 100.0 * denom / denom == 100.0;
    }
  }

  lemma SmoothedBounds(d: Dmi, n: nat)
    requires n > 0 && DmiBounded(d) && |d.trs| >= n
    ensures Wilder(d.plus, n).value >= 0.0 && Wilder(d.minus, n).value >= 0.0
    ensures Wilder(d.plus, n).value + Wilder(d.minus, n).value <= Wilder(d.trs, n).value
  {
    WilderBounds(d.plus, n, 0.0, Largest(d.plus));
    WilderBounds(d.minus, n, 0.0, Largest(d.minus));
    WilderDominated(d.plus, d.minus, d.trs, n);
  }

  lemma DirectedBounded(d: Dmi, n: nat)
    requires n > 0 && DmiBounded(d)
    ensures DmiBounded(Directed(d, n))
  {
    hide Wilder, Dx, Di;
    var atr := Wilder(d.trs, n);
    if |d.trs| >= n && atr.value > 0.0 {
      SmoothedBounds(d, n);
      var p, m := Wilder(d.plus, n).value, Wilder(d.minus, n).value;
      DiBounds(p, m, atr.value);
      DxBounds(Di(p, atr.value), Di(m, atr.value));
    }
  }

  lemma {:induction false} DmiStaysBounded(bars: seq<Bar>, n: nat)
    requires n > 0 && AllSane(bars)
    ensures DmiBounded(DmiOf(bars, n))
  {
    hide Directed, PlusDm, MinusDm, TrueRange;
    if |bars| > 1 {
      var front := bars[..|bars| - 1];
      DmiStaysBounded(front, n);
      MovementFitsRange(bars[|bars| - 2], bars[|bars| - 1]);
      DirectedBounded(Sampled(DmiOf(front, n), bars[|bars| - 2], bars[|bars| - 1]), n);
    }
  }

  /**
   * On every stream of sane bars: smoothed +DM and -DM together never exceed the smoothed true
   * range, the two DIs never exceed 100 together, and ADX stays within 0..100.
   */
  lemma AdxWithinBounds(bars: seq<Bar>, n: nat)
    requires n > 0 && AllSane(bars)
    ensures var d := DmiOf(bars, n);
      && |d.plus| == |d.minus| == |d.trs|
      && (|d.trs| >= n ==> Wilder(d.plus, n).value + Wilder(d.minus, n).value <= Wilder(d.trs, n).value)
      && (d.diPlus.Some? <==> d.diMinus.Some?)
      && (d.diPlus.Some? ==>
            0.0 <= d.diPlus.value && 0.0 <= d.diMinus.value && d.diPlus.value + d.diMinus.value <= 100.0)
    ensures Adx(bars, n).Some? ==> DmiOf(bars, n).diPlus.Some? && 0.0 <= Adx(bars, n).value <= 100.0
  {
    hide Wilder, DmiOf;
    DmiStaysBounded(bars, n);
    var d := DmiOf(bars, n);
    if |d.trs| >= n {
      SmoothedBounds(d, n);
    }
    if |d.dxs| >= n {
      WilderBounds(d.dxs, n, 0.0, 100.0);
    }
  }

  // ----- relative strength -----

  function Closes(bars: seq<Bar>): (r: seq<real>)
    ensures |r| == |bars|
  {
    seq(|bars|, k requires 0 <= k < |bars| => bars[k].close)
  }

  function Gains(closes: seq<real>): seq<real> {
    if |closes| <= 1 then []
    else Gains(closes[..|closes| - 1]) + [Max(closes[|closes| - 1] - closes[|closes| - 2], 0.0)]
  }

  function Losses(closes: seq<real>): seq<real> {
    if |closes| <= 1 then []
    else Losses(closes[..|closes| - 1]) + [Max(closes[|closes| - 2] - closes[|closes| - 1], 0.0)]
  }

  function Strength(gain: real, loss: real): real
    requires gain >= 0.0 && loss >= 0.0
  {
    if loss == 0.0 then 100.0 else 100.0 - 100.0 / (1.0 + gain / loss)
  }

  lemma {:induction false} ChangesNonNegative(closes: seq<real>)
    ensures |Gains(closes)| == |Losses(closes)| == if |closes| <= 1 then 0 else |closes| - 1
    ensures forall k :: 0 <= k < |Gains(closes)| ==> Gains(closes)[k] >= 0.0 && Losses(closes)[k] >= 0.0
  {
    if |closes| > 1 {
      ChangesNonNegative(closes[..|closes| - 1]);
    }
  }

  lemma AveragesNonNegative(closes: seq<real>, n: nat)
    requires n > 0 && |closes| > n
    ensures |Gains(closes)| >= n && |Losses(closes)| >= n
    ensures Wilder(Gains(closes), n).value >= 0.0 && Wilder(Losses(closes), n).value >= 0.0
  {
    ChangesNonNegative(closes);
    WilderBounds(Gains(closes), n, 0.0, Largest(Gains(closes)));
    WilderBounds(Losses(closes), n, 0.0, Largest(Losses(closes)));
  }

  ghost function Rsi(closes: seq<real>, n: nat): Option<real>
    requires n > 0
  {
    if |closes| <= n then None
    else
      AveragesNonNegative(closes, n);
      Some(Strength(Wilder(Gains(closes), n).value, Wilder(Losses(closes), n).value))
  }

  lemma RsiWithinBounds(closes: seq<real>, n: nat)
    requires n > 0 && |closes| > n
    ensures 0.0 <= Rsi(closes, n).value <= 100.0
  {
    AveragesNonNegative(closes, n);
    var gain, loss := Wilder(Gains(closes), n).value, Wilder(Losses(closes), n).value;
    if loss != 0.0 {
      Rounding.DivMonotone(0.0, gain, loss);
      assert 0.0 / loss == 0.0;
      var d := 1.0 + gain / loss;
      Rounding.DivMonotone(0.0, 100.0, d);
      Rounding.DivMonotone(100.0, 100.0 * d, d);
      assert 0.0 / d == 0.0 && 100.0 * d / d == 100.0;
    }
  }

  // ----- the objects -----

  class ATR {
    const n: nat
    const smoother: WilderSmoother
    var prevClose: Option<real>
    var value: Option<real>
    ghost var bars: seq<Bar>

    ghost predicate Valid()
      reads this, smoother
    {
      && n > 0 && smoother.n == n && smoother.Valid() && smoother.samples == TrueRanges(bars)
      && prevClose == (if bars == [] then None else Some(bars[|bars| - 1].close))
      && value == Atr(bars, n)
    }

    constructor (n: nat)
      requires n > 0
      ensures Valid() && bars == [] && this.n == n && fresh(smoother)
    {
      this.n := n;
      smoother := new WilderSmoother(n);
      prevClose, value, bars := None, None, [];
    }

    method Update(b: Bar)
      requires Valid()
      modifies this, smoother
      ensures Valid() && bars == old(bars) + [b]
    {
      hide Wilder;
      assert (bars + [b])[..|bars|] == bars;
      var tr := b.high - b.low;
      if prevClose.Some? {
        tr := Max(Max(tr, Abs(b.high - prevClose.value)), Abs(b.low - prevClose.value));
      }
      smoother.Update(tr);
      value := smoother.value;
      prevClose := Some(b.close);
      bars := bars + [b];
    }
  }

  class RSI {
    const n: nat
    const gain: WilderSmoother
    const loss: WilderSmoother
    var prevClose: Option<real>
    var value: Option<real>
    ghost var closes: seq<real>

    ghost predicate Valid()
      reads this, gain, loss
    {
      && n > 0 && gain.n == n && loss.n == n && gain != loss
      && gain.Valid() && loss.Valid()
      && gain.samples == Gains(closes) && loss.samples == Losses(closes)
      && prevClose == (if closes == [] then None else Some(closes[|closes| - 1]))
      && value == Rsi(closes, n)
    }

    constructor (n: nat)
      requires n > 0
      ensures Valid() && closes == [] && this.n == n && fresh(gain) && fresh(loss)
    {
      this.n := n;
      gain := new WilderSmoother(n);
      loss := new WilderSmoother(n);
      prevClose, value, closes := None, None, [];
    }

    method Update(close: real)
      requires Valid()
      modifies this, gain, loss
      ensures Valid() && closes == old(closes) + [close]
    {
      hide Wilder, Strength, Gains, Losses, Rsi;
      ghost var after := closes + [close];
      RsiNext(closes, close, n);
      if prevClose.Some? {
        var change := close - prevClose.value;
        gain.Update(Max(change, 0.0));
        loss.Update(Max(-change, 0.0));
        if gain.value.Some? && loss.value.Some? {
          AveragesNonNegative(after, n);
          value := Some(Strength(gain.value.value, loss.value.value));
        }
      }
      prevClose := Some(close);
      closes := after;
    }
  }

  lemma RsiNext(closes: seq<real>, close: real, n: nat)
    requires n > 0
    ensures var after := closes + [close];
      && (closes == [] ==> Gains(after) == Gains(closes) && Losses(after) == Losses(closes))
      && (closes != [] ==>
            var change := close - closes[|closes| - 1];
            Gains(after) == Gains(closes) + [Max(change, 0.0)] && Losses(after) == Losses(closes) + [Max(-change, 0.0)])
      && |Gains(after)| == |Losses(after)| == |after| - 1
      && (|after| <= n ==> Rsi(after, n) == None == Rsi(closes, n))
      && (|after| > n ==>
            && Wilder(Gains(after), n).Some? && Wilder(Losses(after), n).Some?
            && Wilder(Gains(after), n).value >= 0.0 && Wilder(Losses(after), n).value >= 0.0
            && Rsi(after, n) == Some(Strength(Wilder(Gains(after), n).value, Wilder(Losses(after), n).value)))
  {
    hide Wilder, Strength;
    var after := closes + [close];
    assert after[..|closes|] == closes;
    ChangesNonNegative(after);
    if |after| > n {
      AveragesNonNegative(after, n);
    }
  }

  class ADX {
    const n: nat
    const tr: WilderSmoother
    const plusDm: WilderSmoother
    const minusDm: WilderSmoother
    const adx: WilderSmoother
    var prev: Option<Bar>
    var diPlus: Option<real>
    var diMinus: Option<real>
    var value: Option<real>
    ghost var bars: seq<Bar>

    ghost predicate Apart() {
      tr != plusDm && tr != minusDm && tr != adx && plusDm != minusDm && plusDm != adx && minusDm != adx
    }

    ghost predicate Sampling(d: Dmi)
      reads tr, plusDm, minusDm, adx
    {
      && tr.Valid() && plusDm.Valid() && minusDm.Valid() && adx.Valid()
      && n > 0 && tr.n == n && plusDm.n == n && minusDm.n == n && adx.n == n
      && tr.samples == d.trs && plusDm.samples == d.plus && minusDm.samples == d.minus && adx.samples == d.dxs
    }

    ghost predicate Valid()
      reads this, tr, plusDm, minusDm, adx
    {
      && n > 0 && Apart()
      && Sampling(DmiOf(bars, n))
      && prev == Previous(bars)
      && diPlus == DmiOf(bars, n).diPlus && diMinus == DmiOf(bars, n).diMinus
      && value == Adx(bars, n)
    }

    constructor (n: nat)
      requires n > 0
      ensures Valid() && bars == [] && this.n == n
      ensures fresh(tr) && fresh(plusDm) && fresh(minusDm) && fresh(adx)
    {
      this.n := n;
      tr := new WilderSmoother(n);
      plusDm := new WilderSmoother(n);
      minusDm := new WilderSmoother(n);
      adx := new WilderSmoother(n);
      prev, diPlus, diMinus, value, bars := None, None, None, None, [];
    }

    method Update(b: Bar)
      requires Valid()
      modifies this, tr, plusDm, minusDm, adx
      ensures Valid() && bars == old(bars) + [b]
    {
      hide Wilder, Di, Dx, DmiOf, PlusDm, MinusDm, TrueRange;
      DmiNext(bars, b, n);
      if prev.Some? {
        ghost var d := Sampled(DmiOf(bars, n), prev.value, b);
        Sample(prev.value, b, DmiOf(bars, n));
        Redirect(d);
      }
      prev := Some(b);
      bars := bars + [b];
    }

    /** Feeds one bar's movement to the three smoothers. */
    method Sample(p: Bar, b: Bar, ghost d: Dmi)
      requires Apart() && Sampling(d)
      modifies tr, plusDm, minusDm
      ensures Sampling(Sampled(d, p, b))
    {
      hide Wilder;
      var up, down := b.high - p.high, p.low - b.low;
      tr.Update(Max(Max(b.high - b.low, Abs(b.high - p.close)), Abs(b.low - p.close)));
      plusDm.Update(if up > down && up > 0.0 then up else 0.0);
      minusDm.Update(if down > up && down > 0.0 then down else 0.0);
    }

    /** Recomputes the DIs and feeds the index, once there is a range to divide by. */
    method Redirect(ghost d: Dmi)
      requires Apart() && Sampling(d) && diPlus == d.diPlus && diMinus == d.diMinus && value == Wilder(d.dxs, n)
      modifies this`diPlus, this`diMinus, this`value, adx
      ensures Sampling(Directed(d, n)) && diPlus == Directed(d, n).diPlus && diMinus == Directed(d, n).diMinus
      ensures value == Wilder(Directed(d, n).dxs, n)
    {
      hide Wilder, Di, Dx;
      if tr.value.Some? && tr.value.value > 0.0 && plusDm.value.Some? && minusDm.value.Some? {
        var dp, dm := Di(plusDm.value.value, tr.value.value), Di(minusDm.value.value, tr.value.value);
        diPlus, diMinus := Some(dp), Some(dm);
        adx.Update(Dx(dp, dm));
        value := adx.value;
      }
    }
  }

  lemma DmiNext(bars: seq<Bar>, b: Bar, n: nat)
    requires n > 0
    ensures bars == [] ==> DmiOf(bars + [b], n) == DmiOf(bars, n)
    ensures bars != [] ==> DmiOf(bars + [b], n) == Directed(Sampled(DmiOf(bars, n), bars[|bars| - 1], b), n)
  {
    assert (bars + [b])[..|bars|] == bars;
  }
}
