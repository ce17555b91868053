/** The trend score of one timeframe and the alignment of several. */
module Trend {
  import opened Prelude
  import opened Market
  import opened Smoothing
  import opened Indicators
  import Rounding

  datatype StructureState = Uptrend | Downtrend | Range | Unknown

  datatype TrendState = StrongUp | Up | Neutral | Down | StrongDown

  /** The votes cast for a bar, each -100..100; a vote is missing while its indicator warms up. */
  datatype Votes = Votes(
    emaStack: Option<real>,
    priceVsEma9: Option<real>,
    structure: Option<real>,
    rsiRegime: Option<real>,
    adxDmi: Option<real>)

  function EmaStackVote(ema9: real, ema21: real, ema50: real, prevEma9: Option<real>): real {
    var stack := (if ema9 > ema21 then 50.0 else -50.0) + (if ema21 > ema50 then 50.0 else -50.0);
    if prevEma9.Some? && ema9 != prevEma9.value then
      var rising := ema9 > prevEma9.value;
      if (rising && stack > 0.0) || (!rising && stack < 0.0) then stack else stack * 0.5
    else stack
  }

  function StructureVote(s: StructureState): real {
    match s
    case Uptrend => 100.0
    case Downtrend => -100.0
    case Range => 0.0
    case Unknown => 0.0
  }

  function RsiVote(r: real): real {
    if r >= 60.0 then 100.0 else if r >= 50.0 then 40.0 else if r >= 40.0 then -40.0 else -100.0
  }

  function AdxVote(adx: real, diPlus: real, diMinus: real): real {
    var direction := if diPlus > diMinus then 1.0 else -1.0;
    var strength := Min(adx / 40.0, 1.0);
    if adx >= 20.0 then 100.0 * direction * strength else 0.0
  }

  function StateFromScore(score: real): TrendState {
    if score >= 60.0 then StrongUp
    else if score >= 20.0 then Up
    else if score <= -60.0 then StrongDown
    else if score <= -20.0 then Down
    else Neutral
  }

  function Weighted(v: real, weight: real): real {
    v * weight
  }

  /** A weighted vote: what it adds to the total, and to the weight. */
  function Part(vote: Option<real>, weight: real): (real, real) {
    match vote
    case None => (0.0, 0.0)
    case Some(v) => (Weighted(v, weight), weight)
  }

  function WeightedSum(v: Votes): real {
    Part(v.emaStack, 0.30).0 + Part(v.priceVsEma9, 0.15).0 + Part(v.structure, 0.25).0
    + Part(v.rsiRegime, 0.15).0 + Part(v.adxDmi, 0.15).0
  }

  function TotalWeight(v: Votes): real {
    Part(v.emaStack, 0.30).1 + Part(v.priceVsEma9, 0.15).1 + Part(v.structure, 0.25).1
    + Part(v.rsiRegime, 0.15).1 + Part(v.adxDmi, 0.15).1
  }

  /** The weighted mean of the votes there are. */
  function Score(v: Votes): real {
    if TotalWeight(v) != 0.0 then WeightedSum(v) / TotalWeight(v) else 0.0
  }

  predicate InRange(vote: Option<real>) {
    vote.Some? ==> -100.0 <= vote.value <= 100.0
  }

  predicate AllInRange(v: Votes) {
    InRange(v.emaStack) && InRange(v.priceVsEma9) && InRange(v.structure) && InRange(v.rsiRegime) && InRange(v.adxDmi)
  }

  lemma AdxVoteInRange(adx: real, diPlus: real, diMinus: real)
    requires 0.0 <= adx
    ensures -100.0 <= AdxVote(adx, diPlus, diMinus) <= 100.0
    ensures adx >= 40.0 ==> AdxVote(adx, diPlus, diMinus) == if diPlus > diMinus then 100.0 else -100.0
  {
  }

  lemma WeightedBounds(v: real, w: real, hi: real)
    requires 0.0 - hi <= v <= hi && w > 0.0
    ensures 0.0 - hi * w <= Weighted(v, w) <= hi * w
  {
    Rounding.ProductNonNegative(hi - v, w);
    Rounding.ProductNonNegative(hi + v, w);
  }

  lemma PartBounds(vote: Option<real>, weight: real)
    requires InRange(vote) && weight > 0.0
    ensures Part(vote, weight).1 >= 0.0
    ensures -100.0 * Part(vote, weight).1 <= Part(vote, weight).0 <= 100.0 * Part(vote, weight).1
  {
    hide Weighted;
    if vote.Some? {
      WeightedBounds(vote.value, weight, 100.0);
    }
  }

  lemma SumInRange(v: Votes)
    requires AllInRange(v)
    ensures TotalWeight(v) >= 0.0 && -100.0 * TotalWeight(v) <= WeightedSum(v) <= 100.0 * TotalWeight(v)
  {
    hide Part, InRange;
    PartBounds(v.emaStack, 0.30);
    PartBounds(v.priceVsEma9, 0.15);
    PartBounds(v.structure, 0.25);
    PartBounds(v.rsiRegime, 0.15);
    PartBounds(v.adxDmi, 0.15);
  }

  /** However many votes are missing, the score is a mean of what there is. */
  lemma ScoreInRange(v: Votes)
    requires AllInRange(v)
    ensures -100.0 <= Score(v) <= 100.0
    ensures -100.0 <= Rounding.RoundTo(Score(v), 100.0) <= 100.0
  {
    hide WeightedSum, TotalWeight, AllInRange, Rounding.RoundTo;
    SumInRange(v);
    if TotalWeight(v) != 0.0 {
      Rounding.QuotientBounds(WeightedSum(v), TotalWeight(v), -100.0, 100.0);
    }
    Rounding.RoundToMonotone(-100.0, Score(v), 100.0);
    Rounding.RoundToMonotone(Score(v), 100.0, 100.0);
    Rounding.RoundToFixed(-100.0, -10000, 100.0);
    Rounding.RoundToFixed(100.0, 10000, 100.0);
  }

  // ----- the votes of a stream of bars -----

  /** The EMA9 before the last bar, as the engine remembers it. */
  function PreviousEma9(bars: seq<Bar>): Option<real> {
    if bars == [] then None else Ema(Closes(bars[..|bars| - 1]), 9)
  }

  ghost function VotesOf(bars: seq<Bar>, structure: StructureState): Votes
    requires bars != []
  {
    var closes, last := Closes(bars), bars[|bars| - 1];
    var ema9, ema21, ema50 := Ema(closes, 9), Ema(closes, 21), Ema(closes, 50);
    var rsi, adx, dmi := Rsi(closes, 14), Adx(bars, 14), DmiOf(bars, 14);
    Votes(
      if ema9.Some? && ema21.Some? && ema50.Some?
      then Some(EmaStackVote(ema9.value, ema21.value, ema50.value, PreviousEma9(bars))) else None,
      if ema9.Some? then Some(if last.close > ema9.value then 100.0 else -100.0) else None,
      Some(StructureVote(structure)),
      if rsi.Some? then Some(RsiVote(rsi.value)) else None,
      if adx.Some? && dmi.diPlus.Some? && dmi.diMinus.Some?
      then Some(AdxVote(adx.value, dmi.diPlus.value, dmi.diMinus.value)) else None)
  }

  lemma VotesAre(bars: seq<Bar>, structure: StructureState)
    requires bars != []
    ensures var closes := Closes(bars); var v := VotesOf(bars, structure);
      var e9, e21, e50 := Ema(closes, 9), Ema(closes, 21), Ema(closes, 50);
      && v.structure == Some(StructureVote(structure))
      && v.emaStack == (if e9.Some? && e21.Some? && e50.Some?
                        then Some(EmaStackVote(e9.value, e21.value, e50.value, PreviousEma9(bars))) else None)
      && v.priceVsEma9 == (if e9.Some? then Some(if bars[|bars| - 1].close > e9.value then 100.0 else -100.0) else None)
      && v.rsiRegime == (if Rsi(closes, 14).Some? then Some(RsiVote(Rsi(closes, 14).value)) else None)
      && v.adxDmi == (if Adx(bars, 14).Some? && DmiOf(bars, 14).diPlus.Some? && DmiOf(bars, 14).diMinus.Some?
                      then Some(AdxVote(Adx(bars, 14).value,
                                        DmiOf(bars, 14).diPlus.value, DmiOf(bars, 14).diMinus.value))
                      else None)
  {
    hide Ema, Rsi, Adx, DmiOf, EmaStackVote, AdxVote, RsiVote, Closes;
  }

  /** On every stream of sane bars the score stays within -100..100, during warm-up too. */
  lemma TrendScoreInRange(bars: seq<Bar>, structure: StructureState)
    requires bars != [] && AllSane(bars)
    ensures -100.0 <= Score(VotesOf(bars, structure)) <= 100.0
    ensures -100.0 <= Rounding.RoundTo(Score(VotesOf(bars, structure)), 100.0) <= 100.0
  {
    hide Ema, Rsi, Adx, DmiOf, Score, AdxVote;
    AdxWithinBounds(bars, 14);
    if Adx(bars, 14).Some? {
      AdxVoteInRange(Adx(bars, 14).value, DmiOf(bars, 14).diPlus.value, DmiOf(bars, 14).diMinus.value);
    }
    ScoreInRange(VotesOf(bars, structure));
  }

  /** One engine per symbol and timeframe; `structure` is what the market structure says of the bar. */
  class TrendEngine {
    const ema9: EMA
    const ema21: EMA
    const ema50: EMA
    const rsi14: RSI
    const adx14: ADX
    var prevEma9: Option<real>
    var votes: Votes
    var score: real
    var state: TrendState
    ghost var bars: seq<Bar>

    ghost function Repr(): set<object> {
      {ema9, ema9.seed, ema21, ema21.seed, ema50, ema50.seed, rsi14, rsi14.gain, rsi14.loss,
       adx14, adx14.tr, adx14.plusDm, adx14.minusDm, adx14.adx}
    }

    ghost predicate Apart() {
      && ema9 != ema21 && ema9 != ema50 && ema21 != ema50
      && ema9.seed != ema21.seed && ema9.seed != ema50.seed && ema21.seed != ema50.seed
      && rsi14.gain != adx14.tr && rsi14.gain != adx14.plusDm && rsi14.gain != adx14.minusDm && rsi14.gain != adx14.adx
      && rsi14.loss != adx14.tr && rsi14.loss != adx14.plusDm && rsi14.loss != adx14.minusDm && rsi14.loss != adx14.adx
    }

    /** Every indicator has seen exactly the engine's bars. */
    ghost predicate Fed(seen: seq<Bar>)
      reads Repr()
    {
      && ema9.Valid() && ema9.n == 9 && ema9.samples == Closes(seen)
      && ema21.Valid() && ema21.n == 21 && ema21.samples == Closes(seen)
      && ema50.Valid() && ema50.n == 50 && ema50.samples == Closes(seen)
      && rsi14.Valid() && rsi14.n == 14 && rsi14.closes == Closes(seen)
      && adx14.Valid() && adx14.n == 14 && adx14.bars == seen
    }

    ghost predicate Valid()
      reads this, Repr()
    {
      Apart() && Fed(bars) && prevEma9 == Ema(Closes(bars), 9)
    }

    constructor ()
      ensures Valid() && bars == [] && fresh(Repr())
    {
      hide EMA.Valid, RSI.Valid, ADX.Valid, Closes, Ema;
      var fast, middle, slow := NewAverages();
      var rsi, adx := NewOscillators();
      NoBars();
      ema9, ema21, ema50, rsi14, adx14 := fast, middle, slow, rsi, adx;
      prevEma9, votes, score, state, bars := None, Votes(None, None, None, None, None), 0.0, Neutral, [];
    }

    static method NewAverages() returns (fast: EMA, middle: EMA, slow: EMA)
      ensures fast.Valid() && fast.n == 9 && fast.samples == [] && fresh(fast) && fresh(fast.seed)
      ensures middle.Valid() && middle.n == 21 && middle.samples == [] && fresh(middle) && fresh(middle.seed)
      ensures slow.Valid() && slow.n == 50 && slow.samples == [] && fresh(slow) && fresh(slow.seed)
      ensures fast != middle && fast != slow && middle != slow
      ensures fast.seed != middle.seed && fast.seed != slow.seed && middle.seed != slow.seed
    {
      hide EMA.Valid;
      fast := new EMA(9);
      middle := new EMA(21);
      slow := new EMA(50);
    }

    static method NewOscillators() returns (rsi: RSI, adx: ADX)
      ensures rsi.Valid() && rsi.n == 14 && rsi.closes == [] && fresh(rsi) && fresh(rsi.gain) && fresh(rsi.loss)
      ensures adx.Valid() && adx.n == 14 && adx.bars == [] && fresh(adx)
      ensures fresh(adx.tr) && fresh(adx.plusDm) && fresh(adx.minusDm) && fresh(adx.adx)
      ensures rsi.gain !in {adx.tr, adx.plusDm, adx.minusDm, adx.adx}
      ensures rsi.loss !in {adx.tr, adx.plusDm, adx.minusDm, adx.adx}
    {
      hide RSI.Valid, ADX.Valid;
      rsi := new RSI(14);
      adx := new ADX(14);
    }

    static lemma NoBars()
      ensures Closes([]) == [] && Ema(Closes([]), 9) == None
    {
    }

    /** Feeds one closed bar to the indicators. */
    method FeedIndicators(b: Bar)
      requires Apart() && Fed(bars)
      modifies Repr()
      ensures Fed(bars + [b])
    {
      hide EMA.Valid, RSI.Valid, ADX.Valid;
      assert Closes(bars + [b]) == Closes(bars) + [b.close];
      ema9.Update(b.close);
      ema21.Update(b.close);
      ema50.Update(b.close);
      rsi14.Update(b.close);
      adx14.Update(b);
    }

    method Update(b: Bar, structure: StructureState)
      requires Valid()
      modifies this, Repr()
      ensures Valid() && bars == old(bars) + [b]
      ensures votes == VotesOf(bars, structure)
      ensures score == Rounding.RoundTo(Score(votes), 100.0) && state == StateFromScore(Score(votes))
    {
      hide Ema, Rsi, Adx, DmiOf, Score, EmaStackVote, AdxVote, RsiVote, Fed, Closes;
      ghost var after := bars + [b];
      assert after[..|after| - 1] == bars;
      FeedIndicators(b);
      Readings(after);
      bars := after;
      Vote(b, structure);
      prevEma9 := ema9.value;
    }

    /** What a fed engine's indicators read. */
    lemma Readings(seen: seq<Bar>)
      requires Fed(seen)
      ensures ema9.value == Ema(Closes(seen), 9) && ema21.value == Ema(Closes(seen), 21)
      ensures ema50.value == Ema(Closes(seen), 50) && rsi14.value == Rsi(Closes(seen), 14)
      ensures adx14.value == Adx(seen, 14)
      ensures adx14.diPlus == DmiOf(seen, 14).diPlus && adx14.diMinus == DmiOf(seen, 14).diMinus
    {
      hide Ema, Rsi, Adx, DmiOf, Closes;
    }

    /** The votes and the score of the bar just fed. */
    method Vote(b: Bar, structure: StructureState)
      requires bars != [] && b == bars[|bars| - 1] && prevEma9 == PreviousEma9(bars)
      requires ema9.value == Ema(Closes(bars), 9) && ema21.value == Ema(Closes(bars), 21)
      requires ema50.value == Ema(Closes(bars), 50) && rsi14.value == Rsi(Closes(bars), 14)
      requires adx14.value == Adx(bars, 14)
      requires adx14.diPlus == DmiOf(bars, 14).diPlus && adx14.diMinus == DmiOf(bars, 14).diMinus
      modifies this`votes, this`score, this`state
      ensures votes == VotesOf(bars, structure)
      ensures score == Rounding.RoundTo(Score(votes), 100.0) && state == StateFromScore(Score(votes))
    {
      hide *;
      VotesAre(bars, structure);
      var e9, e21, e50 := ema9.value, ema21.value, ema50.value;
      votes := Votes(None, None, Some(StructureVote(structure)), None, None);
      if e9.Some? && e21.Some? && e50.Some? {
        votes := votes.(emaStack := Some(EmaStackVote(e9.value, e21.value, e50.value, prevEma9)));
      }
      if e9.Some? {
        votes := votes.(priceVsEma9 := Some(if b.close > e9.value then 100.0 else -100.0));
      }
      if rsi14.value.Some? {
        votes := votes.(rsiRegime := Some(RsiVote(rsi14.value.value)));
      }
      if adx14.value.Some? && adx14.diPlus.Some? && adx14.diMinus.Some? {
        votes := votes.(adxDmi := Some(AdxVote(adx14.value.value, adx14.diPlus.value, adx14.diMinus.value)));
      }
      score, state := Rounding.RoundTo(Score(votes), 100.0), StateFromScore(Score(votes));
    }
  }

  // ----- alignment -----

  datatype TradeModule = ZeroDte | Swing | Leaps | Hodl

  function TfWeights(m: TradeModule): seq<(Timeframe, real)> {
    match m
    case ZeroDte => [(D1, 0.20), (H1, 0.20), (M15, 0.30), (M5, 0.30)]
    case Swing => [(W1, 0.20), (D1, 0.35), (H4, 0.30), (H1, 0.15)]
    case Leaps => [(MN1, 0.35), (W1, 0.35), (D1, 0.30)]
    case Hodl => [(MN1, 0.50), (W1, 0.30), (D1, 0.20)]
  }

  function Available(ws: seq<(Timeframe, real)>, matrix: map<Timeframe, real>): real {
    if ws == [] then 0.0 else (if ws[0].0 in matrix then ws[0].1 else 0.0) + Available(ws[1..], matrix)
  }

  function Agreement(ws: seq<(Timeframe, real)>, matrix: map<Timeframe, real>, direction: real): real {
    if ws == [] then 0.0
    else (if ws[0].0 in matrix then Weighted(Max(matrix[ws[0].0] * direction, 0.0) / 100.0, ws[0].1) else 0.0)
         + Agreement(ws[1..], matrix, direction)
  }

  /** The share, before rounding, of the module's available weight that agrees with a direction. */
  function Alignment(m: TradeModule, matrix: map<Timeframe, real>, direction: real): real {
    var total := Available(TfWeights(m), matrix);
    if total == 0.0 then 0.0 else 100.0 * Agreement(TfWeights(m), matrix, direction) / total
  }

  function AlignmentScore(m: TradeModule, matrix: map<Timeframe, real>, direction: real): real {
    Rounding.RoundTo(Alignment(m, matrix, direction), 100.0)
  }

  predicate Scores(matrix: map<Timeframe, real>) {
    forall tf :: tf in matrix ==> -100.0 <= matrix[tf] <= 100.0
  }

  lemma {:induction false} AgreementSplits(ws: seq<(Timeframe, real)>, matrix: map<Timeframe, real>)
    requires Scores(matrix) && forall k :: 0 <= k < |ws| ==> ws[k].1 > 0.0
    ensures Agreement(ws, matrix, 1.0) >= 0.0 && Agreement(ws, matrix, -1.0) >= 0.0
    ensures Agreement(ws, matrix, 1.0) + Agreement(ws, matrix, -1.0) <= Available(ws, matrix)
  {
    if ws != [] {
      AgreementSplits(ws[1..], matrix);
      if ws[0].0 in matrix {
        Share(matrix[ws[0].0], ws[0].1);
      }
    }
  }

  /** A score supports at most one side, and with at most its whole weight. */
  lemma Share(score: real, weight: real)
    requires -100.0 <= score <= 100.0 && weight > 0.0
    ensures var long := Weighted(Max(score * 1.0, 0.0) / 100.0, weight);
      var short := Weighted(Max(score * -1.0, 0.0) / 100.0, weight);
      long >= 0.0 && short >= 0.0 && long + short <= weight
  {
    hide Weighted;
    ShareBounds(Abs(score) / 100.0, weight);
    assert (Max(score * 1.0, 0.0) == Abs(score) && Max(score * -1.0, 0.0) == 0.0)
        || (Max(score * 1.0, 0.0) == 0.0 && Max(score * -1.0, 0.0) == Abs(score));
  }

  lemma ShareBounds(s: real, weight: real)
    requires 0.0 <= s <= 1.0 && weight > 0.0
    ensures 0.0 <= Weighted(s, weight) <= weight && Weighted(0.0, weight) == 0.0
  {
    ScaleBetween(s, weight);
  }

  lemma WeightsPositive(m: TradeModule)
    ensures forall k :: 0 <= k < |TfWeights(m)| ==> TfWeights(m)[k].1 > 0.0
  {
  }

  lemma SharesOf(long: real, short: real, total: real)
    requires long >= 0.0 && short >= 0.0 && long + short <= total && total > 0.0
    ensures 0.0 <= 100.0 * long / total && 0.0 <= 100.0 * short / total
    ensures 100.0 * long / total + 100.0 * short / total <= 100.0
  {
    Rounding.DivMonotone(0.0, 100.0 * long, total);
    Rounding.DivMonotone(0.0, 100.0 * short, total);
    Rounding.DivMonotone(100.0 * long + 100.0 * short, 100.0 * total, total);
    QuotientOfSum(100.0 * long, 100.0 * short, total);
    assert 0.0 / total == 0.0 && 100.0 * total / total == 100.0;
  }

  /** Rounding half to even mirrors around an even number. */
  lemma RoundMirrors(x: real, n: int)
    requires n % 2 == 0
    ensures Rounding.RoundHalfEven(n as real - x) == n - Rounding.RoundHalfEven(x)
  {
  }

  /** Long and short alignment share 100 between them, and still do after each is rounded. */
  lemma AlignmentsShareHundred(m: TradeModule, matrix: map<Timeframe, real>)
    requires Scores(matrix)
    ensures 0.0 <= Alignment(m, matrix, 1.0) && 0.0 <= Alignment(m, matrix, -1.0)
    ensures Alignment(m, matrix, 1.0) + Alignment(m, matrix, -1.0) <= 100.0
    ensures AlignmentScore(m, matrix, 1.0) + AlignmentScore(m, matrix, -1.0) <= 100.0
  {
    hide TfWeights, Agreement, Available, Scores, Rounding.RoundHalfEven;
    var ws := TfWeights(m);
    WeightsPositive(m);
    AgreementSplits(ws, matrix);
    var total := Available(ws, matrix);
    if total != 0.0 {
      SharesOf(Agreement(ws, matrix, 1.0), Agreement(ws, matrix, -1.0), total);
    }
    var long, short := Alignment(m, matrix, 1.0), Alignment(m, matrix, -1.0);
    RoundMirrors(100.0 * long, 10000);
    Rounding.RoundMonotone(100.0 * short, 10000.0 - 100.0 * long);
    var a, b := Rounding.RoundTo(long, 100.0), Rounding.RoundTo(short, 100.0);
    assert a * 100.0 + b * 100.0 <= 10000.0;
  }

  /** Seen from the other side, a mirrored matrix aligns exactly as much. */
  lemma AlignmentMirrors(m: TradeModule, matrix: map<Timeframe, real>, mirrored: map<Timeframe, real>)
    requires mirrored.Keys == matrix.Keys && forall tf :: tf in matrix ==> mirrored[tf] == -matrix[tf]
    ensures AlignmentScore(m, mirrored, 1.0) == AlignmentScore(m, matrix, -1.0)
  {
    hide TfWeights, Rounding.RoundTo;
    AgreementMirrors(TfWeights(m), matrix, mirrored);
  }

  lemma {:induction false} AgreementMirrors(ws: seq<(Timeframe, real)>, matrix: map<Timeframe, real>,
                                            mirrored: map<Timeframe, real>)
    requires mirrored.Keys == matrix.Keys && forall tf :: tf in matrix ==> mirrored[tf] == -matrix[tf]
    ensures Agreement(ws, mirrored, 1.0) == Agreement(ws, matrix, -1.0)
    ensures Available(ws, mirrored) == Available(ws, matrix)
  {
    if ws != [] {
      AgreementMirrors(ws[1..], matrix, mirrored);
      assert ws[0].0 in mirrored <==> ws[0].0 in matrix;
    }
  }
}
