/** The votes, the score and the alignment of the trend engine, told vote by vote and weight by weight. */
module TrendVotes {
  import opened Prelude
  import opened Market
  import opened Smoothing
  import opened Indicators
  import opened Trend
  import Readings

  // ----- one vote each -----

  /** 100 for averages stacked upwards, -100 for downwards, 0 for mixed; half if EMA9 moves against it. */
  predicate StackTold(vote: real, ema9: real, ema21: real, ema50: real, before: real) {
    && (ema9 > ema21 > ema50 ==> vote == if ema9 >= before then 100.0 else 50.0)
    && (ema9 <= ema21 <= ema50 ==> vote == if ema9 <= before then -100.0 else -50.0)
    && ((ema9 > ema21) != (ema21 > ema50) ==> vote == 0.0)
  }

  predicate StrengthTold(vote: real, rsi: real) {
    && (vote == 100.0 <==> 60.0 <= rsi)
    && (vote == 40.0 <==> 50.0 <= rsi < 60.0)
    && (vote == -40.0 <==> 40.0 <= rsi < 50.0)
    && (vote == -100.0 <==> rsi < 40.0)
  }

  /** None below 20; from there two and a half points each, up to 100, on the side of the larger DI. */
  predicate DirectionTold(vote: real, adx: real, diPlus: real, diMinus: real) {
    && (adx < 20.0 ==> vote == 0.0)
    && (20.0 <= adx <= 40.0 ==> vote == if diPlus > diMinus then 2.5 * adx else -2.5 * adx)
    && (adx >= 40.0 ==> vote == if diPlus > diMinus then 100.0 else -100.0)
  }

  predicate StructureTold(vote: real, s: StructureState) {
    && (vote == 100.0 <==> s == Uptrend)
    && (vote == -100.0 <==> s == Downtrend)
    && (vote == 0.0 <==> s == Range || s == Unknown)
  }

  lemma VotesTold(ema9: real, ema21: real, ema50: real, before: real, rsi: real, s: StructureState)
    ensures StackTold(EmaStackVote(ema9, ema21, ema50, Some(before)), ema9, ema21, ema50, before)
    ensures StrengthTold(RsiVote(rsi), rsi) && StructureTold(StructureVote(s), s)
  {
  }

  lemma AdxVoteTold(adx: real, diPlus: real, diMinus: real)
    ensures DirectionTold(AdxVote(adx, diPlus, diMinus), adx, diPlus, diMinus)
  {
  }

  /**
   * The votes of any stream: structure always votes, price from 9 bars on, strength from 15, the stack
   * from 50, and direction from the 14th reading of its index; each votes what its readings say.
   */
  lemma VotesOfStream(bars: seq<Bar>, structure: StructureState)
    requires bars != [] && AllSane(bars)
    ensures var v, closes := VotesOf(bars, structure), Closes(bars); var d := DmiOf(bars, 14);
      && v.structure.Some? && StructureTold(v.structure.value, structure)
      && (v.priceVsEma9.Some? <==> |bars| >= 9)
      && (v.priceVsEma9.Some? ==>
            v.priceVsEma9 == Some(if bars[|bars| - 1].close > Ema(closes, 9).value then 100.0 else -100.0))
      && (v.rsiRegime.Some? <==> |bars| >= 15)
      && (v.rsiRegime.Some? ==> StrengthTold(v.rsiRegime.value, Rsi(closes, 14).value))
      && (v.emaStack.Some? <==> |bars| >= 50)
      && (v.emaStack.Some? ==>
            StackTold(v.emaStack.value, Ema(closes, 9).value, Ema(closes, 21).value, Ema(closes, 50).value,
                      Ema(closes[..|closes| - 1], 9).value))
      && (v.adxDmi.Some? <==> |d.dxs| >= 14)
      && (v.adxDmi.Some? ==>
            && d.diPlus.Some? && d.diMinus.Some?
            && DirectionTold(v.adxDmi.value, Wilder(d.dxs, 14).value, d.diPlus.value, d.diMinus.value))
  {
    hide Ema, Wilder, DmiOf, EmaStackVote, AdxVote, RsiVote, StructureVote, StackTold, StrengthTold, DirectionTold,
      StructureTold;
    var closes, d := Closes(bars), DmiOf(bars, 14);
    AdxWithinBounds(bars, 14);
    assert Closes(bars[..|bars| - 1]) == closes[..|closes| - 1];
    VotesTold(0.0, 0.0, 0.0, 0.0, 0.0, structure);
    if |bars| >= 15 {
      VotesTold(0.0, 0.0, 0.0, 0.0, Rsi(closes, 14).value, structure);
    }
    if |bars| >= 50 {
      VotesTold(Ema(closes, 9).value, Ema(closes, 21).value, Ema(closes, 50).value,
        Ema(closes[..|closes| - 1], 9).value, 0.0, structure);
    }
    if |d.dxs| >= 14 {
      AdxVoteTold(Wilder(d.dxs, 14).value, d.diPlus.value, d.diMinus.value);
    }
  }

  // ----- the score -----

  function Worth(vote: Option<real>): real {
    if vote.Some? then vote.value else 0.0
  }

  function Cast(vote: Option<real>): real {
    if vote.Some? then 1.0 else 0.0
  }

  /** Times the hundredths that voted, the score is the sum of the votes in hundredths of their weight. */
  lemma ScoreTold(v: Votes)
    ensures var cast := 30.0 * Cast(v.emaStack) + 15.0 * Cast(v.priceVsEma9) + 25.0 * Cast(v.structure)
                        + 15.0 * Cast(v.rsiRegime) + 15.0 * Cast(v.adxDmi);
      if cast == 0.0 then Score(v) == 0.0
      else Score(v) * cast == 30.0 * Worth(v.emaStack) + 15.0 * Worth(v.priceVsEma9) + 25.0 * Worth(v.structure)
                              + 15.0 * Worth(v.rsiRegime) + 15.0 * Worth(v.adxDmi)
  {
    SumTold(v);
    hide WeightedSum, TotalWeight, Cast, Worth;
    if TotalWeight(v) != 0.0 {
      Readings.Share(WeightedSum(v), TotalWeight(v));
      Hundredfold(Score(v), TotalWeight(v), WeightedSum(v));
    }
  }

  lemma Hundredfold(score: real, weight: real, total: real)
    requires weight * score == total
    ensures score * (100.0 * weight) == 100.0 * total
  {
  }

  lemma SumTold(v: Votes)
    ensures 100.0 * TotalWeight(v) == 30.0 * Cast(v.emaStack) + 15.0 * Cast(v.priceVsEma9) + 25.0 * Cast(v.structure)
                                      + 15.0 * Cast(v.rsiRegime) + 15.0 * Cast(v.adxDmi)
    ensures 100.0 * WeightedSum(v) == 30.0 * Worth(v.emaStack) + 15.0 * Worth(v.priceVsEma9)
                                      + 25.0 * Worth(v.structure) + 15.0 * Worth(v.rsiRegime) + 15.0 * Worth(v.adxDmi)
  {
    hide Part, Cast, Worth;
    PartTold(v.emaStack, 0.30);
    PartTold(v.priceVsEma9, 0.15);
    PartTold(v.structure, 0.25);
    PartTold(v.rsiRegime, 0.15);
    PartTold(v.adxDmi, 0.15);
  }

  lemma PartTold(vote: Option<real>, weight: real)
    ensures Part(vote, weight).0 == Worth(vote) * weight && Part(vote, weight).1 == Cast(vote) * weight
  {
  }

  /** The state is read off the score before it is rounded, at 60, 20, -20 and -60. */
  lemma StateTold(score: real)
    ensures StateFromScore(score) == StrongUp <==> 60.0 <= score
    ensures StateFromScore(score) == Up <==> 20.0 <= score < 60.0
    ensures StateFromScore(score) == Neutral <==> -20.0 < score < 20.0
    ensures StateFromScore(score) == Down <==> -60.0 < score <= -20.0
    ensures StateFromScore(score) == StrongDown <==> score <= -60.0
  {
  }

  // ----- alignment -----

  /** A module's weight of a timeframe, in hundredths. */
  function Hundredths(m: TradeModule, tf: Timeframe): real {
    match (m, tf)
    case (ZeroDte, M5) => 30.0
    case (ZeroDte, M15) => 30.0
    case (ZeroDte, H1) => 20.0
    case (ZeroDte, D1) => 20.0
    case (Swing, H1) => 15.0
    case (Swing, H4) => 30.0
    case (Swing, D1) => 35.0
    case (Swing, W1) => 20.0
    case (Leaps, D1) => 30.0
    case (Leaps, W1) => 35.0
    case (Leaps, MN1) => 35.0
    case (Hodl, D1) => 20.0
    case (Hodl, W1) => 30.0
    case (Hodl, MN1) => 50.0
    case (_, _) => 0.0
  }

  function Counted(m: TradeModule, matrix: map<Timeframe, real>, tf: Timeframe): real {
    if tf in matrix then Hundredths(m, tf) else 0.0
  }

  /** How far a timeframe's score goes in a direction, times its weight. */
  function Agreeing(m: TradeModule, matrix: map<Timeframe, real>, direction: real, tf: Timeframe): real {
    if tf in matrix && matrix[tf] * direction > 0.0 then Hundredths(m, tf) * (matrix[tf] * direction) else 0.0
  }

  /**
   * Times the weight of the timeframes there are, the alignment is the sum of the scores on the side of
   * the direction, each times its weight; without any weight it is zero.
   */
  lemma AlignmentTold(m: TradeModule, matrix: map<Timeframe, real>, direction: real)
    ensures var there := Counted(m, matrix, M5) + Counted(m, matrix, M15) + Counted(m, matrix, H1)
                         + Counted(m, matrix, H4) + Counted(m, matrix, D1) + Counted(m, matrix, W1)
                         + Counted(m, matrix, MN1);
      var agreeing := Agreeing(m, matrix, direction, M5) + Agreeing(m, matrix, direction, M15)
                      + Agreeing(m, matrix, direction, H1) + Agreeing(m, matrix, direction, H4)
                      + Agreeing(m, matrix, direction, D1) + Agreeing(m, matrix, direction, W1)
                      + Agreeing(m, matrix, direction, MN1);
      if there == 0.0 then Alignment(m, matrix, direction) == 0.0
      else Alignment(m, matrix, direction) * there == agreeing
  {
    WeightsTold(m, matrix, direction);
    hide Agreement, Available, Counted, Agreeing, TfWeights;
    var total, agree := Available(TfWeights(m), matrix), Agreement(TfWeights(m), matrix, direction);
    if total != 0.0 {
      Readings.Share(100.0 * agree, total);
      Hundredfold(Alignment(m, matrix, direction), total, 100.0 * agree);
    }
  }

  /** What one entry of the weights adds. */
  lemma EntryTold(m: TradeModule, ws: seq<(Timeframe, real)>, matrix: map<Timeframe, real>, direction: real)
    requires ws != [] && 100.0 * ws[0].1 == Hundredths(m, ws[0].0)
    ensures 100.0 * Available(ws, matrix) == Counted(m, matrix, ws[0].0) + 100.0 * Available(ws[1..], matrix)
    ensures 10000.0 * Agreement(ws, matrix, direction)
         == Agreeing(m, matrix, direction, ws[0].0) + 10000.0 * Agreement(ws[1..], matrix, direction)
  {
    hide Hundredths;
    var (tf, w) := ws[0];
    if tf in matrix {
      var s := Max(matrix[tf] * direction, 0.0);
      assert 10000.0 * (s / 100.0 * w) == (100.0 * w) * s;
    }
  }

  lemma NoEntries(matrix: map<Timeframe, real>, direction: real)
    ensures Available([], matrix) == 0.0 && Agreement([], matrix, direction) == 0.0
  {
  }

  lemma Unweighted(m: TradeModule, matrix: map<Timeframe, real>, direction: real, tf: Timeframe)
    ensures Hundredths(m, tf) == 0.0 ==> Counted(m, matrix, tf) == 0.0 == Agreeing(m, matrix, direction, tf)
  {
  }

  lemma WeightsTold(m: TradeModule, matrix: map<Timeframe, real>, direction: real)
    ensures 100.0 * Available(TfWeights(m), matrix)
         == Counted(m, matrix, M5) + Counted(m, matrix, M15) + Counted(m, matrix, H1) + Counted(m, matrix, H4)
            + Counted(m, matrix, D1) + Counted(m, matrix, W1) + Counted(m, matrix, MN1)
    ensures 10000.0 * Agreement(TfWeights(m), matrix, direction)
         == Agreeing(m, matrix, direction, M5) + Agreeing(m, matrix, direction, M15)
            + Agreeing(m, matrix, direction, H1) + Agreeing(m, matrix, direction, H4)
            + Agreeing(m, matrix, direction, D1) + Agreeing(m, matrix, direction, W1)
            + Agreeing(m, matrix, direction, MN1)
  {
    hide Available, Agreement, Counted, Agreeing;
    var ws := TfWeights(m);
    EntryTold(m, ws, matrix, direction);
    EntryTold(m, ws[1..], matrix, direction);
    EntryTold(m, ws[2..], matrix, direction);
    assert ws[1..][1..] == ws[2..] && ws[2..][1..] == ws[3..];
    if |ws| == 4 {
      EntryTold(m, ws[3..], matrix, direction);
      assert ws[3..][1..] == [];
    }
    NoEntries(matrix, direction);
    Unweighted(m, matrix, direction, M5);
    Unweighted(m, matrix, direction, M15);
    Unweighted(m, matrix, direction, H1);
    Unweighted(m, matrix, direction, H4);
    Unweighted(m, matrix, direction, D1);
    Unweighted(m, matrix, direction, W1);
    Unweighted(m, matrix, direction, MN1);
  }
}
