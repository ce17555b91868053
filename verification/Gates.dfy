/** Which signals pass the gates and where they go, in the fields of signals and counters. */
module Gates {
  import opened Prelude
  import opened PaperTrades
  import opened Controls

  // ----- the slots of a signal -----

  function OpenInModule(c: Counters, h: Horizon): int {
    if h in c.byModule then c.byModule[h] else 0
  }

  function OpenInCluster(c: Counters, symbol: string): int {
    var cluster := Cluster(symbol);
    if cluster in c.byCluster then c.byCluster[cluster] else 0
  }

  function OpenOfPair(c: Counters, symbol: string, strategy: string): int {
    if (symbol, strategy) in c.byPair then c.byPair[(symbol, strategy)] else 0
  }

  /** Leveraged and inverse funds count with their index; any other symbol stands for itself. */
  function Cluster(symbol: string): string {
    if symbol in {"QQQ", "TQQQ", "SQQQ"} then "NDX"
    else if symbol in {"SPY", "SPXL", "SPXS", "UPRO"} then "SPX"
    else if symbol in {"SMH", "SOXL", "SOXS"} then "SOX"
    else symbol
  }

  function MostInModule(h: Horizon): int {
    match h
    case ZeroDte => 2
    case Swing => 5
    case Leaps => 6
    case Hodl => 10
  }

  /** No market veto, room in module and cluster, no plan of the pair open, and enough confidence. */
  predicate PassesGates(c: Counters, symbol: string, sig: Signal, confidence: real) {
    && sig.clear
    && OpenInModule(c, sig.horizon) < MostInModule(sig.horizon)
    && OpenOfPair(c, symbol, sig.strategy) <= 0
    && OpenInCluster(c, symbol) < 2
    && confidence >= (if sig.counterTrend then 0.85 else 0.75)
  }

  lemma GatesExactly(c: Counters, symbol: string, sig: Signal, confidence: real)
    ensures RunGates(c, symbol, sig, confidence).None? <==> PassesGates(c, symbol, sig, confidence)
    ensures RunGates(c, symbol, sig, confidence) == Some(MarketState) <==> !sig.clear
  {
  }

  // ----- where a signal goes -----

  /** Fit for live delivery, and past every live gate; global shadow mode waives eligibility and confidence. */
  predicate GoesOut(live: Counters, shadow: bool, symbol: string, sig: Signal) {
    && (sig.liveEligible || shadow)
    && (sig.popBased && !shadow ==> sig.expectancyOk)
    && PassesGates(live, symbol, sig, if shadow then 1.0 else sig.confidence)
  }

  /** Kept from live delivery, but watched, and past every gate of the research plane. */
  predicate IsWatched(research: Counters, shadow: bool, symbol: string, sig: Signal) {
    !sig.liveEligible && !shadow && sig.shadowMonitor && PassesGates(research, symbol, sig, 1.0)
  }

  /**
   * A signal goes out exactly if it is fit and passes the live gates, for research only exactly if it
   * is not live eligible; it is watched exactly if it is kept back and passes the research gates;
   * a market veto stops it either way.
   */
  lemma RoutedExactly(live: Counters, research: Counters, shadow: bool, symbol: string, sig: Signal)
    ensures var route := ScoreAndGate(live, research, shadow, symbol, sig);
      && (route.Emit? <==> GoesOut(live, shadow, symbol, sig))
      && (route.Emit? ==> (route.researchOnly <==> !sig.liveEligible))
      && (route == Monitor <==> IsWatched(research, shadow, symbol, sig))
      && (!sig.clear ==> route.Suppress?)
  {
    hide RunGates, PassesGates;
    GatesExactly(live, symbol, sig, if shadow then 1.0 else sig.confidence);
    GatesExactly(research, symbol, sig, 1.0);
  }

  /** The signals of a bar that go out, and those that are watched, are exactly these. */
  lemma {:induction false} RoutesExactly(live: Counters, research: Counters, shadow: bool, symbol: string,
                                         signals: seq<Signal>)
    ensures forall sig ::
      sig in Emitted(live, research, shadow, symbol, signals) <==> sig in signals && GoesOut(live, shadow, symbol, sig)
    ensures forall sig ::
      sig in Monitored(live, research, shadow, symbol, signals)
      <==> sig in signals && IsWatched(research, shadow, symbol, sig)
  {
    hide ScoreAndGate, GoesOut, IsWatched;
    if signals != [] {
      RoutesExactly(live, research, shadow, symbol, signals[..|signals| - 1]);
      RoutedExactly(live, research, shadow, symbol, signals[|signals| - 1]);
    }
  }

  // ----- counting -----

  /** Opening and closing move the three counters of a plan by one, never below zero, and no other. */
  lemma CountedExactly(c: Counters, key: PlanKey)
    ensures var o, d := RegisterOpen(c, key), RegisterClose(c, key);
      && (forall h :: OpenInModule(o, h) == OpenInModule(c, h) + if h == key.horizon then 1 else 0)
      && (forall s :: OpenInCluster(o, s) == OpenInCluster(c, s) + if Cluster(s) == Cluster(key.symbol) then 1 else 0)
      && (forall s, t ::
            OpenOfPair(o, s, t) == OpenOfPair(c, s, t) + if s == key.symbol && t == key.strategy then 1 else 0)
      && (forall h :: h != key.horizon ==> OpenInModule(d, h) == OpenInModule(c, h))
      && (forall s :: Cluster(s) != Cluster(key.symbol) ==> OpenInCluster(d, s) == OpenInCluster(c, s))
      && (forall s, t :: !(s == key.symbol && t == key.strategy) ==> OpenOfPair(d, s, t) == OpenOfPair(c, s, t))
      && LessOne(OpenInModule(c, key.horizon), OpenInModule(d, key.horizon))
      && LessOne(OpenInCluster(c, key.symbol), OpenInCluster(d, key.symbol))
      && LessOne(OpenOfPair(c, key.symbol, key.strategy), OpenOfPair(d, key.symbol, key.strategy))
  {
    SameCluster(key.symbol);
    forall s: string ensures ClusterOf(s) == Cluster(s) {
      SameCluster(s);
    }
    hide Cluster, ClusterOf;
  }

  predicate LessOne(before: int, after: int) {
    after == if before >= 1 then before - 1 else 0
  }

  lemma SameCluster(symbol: string)
    ensures ClusterOf(symbol) == Cluster(symbol)
  {
  }
}
