/** Open-plan counters, the gates that read them, and where a fired signal goes. */
module Controls {
  import opened Prelude
  import opened Market
  import opened PaperTrades

  const CONFIDENCE_THRESHOLD := 0.75
  const COUNTER_TREND_THRESHOLD := 0.85
  const MAX_OPEN_PER_CLUSTER := 2

  function ModuleConcurrency(h: Horizon): nat {
    match h
    case ZeroDte => 2
    case Swing => 5
    case Leaps => 6
    case Hodl => 10
  }

  function ClusterOf(symbol: string): string {
    if symbol in ["QQQ", "TQQQ", "SQQQ"] then "NDX"
    else if symbol in ["SPY", "SPXL", "SPXS", "UPRO"] then "SPX"
    else if symbol in ["SMH", "SOXL", "SOXS"] then "SOX"
    else symbol
  }

  /** The three ways an open plan is counted. */
  datatype Slot =
    | ModuleSlot(horizon: Horizon)
    | ClusterSlot(cluster: string)
    | PairSlot(symbol: string, strategy: string)

  predicate InSlot(key: PlanKey, slot: Slot) {
    match slot
    case ModuleSlot(h) => key.horizon == h
    case ClusterSlot(c) => ClusterOf(key.symbol) == c
    case PairSlot(symbol, strategy) => key.symbol == symbol && key.strategy == strategy
  }

  /** How many open plans a slot may hold when a new one is let in. */
  function Cap(slot: Slot): nat {
    match slot
    case ModuleSlot(h) => ModuleConcurrency(h)
    case ClusterSlot(_) => MAX_OPEN_PER_CLUSTER
    case PairSlot(_, _) => 1
  }

  datatype Counters = Counters(
    byModule: map<Horizon, int>,
    byCluster: map<string, int>,
    byPair: map<(string, string), int>)

  const NO_COUNTS := Counters(map[], map[], map[])

  function Get<K(==)>(m: map<K, int>, k: K): int {
    if k in m then m[k] else 0
  }

  function Count(c: Counters, slot: Slot): int {
    match slot
    case ModuleSlot(h) => Get(c.byModule, h)
    case ClusterSlot(cluster) => Get(c.byCluster, cluster)
    case PairSlot(symbol, strategy) => Get(c.byPair, (symbol, strategy))
  }

  function Bumped<K(==)>(m: map<K, int>, k: K): map<K, int> {
    m[k := Get(m, k) + 1]
  }

  function Dropped<K(==)>(m: map<K, int>, k: K): map<K, int> {
    m[k := if Get(m, k) - 1 < 0 then 0 else Get(m, k) - 1]
  }

  function RegisterOpen(c: Counters, key: PlanKey): Counters {
    Counters(Bumped(c.byModule, key.horizon), Bumped(c.byCluster, ClusterOf(key.symbol)),
             Bumped(c.byPair, (key.symbol, key.strategy)))
  }

  function RegisterClose(c: Counters, key: PlanKey): Counters {
    Counters(Dropped(c.byModule, key.horizon), Dropped(c.byCluster, ClusterOf(key.symbol)),
             Dropped(c.byPair, (key.symbol, key.strategy)))
  }

  function One(b: bool): nat {
    if b then 1 else 0
  }

  lemma OpenCounts(c: Counters, key: PlanKey, slot: Slot)
    ensures Count(RegisterOpen(c, key), slot) == Count(c, slot) + One(InSlot(key, slot))
  {
    hide ClusterOf;
  }

  /** Where something is counted, closing it takes exactly one away. */
  lemma CloseCounts(c: Counters, key: PlanKey, slot: Slot)
    requires InSlot(key, slot) ==> Count(c, slot) >= 1
    ensures Count(RegisterClose(c, key), slot) == Count(c, slot) - One(InSlot(key, slot))
  {
    hide ClusterOf;
  }

  // ----- gates -----

  /** What a strategy's signal turns into if a plan is composed from it. */
  datatype Draft = Draft(
    alertId: string, direction: Direction, entry: real, stop: real, targets: seq<real>, validUntil: int)

  /**
   * A strategy that fired on a bar. `clear` says that the market gates and the cooldown let it pass;
   * `draft` is what the composer makes of it, if anything.
   */
  datatype Signal = Signal(
    strategy: string,
    horizon: Horizon,
    liveEligible: bool,
    shadowMonitor: bool,
    popBased: bool,
    expectancyOk: bool,
    counterTrend: bool,
    confidence: real,
    clear: bool,
    draft: Option<Draft>)

  datatype Gate = Disabled | Expectancy | MarketState | Concurrency | Duplicate | Correlation | Confidence

  function KeyOf(b: Bar, sig: Signal): PlanKey {
    PlanKey(b.ts, b.symbol, sig.horizon, sig.strategy)
  }

  function RunGates(c: Counters, symbol: string, sig: Signal, confidence: real): Option<Gate> {
    if !sig.clear then Some(MarketState)
    else if Count(c, ModuleSlot(sig.horizon)) >= ModuleConcurrency(sig.horizon) then Some(Concurrency)
    else if Count(c, PairSlot(symbol, sig.strategy)) > 0 then Some(Duplicate)
    else if Count(c, ClusterSlot(ClusterOf(symbol))) >= MAX_OPEN_PER_CLUSTER then Some(Correlation)
    else if confidence < (if sig.counterTrend then COUNTER_TREND_THRESHOLD else CONFIDENCE_THRESHOLD)
    then Some(Confidence)
    else None
  }

  /** Passing the gates means room in every slot the new plan would be counted in. */
  lemma GatesLeaveRoom(c: Counters, b: Bar, sig: Signal, confidence: real, slot: Slot)
    requires RunGates(c, b.symbol, sig, confidence).None? && InSlot(KeyOf(b, sig), slot)
    ensures Count(c, slot) < Cap(slot)
  {
    hide ClusterOf;
  }

  datatype Route = Suppress(gate: Gate) | Emit(researchOnly: bool) | Monitor

  /** Emitted setups go out live, monitored ones to the research plane; all else is suppressed by name. */
  function ScoreAndGate(live: Counters, research: Counters, shadow: bool, symbol: string, sig: Signal): Route {
    if !sig.liveEligible && !shadow && !sig.shadowMonitor then Suppress(Disabled)
    else if !sig.liveEligible && !shadow then
      match RunGates(research, symbol, sig, 1.0)
      case Some(gate) => Suppress(gate)
      case None => Monitor
    else if sig.popBased && !shadow && !sig.expectancyOk then Suppress(Expectancy)
    else
      match RunGates(live, symbol, sig, if shadow then 1.0 else sig.confidence)
      case Some(gate) => Suppress(gate)
      case None => Emit(!sig.liveEligible)
  }

  /** Outside global shadow mode only live-eligible signals at or above their threshold go out live. */
  lemma EmittedIsEligible(live: Counters, research: Counters, symbol: string, sig: Signal)
    requires ScoreAndGate(live, research, false, symbol, sig).Emit?
    ensures sig.liveEligible && !ScoreAndGate(live, research, false, symbol, sig).researchOnly
    ensures sig.confidence >= CONFIDENCE_THRESHOLD
    ensures sig.counterTrend ==> sig.confidence >= COUNTER_TREND_THRESHOLD
    ensures RunGates(live, symbol, sig, sig.confidence).None?
  {
  }

  // ----- the objects that keep the state -----

  class EngineControls {
    var openByModule: map<Horizon, int>
    var openByCluster: map<string, int>
    var openSymbolStrategy: map<(string, string), int>

    function View(): Counters
      reads this
    {
      Counters(openByModule, openByCluster, openSymbolStrategy)
    }

    constructor ()
      ensures View() == NO_COUNTS
    {
      openByModule, openByCluster, openSymbolStrategy := map[], map[], map[];
    }

    method Open(key: PlanKey)
      modifies this
      ensures View() == RegisterOpen(old(View()), key)
    {
      openByModule := openByModule[key.horizon := Get(openByModule, key.horizon) + 1];
      var c := ClusterOf(key.symbol);
      openByCluster := openByCluster[c := Get(openByCluster, c) + 1];
      var pair := (key.symbol, key.strategy);
      openSymbolStrategy := openSymbolStrategy[pair := Get(openSymbolStrategy, pair) + 1];
    }

    method Close(key: PlanKey)
      modifies this
      ensures View() == RegisterClose(old(View()), key)
    {
      openByModule := Dropped(openByModule, key.horizon);
      openByCluster := Dropped(openByCluster, ClusterOf(key.symbol));
      openSymbolStrategy := Dropped(openSymbolStrategy, (key.symbol, key.strategy));
    }
  }

  /** The signals routed one way, in order. */
  function Emitted(live: Counters, research: Counters, shadow: bool, symbol: string,
                   signals: seq<Signal>): seq<Signal>
  {
    if signals == [] then []
    else
      var last := signals[|signals| - 1];
      Emitted(live, research, shadow, symbol, signals[..|signals| - 1])
      + (if ScoreAndGate(live, research, shadow, symbol, last).Emit? then [last] else [])
  }

  function Monitored(live: Counters, research: Counters, shadow: bool, symbol: string,
                     signals: seq<Signal>): seq<Signal>
  {
    if signals == [] then []
    else
      var last := signals[|signals| - 1];
      Monitored(live, research, shadow, symbol, signals[..|signals| - 1])
      + (if ScoreAndGate(live, research, shadow, symbol, last).Monitor? then [last] else [])
  }

  /** The signals turned away, each with the gate that did it. */
  function Refused(live: Counters, research: Counters, shadow: bool, symbol: string,
                   signals: seq<Signal>): seq<(Signal, Gate)>
  {
    if signals == [] then []
    else
      var last := signals[|signals| - 1];
      var route := ScoreAndGate(live, research, shadow, symbol, last);
      Refused(live, research, shadow, symbol, signals[..|signals| - 1])
      + (if route.Suppress? then [(last, route.gate)] else [])
  }

  /** No signal is lost: each one is emitted, monitored or refused. */
  lemma {:induction false} EverySignalIsRouted(live: Counters, research: Counters, shadow: bool, symbol: string,
                                               signals: seq<Signal>)
    ensures |Emitted(live, research, shadow, symbol, signals)| + |Monitored(live, research, shadow, symbol, signals)|
      + |Refused(live, research, shadow, symbol, signals)| == |signals|
  {
    hide ScoreAndGate;
    if signals != [] {
      EverySignalIsRouted(live, research, shadow, symbol, signals[..|signals| - 1]);
    }
  }

  lemma {:induction false} EmittedSound(live: Counters, research: Counters, shadow: bool, symbol: string,
                                        signals: seq<Signal>)
    ensures forall sig :: sig in Emitted(live, research, shadow, symbol, signals) ==>
      sig in signals && ScoreAndGate(live, research, shadow, symbol, sig).Emit?
    ensures forall sig :: sig in Monitored(live, research, shadow, symbol, signals) ==>
      sig in signals && ScoreAndGate(live, research, shadow, symbol, sig).Monitor?
  {
    hide ScoreAndGate;
    if signals != [] {
      EmittedSound(live, research, shadow, symbol, signals[..|signals| - 1]);
    }
  }

  lemma OneMoreSignal(live: Counters, research: Counters, shadow: bool, symbol: string, signals: seq<Signal>, k: nat)
    requires k < |signals|
    ensures Emitted(live, research, shadow, symbol, signals[..k + 1])
      == Emitted(live, research, shadow, symbol, signals[..k])
      + (if ScoreAndGate(live, research, shadow, symbol, signals[k]).Emit? then [signals[k]] else [])
    ensures Monitored(live, research, shadow, symbol, signals[..k + 1])
      == Monitored(live, research, shadow, symbol, signals[..k])
      + (if ScoreAndGate(live, research, shadow, symbol, signals[k]).Monitor? then [signals[k]] else [])
    ensures var route := ScoreAndGate(live, research, shadow, symbol, signals[k]);
      Refused(live, research, shadow, symbol, signals[..k + 1]) == Refused(live, research, shadow, symbol, signals[..k])
      + (if route.Suppress? then [(signals[k], route.gate)] else [])
  {
    hide ScoreAndGate;
    assert signals[..k + 1][..k] == signals[..k];
  }

  /** The signal side of the engine: what was emitted, monitored and suppressed so far. */
  class EngineRunner {
    const controls: EngineControls
    const shadowControls: EngineControls
    const shadow: bool
    var setups: seq<Signal>
    var suppressed: seq<(Signal, Gate)>
    var shadowSetups: seq<Signal>
    var sequence: nat

    constructor (shadow: bool)
      ensures fresh(controls) && fresh(shadowControls) && controls != shadowControls
      ensures controls.View() == NO_COUNTS && shadowControls.View() == NO_COUNTS
      ensures this.shadow == shadow && setups == [] && suppressed == [] && shadowSetups == [] && sequence == 0
    {
      controls := new EngineControls();
      shadowControls := new EngineControls();
      this.shadow := shadow;
      setups, suppressed, shadowSetups, sequence := [], [], [], 0;
    }

    /** Gates every strategy's signal of one bar against the counters as they stand before the bar. */
    method OnBar(symbol: string, signals: seq<Signal>) returns (emitted: seq<Signal>)
      modifies this
      ensures emitted == Emitted(controls.View(), shadowControls.View(), shadow, symbol, signals)
      ensures setups == old(setups) + emitted
      ensures shadowSetups == old(shadowSetups)
        + Monitored(controls.View(), shadowControls.View(), shadow, symbol, signals)
      ensures suppressed == old(suppressed)
        + Refused(controls.View(), shadowControls.View(), shadow, symbol, signals)
      ensures sequence == old(sequence) + |signals|
    {
      emitted := [];
      assert signals[..0] == [];
      assert Emitted(controls.View(), shadowControls.View(), shadow, symbol, []) == [];
      assert Monitored(controls.View(), shadowControls.View(), shadow, symbol, []) == [];
      assert Refused(controls.View(), shadowControls.View(), shadow, symbol, []) == [];
      hide ScoreAndGate, Emitted, Monitored, Refused, EngineControls.View;
      ghost var live, research := controls.View(), shadowControls.View();
      for k := 0 to |signals|
        invariant emitted == Emitted(live, research, shadow, symbol, signals[..k])
        invariant shadowSetups == old(shadowSetups) + Monitored(live, research, shadow, symbol, signals[..k])
        invariant suppressed == old(suppressed) + Refused(live, research, shadow, symbol, signals[..k])
        invariant sequence == old(sequence) + k && setups == old(setups)
      {
        var sig := signals[k];
        OneMoreSignal(live, research, shadow, symbol, signals, k);
        sequence := sequence + 1;
        match ScoreAndGate(controls.View(), shadowControls.View(), shadow, symbol, sig) {
          case Suppress(gate) => suppressed := suppressed + [(sig, gate)];
          case Emit(_) => emitted := emitted + [sig];
          case Monitor => shadowSetups := shadowSetups + [sig];
        }
      }
      assert signals[..|signals|] == signals;
      setups := setups + emitted;
    }

    method PopShadowSetups() returns (items: seq<Signal>)
      modifies this`shadowSetups
      ensures items == old(shadowSetups) && shadowSetups == []
    {
      items, shadowSetups := shadowSetups, [];
    }
  }
}
