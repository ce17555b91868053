# IntelliDhan: verified models of the intent queue, the paper desk and the streaming analytics

This project models three groups of components and proves what holds over whole runs of them.

1. **The execution-intent manager** (`Intents`, `IntentRules`, `IntentSteps`, `OptionChoice`, `QueueSpec`,
   `QueueSteps`, `QueueTotals`, `QueueRuns`, `QueueTheorems`, `QueueBudgets`, `QueueLateFill`, `AutotradeManager`; call
   by call, in the fields of the inputs: `QueueSums`, `QueueClaims`, `QueueOperations`, `QueueReceipts`,
   `OptionScreens`, `QueueSelections`). Each operation is a function from state to state or to a raised error.
   `AutotradeManager` is the class whose methods change intents in place, loops included, and are proved equal to those
   functions. The theorems quantify over every finite sequence of calls from an empty queue, in any order, by any
   caller.
2. **The paper desk** (`PaperTrades`, `PaperReplay`, `PaperExecutor`, `Controls`, `DeskSpec`, `DeskSteps`,
   `DeskRuns`, `DeskTheorems`, `DeskReplay`, `LiveLoop`; bar by bar, in prices and counts: `PaperBars`, `Gates`,
   `DeskBars`). Trades fill, move to breakeven, bank tranches and settle; an index of unresolved trades, counters on
   two planes and a partial ledger follow them; a restart rebuilds all of it. `PaperExecutor` and `LiveLoop` are the objects, `DeskSpec` the same desk on values.
3. **Streaming algorithms**: the EMA9 crossover simulator (`Ema9Rules`, `Ema9Steps`, `Ema9Simulator`, `Ema9Fills`;
   its trades told from the bars: `Ema9Stories`, `Ema9Telling`, `Ema9Told`, `Ema9Orders`), the moving averages, ATR,
   RSI and ADX (`Smoothing`, `Indicators`, `Readings`), the trend score (`Trend`, `TrendVotes`), the timeframe roller
   (`Rollup`, `RollupWindows`, `Roller`), calibration by pooling adjacent violators and what it claims (`Calibration`,
   `Claims`, `CalibrationClaims`), and the value area (`ValueArea`, `Profile`, `ProfileLevels`).

`Prelude`, `Rounding`, `Market` and `Sorting` are shared. `dafny verify dfyconfig.toml` checks everything.

## How the model reads the program

* Money is in whole cents and option prices in hundredths of a cent, so the `1e-9` tolerances disappear. Prices,
  R multiples and volumes are exact reals; where the program rounds, so does the model, half to even.
* Instants are seconds; the ET day, and the seconds since 09:30, come with them. Each operation reads the clock once.
* A raised exception is an error value, and the state stays as it was.
* What a strategy, the composer, the market gates, the calibration files and the symbol gate answer is a parameter.
* An alert's or plan's key is the tuple it is made of rather than the text it is printed as.
* The program's comments and its code differ in four places; for each there is a concrete input and the exact
  condition under which the code does what it is described to do.
  * Per-module and per-cluster caps are described as caps, but all of a bar's signals are gated before any of its plans
    is counted (`DeskTheorems.CapCanBeExceededWithinABar`). A bar keeps a slot within its cap exactly when the plans it
    adds there fit the room its gates saw (`DeskTheorems.BarKeepsCapExactly`, over runs `DeskTheorems.CapHeldExactly`);
    the slack is bounded by `DeskTheorems.SlotsStayBounded`.
  * Calibrated confidence is described as non-decreasing in the composite, but thin pools fall back to another map, on
    either side of a sufficient one (`Claims.ThinAboveBreaksMonotonicity`, `Claims.ThinBelowBreaksMonotonicity`). It is
    non-decreasing exactly when the edges of the runs of sufficient pools agree with the fallback
    (`Claims.MonotoneExactly`). Composites range over the reals there, while the scoring rounds them to two decimals.
  * The stop fill of the EMA9 simulator is called conservative, but a bar that opens a little beyond the stop and never
    trades back is filled at the stop (`Ema9Fills.FillCanBeOutsideTheBar`, exactly then: `Ema9Fills.FillIsTradable`).
  * The daily cap of the intent queue holds for every intent except one filled after its local cancellation
    (`QueueLateFill.LateFillExceedsDailyCap`, exactly then: `QueueBudgets.CapHoldsUnlessLateFillOverflows`,
    over runs `QueueBudgets.CapHeldExactly`).

## Model

| member | source | states |
|---|---|---|
| `QueueTheorems.EventLogRefinesLifecycle` | services/gateway/intellidhan_gateway/autotrade.py:1655-1710 | over every run of operations, each intent's events are numbered 1..n, each from-status is the previous to-status, every arc lies in the fixed transition relation, the last one ends in the current status, revision is n, and the ledger rows carried by the events are exactly the trade ledger |
| `QueueTheorems.TerminalAbsorbs` | services/gateway/intellidhan_gateway/autotrade.py:52-59 | events are append-only for ever; an intent in a terminal status other than CANCELLED never changes again, and a CANCELLED one changes only into a filled exposure |
| `QueueTheorems.ExposureIsKept` | services/gateway/intellidhan_gateway/autotrade.py:1261-1274 | a filled order stays EXECUTED or CLOSED in every later state: an exposure is never lost |
| `QueueTheorems.LedgerShape` | services/gateway/intellidhan_gateway/autotrade.py:1281-1347 | exactly one ENTRY row iff EXECUTED or CLOSED, exactly one EXIT row, last, iff CLOSED; the exit's P&L, and for options its quantity, match the entry, and an entry never exceeds the selected quantity |
| `QueueTheorems.ClosingLookupNeverFails` | services/gateway/intellidhan_gateway/autotrade.py:1414-1457 | in no reachable state can a closing receipt or simulated close miss the entry it looks up |
| `QueueTheorems.SimulationModeIsSafe` | services/gateway/intellidhan_gateway/autotrade.py:495-506 | whenever the stored mode is SIMULATION no LIVE intent is in a blockable status and every LIVE claim is revoked |
| `QueueTheorems.SimulationNeverPlaced` | services/gateway/intellidhan_gateway/autotrade.py:1050-1057 | SIMULATION intents never become READY or CLAIMED and never hold a claim; nothing ever waits in AWAITING_APPROVAL |
| `QueueTheorems.LeaseWithinBounds` | services/gateway/intellidhan_gateway/autotrade.py:1085-1108 | a lease starts at the claim and ends within two minutes, within the intent's validity and within the LIVE window |
| `QueueTheorems.ClaimsChangeOnlyByAcquisition` | services/gateway/intellidhan_gateway/autotrade.py:1040-1108 | no operation but a claim call gives an intent a new claim; QueueClaims.ClaimedExactly says exactly which claim calls do |
| `QueueClaims.ClaimedExactly` | services/gateway/intellidhan_gateway/autotrade.py:1040-1234 | in every run, a call gives an intent a new claim if and only if it is a claim call by the executor for a LIVE intent in time, ready or with its lease run out unrevoked, and every guard holds: window open, symbol not blocked, symbol, strategy and module allowlisted, confidence, options flags, calibration, room among the other open intents; price positive, fresh and inside the entry zone; capital positive, risk within the order cap and what the others leave of the day; contract fresh, not selling out, its debit, expiry and liquidity; review passed, fresh, of this amount and within the share of buying power. The claim is of that moment and its lease ends with the first of its three ends; nothing else changes |
| `QueueOperations.RefusedClaim` | services/gateway/intellidhan_gateway/autotrade.py:1050-1077 | a claim call that is not granted blocks or revokes the intent when it may not be placed at all, expires it when its time is up, and otherwise raises and changes nothing |
| `QueueOperations.PolicyChange` | services/gateway/intellidhan_gateway/autotrade.py:453-506 | a policy is taken exactly when its fields are in bounds and LIVE has one to 480 minutes and full allowlists; the LIVE window is then open for exactly those minutes, and a switch to SIMULATION blocks or revokes exactly the LIVE intents |
| `QueueOperations.NewAlert` | services/gateway/intellidhan_gateway/autotrade.py:508-727 | a new alert makes exactly one intent: LIVE exactly while the window is open, READY exactly when nothing in policy, alert and surroundings speaks against it and the caps leave room, SHADOW exactly when SIMULATION has nothing against it, BLOCKED otherwise; its plan asks for a call below and a put above the stop |
| `QueueOperations.KnownAlert` | services/gateway/intellidhan_gateway/autotrade.py:508-530 | a repeated alert leaves its intent as it is exactly while its plan may stand and its symbol is fit, and else blocks or revokes it |
| `QueueOperations.Rejecting` | services/gateway/intellidhan_gateway/autotrade.py:951-961 | rejecting ends what is not claimed yet, revokes a claim, and raises for anything later |
| `QueueOperations.Approving` | services/gateway/intellidhan_gateway/autotrade.py:937-949 | in any state, approval raises for what does not await it, expires an intent past its validity, blocks one of an unfit symbol and makes any other ready |
| `QueueOperations.Review` | services/gateway/intellidhan_gateway/autotrade.py:963-1038 | a review is taken exactly of a sized LIVE order that is ready or whose lease ran out, on a fresh, positive figure of the right account; it records the cent-rounded share, passes exactly if that covers the capital, and otherwise blocks or revokes the order |
| `QueueOperations.Quarantined` | services/gateway/intellidhan_gateway/autotrade.py:1236-1250 | quarantine blocks or revokes exactly the symbol's intents |
| `QueueOperations.Swept` | services/gateway/intellidhan_gateway/autotrade.py:1555-1586 | the sweep expires or revokes exactly what is past its validity, and then blocks or revokes the LIVE intents if the window has lapsed |
| `QueueReceipts.ReceiptTaken` | services/gateway/intellidhan_gateway/autotrade.py:1252-1347 | in every run a broker receipt is taken if and only if the intent is LIVE, its status may be followed by the reported one, it is observed no later than five seconds ahead and a fill is complete and of the selected contract and size; it books one row with the broker's figures and, for an exit, the price difference over the entered quantity; a failed exit leaves the position open |
| `QueueReceipts.SimulationTaken` | services/gateway/intellidhan_gateway/autotrade.py:1349-1458 | in every run a simulated receipt is taken if and only if the intent is a SIMULATION, in the right status, of the selected contract, quoted freshly and in order, and an entry is in time, liquid and inside the zone; it is bought at the ask and sold at the bid |
| `QueueTheorems.ClaimUsesReviewedCapital` | services/gateway/intellidhan_gateway/autotrade.py:1151-1234 | every claim ever acquired has a passed capital review for exactly the capital the plan requires |
| `QueueTheorems.ClaimedStaysReviewed` | services/gateway/intellidhan_gateway/autotrade.py:963-1038 | while CLAIMED, the reviewed amount is the planned one, and a failed re-review leaves the claim revoked |
| `QueueTheorems.LeasesAreDisjoint` | services/gateway/intellidhan_gateway/autotrade.py:1050-1108 | two successive claims of one intent, anywhere in a run, hold disjoint leases |
| `QueueTheorems.NoClaimAfterRevocation` | services/gateway/intellidhan_gateway/autotrade.py:1624-1648 | after a revocation no later call acquires a claim on the intent |
| `QueueTheorems.SelectionFixedByClaim` | services/gateway/intellidhan_gateway/autotrade.py:753-754 | once claimed, selection, plan and effective risk never change |
| `QueueTheorems.SelectionFitsBudgets` | services/gateway/intellidhan_gateway/autotrade.py:781-790 | a recorded selection fits the order cap, the day's remaining cap and the share of buying power (up to the half cent the ceiling's rounding may add), and one contract more would not fit the ceiling |
| `QueueBudgets.DailyRiskNeverExceedsCap` | services/gateway/intellidhan_gateway/autotrade.py:919-935 | in every run whose policies keep the cap, for each ET day the effective risk of LIVE intents created and claimed that day, claimed, executed or closed and without a late fill, is at most the daily cap |
| `QueueBudgets.CapHoldsUnlessLateFillOverflows` | services/gateway/intellidhan_gateway/autotrade.py:1261-1274 | late fills counted, one call keeps the day within the cap if and only if it is not an EXECUTED broker receipt that the receipt guards admit (known id, LIVE, observed no later than five seconds ahead, valid fill) for a CANCELLED order claimed on its day, whose risk exceeds what the day has left |
| `QueueBudgets.CapHeldExactly` | services/gateway/intellidhan_gateway/autotrade.py:1261-1274 | and over a whole run whose policies keep the cap, the committed risk of a day, late fills counted, stays within it after every call if and only if no call is such a receipt |
| `QueueBudgets.LateFillAdds` | services/gateway/intellidhan_gateway/autotrade.py:1261-1274 | a late fill adds exactly the intent's effective risk back to its day |
| `QueueLateFill.LateFillExceedsDailyCap` | services/gateway/intellidhan_gateway/autotrade.py:1261-1274 | a concrete run of eight calls whose late fill takes the committed risk of the day above the cap |
| `QueueBudgets.ReservedRiskNeverExceedsCap` | services/gateway/intellidhan_gateway/autotrade.py:623-636 | in every such run the dollar risk reserved per creation day by LIVE intents, late fills aside, is at most the daily cap |
| `QueueBudgets.OpenIntentsNeverExceedCap` | services/gateway/intellidhan_gateway/autotrade.py:616-622 | in every time-ordered run the number of LIVE, non-terminal, unexpired intents, late fills aside, is at most max_open_intents |
| `QueueRuns.StepCases` | services/gateway/intellidhan_gateway/autotrade.py:446-1457 | every call either only calms the queue (legal arcs, no new exposure), creates one intent, acquires one claim or fills a cancelled order late |
| `QueueSteps.AcquireAllowed` | services/gateway/intellidhan_gateway/autotrade.py:1110-1234 | when a claim is acquired the intent was unrevoked, any earlier lease was over, the new lease is within its bounds, the contract is selected and the last review passed for exactly the required capital |
| `QueueSteps.ApproveEffect` | services/gateway/intellidhan_gateway/autotrade.py:937-949 | in a reachable state approval always raises: nothing is ever waiting for it |
| `QueueSteps.LateFillEffect` | services/gateway/intellidhan_gateway/autotrade.py:1261-1347 | a late fill keeps every intent's invariant and only moves intents onward |
| `OptionScreens.SelectedExactly` | services/gateway/intellidhan_gateway/autotrade.py:793-917 | a contract is selected if and only if some candidate is of the symbol, an allowed expiry and the wanted type, tradable, not about to sell out, freshly quoted, bid for, within the spread cap, at or above the volume and open-interest floors, of a delta of the right sign and at most 1, and no dearer than the ceiling; then the selection's fields are those of one such candidate, and no other that fits is better under the five comparisons |
| `OptionScreens.CountersCount` | services/gateway/intellidhan_gateway/autotrade.py:793-852 | each rejection counter is the number of candidates whose first failing test it is |
| `OptionScreens.RejectionExactly` | services/gateway/intellidhan_gateway/autotrade.py:800-852 | a candidate is rejected for the first of the thirteen tests it fails, and kept exactly if it passes all of them |
| `QueueSelections.SelectionRecorded` | services/gateway/intellidhan_gateway/autotrade.py:729-917 | a selection is refused unless order and request may be served; if they may, it is recorded if and only if some candidate fits the thresholds of the moment, for the best that does, at its premium, and an earlier review no longer counts |
| `OptionChoice.SelectIgnoresOrder` | services/gateway/intellidhan_gateway/autotrade.py:857-863 | with distinct option ids the chosen contract and the whole selection do not depend on the order of the candidates |
| `OptionChoice.SelectionIsLeast` | services/gateway/intellidhan_gateway/autotrade.py:857-863 | the selected contract is eligible and precedes every other eligible one; OptionScreens.SelectedExactly says what that means of the candidate |
| `OptionChoice.EveryCandidateAccounted` | services/gateway/intellidhan_gateway/autotrade.py:793-852 | eligible plus rejected, over all reasons, is the number submitted |
| `OptionChoice.SelectionFitsCeiling` | services/gateway/intellidhan_gateway/autotrade.py:864-865 | the quantity is the largest whole number, at least one, whose debit fits the ceiling |
| `OptionChoice.CapitalCeiling` | services/gateway/intellidhan_gateway/autotrade.py:781-788 | the rounded ceiling never exceeds the order cap or what is left of the day, and exceeds the buying-power share by at most half a cent |
| `OptionScreens.ScreenCandidates` | services/gateway/intellidhan_gateway/autotrade.py:793-852 | the screening loop collects exactly the candidates that pass all thirteen tests, in order, and counts each other one under the first test it fails |
| `AutotradeManager.AutotradeManager.SetPolicy` | services/gateway/intellidhan_gateway/autotrade.py:453-493 | the new state is the specified one: refused changes (a field out of its bounds, LIVE without minutes or allowlists) raise and change nothing, a switch to SIMULATION disarms every LIVE intent |
| `AutotradeManager.AutotradeManager.DisableLiveAuthority` | services/gateway/intellidhan_gateway/autotrade.py:495-506 | every LIVE intent is blocked, revoked or untouched as its status demands; nothing else changes |
| `AutotradeManager.AutotradeManager.ReceiveAlert` | services/gateway/intellidhan_gateway/autotrade.py:508-568 | a known alert may only block or revoke; a new one creates exactly one intent with the specified status |
| `AutotradeManager.AutotradeManager.AttestOptionSelection` | services/gateway/intellidhan_gateway/autotrade.py:729-917 | raises or records exactly the specified selection, whose cases are those of QueueSelections.SelectionRecorded |
| `AutotradeManager.AutotradeManager.RemainingRisk` | services/gateway/intellidhan_gateway/autotrade.py:919-935 | the loop computes what the other LIVE intents of the day leave of the cap, never below zero |
| `AutotradeManager.AutotradeManager.ApproveIntent` | services/gateway/intellidhan_gateway/autotrade.py:937-949 | equals the specified approval |
| `AutotradeManager.AutotradeManager.RejectIntent` | services/gateway/intellidhan_gateway/autotrade.py:951-961 | equals the specified rejection |
| `AutotradeManager.AutotradeManager.AttestBuyingPower` | services/gateway/intellidhan_gateway/autotrade.py:963-1038 | equals the specified capital preflight, re-review of a claim included |
| `AutotradeManager.AutotradeManager.AcquireClaim` | services/gateway/intellidhan_gateway/autotrade.py:1040-1108 | equals the specified claim, blocking and failed preflights included; QueueClaims.ClaimedExactly and QueueOperations.RefusedClaim say what that is |
| `AutotradeManager.AutotradeManager.GrantOrRefuse` | services/gateway/intellidhan_gateway/autotrade.py:1078-1108 | the last part of a claim: refused for its quote or a capital reason, or granted with its lease, as QueueClaims.ClaimedExactly has it |
| `AutotradeManager.AutotradeManager.Quarantine` | services/gateway/intellidhan_gateway/autotrade.py:1236-1250 | blocks or revokes exactly the symbol's intents |
| `AutotradeManager.AutotradeManager.RecordBrokerReceipt` | services/gateway/intellidhan_gateway/autotrade.py:1252-1347 | equals the specified receipt handling, late fills and closing P&L included |
| `AutotradeManager.AutotradeManager.RecordSimulatedFill` | services/gateway/intellidhan_gateway/autotrade.py:1349-1458 | equals the specified simulated fill and close |
| `AutotradeManager.AutotradeManager.Sweep` | services/gateway/intellidhan_gateway/autotrade.py:1555-1586 | the expiry sweep touches exactly what is stale, and never a filled order |
| `AutotradeManager.ExecutionIntent.AppendEvent` | services/gateway/intellidhan_gateway/autotrade.py:1655-1683 | appends one numbered event and bumps the revision, nothing else |
| `AutotradeManager.ExecutionIntent.Transition` | services/gateway/intellidhan_gateway/autotrade.py:1685-1710 | moves the status with its event |
| `AutotradeManager.ExecutionIntent.MutateBlocked` | services/gateway/intellidhan_gateway/autotrade.py:1611-1622 | blocks with its event |
| `AutotradeManager.ExecutionIntent.MutateRevokedClaim` | services/gateway/intellidhan_gateway/autotrade.py:1624-1648 | revokes a claim once; a second revocation changes nothing |
| `PaperTrades.ResultByOutcome` | services/learning/intellidhan_learning/paper.py:150-233 | for every plan with three ordered targets and every bar sequence: STOPPED is exactly -1 R, STOPPED_AFTER_BE the banked tranches and never negative, TP_FULL the weighted sum, a forced exit (0DTE only) between -1 and that sum, fill and exit in order, best excursion at least the last banked target; all on the rounded values |
| `PaperBars.OpenTradeOnBar` | services/learning/intellidhan_learning/paper.py:189-233 | on a bar after its fill, an open trade is stopped at the bar's close time if and only if the low (for shorts the high) reaches the stop in force, the initial one or after a tranche the entry, whatever target the bar also reaches; otherwise exactly the targets reached in a row are banked, the last of them ends it in full, and a 0DTE trade is flattened exactly from 15:55; the result is that of the banked tranches and the rest at the stop or the close |
| `PaperBars.PendingPlanOnBar` | services/learning/intellidhan_learning/paper.py:150-187 | a pending plan expires exactly after its validity, else fills exactly when low <= entry <= high, and is stopped on the same bar, at -1 R, exactly when the stop is reached too |
| `PaperBars.OtherBars` | services/learning/intellidhan_learning/paper.py:150-162 | bars of another symbol, too early or after the end change nothing |
| `PaperBars.LifeIsWitnessed` | services/learning/intellidhan_learning/paper.py:150-233 | over a plan's whole life, while it is pending no bar since its creation held the entry, while it is open no bar since the fill reached the initial stop, and a stop or a full result has the bar that made it |
| `PaperTrades.StopResult` | services/learning/intellidhan_learning/paper.py:195-207 | a stop costs exactly 1 R before the first target and nothing after it |
| `PaperTrades.CloseBetween` | services/learning/intellidhan_learning/paper.py:195-233 | a bar that neither stops nor reaches the next target closes between them |
| `PaperExecutor.PaperTrade.Advance` | services/learning/intellidhan_learning/paper.py:150-187 | the object moves exactly as the trade's value does, which is told bar by bar in PaperBars, and reports settlement iff it settled |
| `PaperExecutor.PaperTrade.AdvanceFilled` | services/learning/intellidhan_learning/paper.py:189-233 | the in-place tranche loop equals the advance of a filled trade, which PaperBars.OpenTradeOnBar tells from the bar's prices |
| `PaperExecutor.PaperExecutor.Track` | services/learning/intellidhan_learning/paper.py:123-132 | tracks a plan iff neither its alert id nor its plan key is known; index and dictionaries stay exact |
| `PaperExecutor.PaperExecutor.Restore` | services/learning/intellidhan_learning/paper.py:104-121 | rebuilds trades as the deduplicated rows and an exact index |
| `PaperExecutor.PaperExecutor.ActiveTrades` | services/learning/intellidhan_learning/paper.py:134-136 | every unresolved trade, each exactly once, from the index alone |
| `PaperExecutor.PaperExecutor.OnBar` | services/learning/intellidhan_learning/paper.py:138-148 | advancing the index advances every trade ever tracked by one bar; the settled ones are returned in order and the index stays exact |
| `PaperReplay.DedupeNeverRegresses` | services/learning/intellidhan_learning/paper.py:104-117 | deduplication keeps one row per plan, of the rows given, and never one less advanced than another |
| `PaperReplay.DedupeExactly` | services/learning/intellidhan_learning/paper.py:104-117 | what deduplication keeps is exactly the last of the furthest rows of each plan: settled before open before pending |
| `PaperReplay.ReplayIsUninterruptedRun` | services/learning/intellidhan_learning/paper.py:150-162 | a trade restored from its ledger row and replayed over a window with the same relevant bars, or over any window if it was settled, ends as in the uninterrupted run |
| `PaperReplay.OrderedWindowReplays` | services/learning/intellidhan_learning/paper.py:150-162 | any ordered window that contains every later bar of the plan's symbol will do |
| `Controls.OpenCounts` | services/engine/intellidhan_engine/veto.py:62-67 | opening adds one in exactly the plan's module, cluster and pair |
| `Controls.CloseCounts` | services/engine/intellidhan_engine/veto.py:69-74 | where a plan is counted, closing takes exactly one away: the floor at zero is not reached |
| `Controls.EngineControls.Open` | services/engine/intellidhan_engine/veto.py:62-67 | the three dictionaries change as specified |
| `Controls.EngineControls.Close` | services/engine/intellidhan_engine/veto.py:69-74 | the three dictionaries change as specified |
| `Controls.GatesLeaveRoom` | services/engine/intellidhan_engine/veto.py:139-156 | passing the gates means room in every slot the plan would be counted in |
| `Controls.EmittedIsEligible` | services/engine/intellidhan_engine/runner.py:81-142 | outside global shadow mode an emitted setup is live eligible, meets its confidence threshold and passed every live gate |
| `Gates.GatesExactly` | services/engine/intellidhan_engine/veto.py:84-163 | a signal passes the gates if and only if the market gates clear it, its module and its cluster have room, no plan of its pair is open and its confidence meets the threshold, which is higher against the trend |
| `Gates.RoutedExactly` | services/engine/intellidhan_engine/runner.py:67-142 | a signal goes out exactly if it is fit for delivery and passes the live gates, is watched exactly if it is kept back and passes the research gates, and a market veto stops it either way |
| `Gates.CountedExactly` | services/engine/intellidhan_engine/veto.py:62-74 | opening and closing move the module, cluster and pair counters of the plan by one, never below zero, and no others; leveraged and inverse funds count with their index |
| `Controls.EverySignalIsRouted` | services/engine/intellidhan_engine/runner.py:67-142 | every signal is emitted, monitored or refused under a named gate, none twice or lost |
| `Controls.EngineRunner.OnBar` | services/engine/intellidhan_engine/runner.py:39-60 | all signals of a bar are gated against the counters as they stood before it; setups, monitored and suppressed lists grow by exactly their routes |
| `Controls.EngineRunner.PopShadowSetups` | services/engine/intellidhan_engine/runner.py:62-65 | drains the monitored setups |
| `DeskTheorems.CountersMirrorTheBook` | services/gateway/intellidhan_gateway/live.py:527-533 | on every run, restarts included, on both planes every counter equals the number of open or pending plans it stands for, and covers everything any bar could settle |
| `DeskTheorems.SlotsStayBounded` | services/engine/intellidhan_engine/runner.py:49-60 | with at most w signals per bar in a slot, the slot never holds more than its cap - 1 + w plans |
| `DeskTheorems.AtMostOnePerPair` | services/engine/intellidhan_engine/veto.py:144-149 | at most one open plan per symbol and strategy and plane, on every run |
| `DeskTheorems.CapCanBeExceededWithinABar` | services/engine/intellidhan_engine/runner.py:49-60 | a concrete bar on which three 0DTE plans open under a cap of two |
| `DeskTheorems.BarKeepsCapExactly` | services/engine/intellidhan_engine/runner.py:49-60 | a bar leaves a slot within its cap if and only if the plans it adds there (those that no trade and no earlier plan of the bar shares an alert id or key with) are no more than the room its gates saw after settlement; plans that are all new and distinct are all added |
| `DeskTheorems.CapHeldExactly` | services/engine/intellidhan_engine/runner.py:49-60 | on a run, restarts included, a slot stays within its cap throughout if and only if every event adds no more plans to it than its gates saw room for |
| `DeskTheorems.FullSlotAdmitsNothing` | services/engine/intellidhan_engine/veto.py:139-156 | a slot at its cap admits no plan on the next bar |
| `DeskReplay.CrashReplay` | services/gateway/intellidhan_gateway/live.py:160-187 | after a restart from the ledger and an ordered replay, every trade that was settled before the crash, over any window, and every other one whose relevant bars the window holds is in the state of the uninterrupted run, and no plan is lost |
| `DeskReplay.CrashReplayIsFaithful` | services/gateway/intellidhan_gateway/live.py:160-187 | the replayed desk satisfies the same condition again, so the result holds across any number of crashes |
| `DeskReplay.UncrashedIsFaithful` | services/gateway/intellidhan_gateway/live.py:519-551 | without a crash every trade is where its own plan and the consumed bars put it |
| `DeskBars.PlansExactly` | services/gateway/intellidhan_gateway/live.py:554-581 | the plans of a bar are exactly those composed of its signals that go out or are watched on the counters as the bar's settlements left them |
| `DeskBars.BarOnDesk` | services/gateway/intellidhan_gateway/live.py:519-581 | a bar already seen changes nothing; any other feeds every trade in place and, where entries are allowed, appends one fresh trade for each plan that shares neither alert id nor key with a trade or an earlier plan of the bar |
| `DeskBars.RestartOfDesk` | services/gateway/intellidhan_gateway/live.py:160-187 | a restart has, for every trade and for nothing else, the settled trade as it was or the unresolved one afresh, and counts exactly the unresolved plans |
| `DeskRuns.StepKeepsInv` | services/gateway/intellidhan_gateway/live.py:520-581 | a bar keeps ledger, counters and identities consistent |
| `DeskRuns.RestartKeepsInv` | services/gateway/intellidhan_gateway/live.py:160-187 | a restart rebuilds the trades as the ledger has them and keeps everything consistent |
| `DeskRuns.SettleRecorded` | services/gateway/intellidhan_gateway/live.py:527-541 | after a bar the ledger again holds exactly one row per trade: its first or its settled state |
| `DeskRuns.PlanFrom` | services/gateway/intellidhan_gateway/live.py:554-581 | every recorded plan stems from a signal of its bar that passed the gates of its own plane |
| `LiveLoop.LiveLoop.IngestBar` | services/gateway/intellidhan_gateway/live.py:520-551 | one bar of the loop is one step of the desk: trades, both counters, ledger and seen bars |
| `LiveLoop.LiveLoop.IngestRecent` | services/gateway/intellidhan_gateway/live.py:519-552 | the loop over a poll's bars is the run over those steps |
| `LiveLoop.LiveLoop.RecordSetup` | services/gateway/intellidhan_gateway/live.py:554-581 | tracks a composed plan once, with its ledger row and its place in the counters |
| `LiveLoop.LiveLoop.SettleTrades` | services/gateway/intellidhan_gateway/live.py:527-541 | settlement feeds every trade, closes what settled on its plane and writes it down |
| `LiveLoop.LiveLoop.Boot` | services/gateway/intellidhan_gateway/live.py:160-187 | the new process holds the restarted desk's trades, ledger and counts |
| `Ema9Simulator.SimulateSymbol` | services/learning/intellidhan_learning/ema9_crossover.py:197-362 | for bars in any order, at positive prices: the loop over the bars sorted by their close produces exactly the specified trades, which Ema9Told tells from the bars |
| `Ema9Told.EveryTradeHasItsStory` | services/learning/intellidhan_learning/ema9_crossover.py:147-356 | every reported trade is what the bars make of it: opened at the open after a confirmed, aligned cross, with its risk from that bar's ATR; held exactly until the first bar that ends the session, runs over the tightest level so far or confirms a cross against it; left there for that reason at that price; grossR, costR and netR each within 0.0000005 of signed move over risk, (entry + price) * costBps / 10000 / risk and their difference; exit, risk, stops and excursions within that of the bars held |
| `Ema9Told.NetIsGrossLessCost` | services/learning/intellidhan_learning/ema9_crossover.py:167-194 | on bars at no negative price costR >= 0 and netR <= grossR for every reported trade |
| `Ema9Orders.OrderPlaced` | services/learning/intellidhan_learning/ema9_crossover.py:284-356 | after a bar an order is waiting exactly if nothing is held, no pause runs, the bar does not end the session and enough closes since a fresh cross are confirmed and aligned, long before short; a stop begins the configured pause |
| `Ema9Orders.ProcessedAre` | services/learning/intellidhan_learning/ema9_crossover.py:128-219 | the bars processed are those of regular hours, in order |
| `Market.ByTimeSorts` | services/learning/intellidhan_learning/ema9_crossover.py:198-198 | the sort is a permutation of any bars into the order of their closes, and leaves those of one instant in the order given |
| `Ema9Simulator.LossIsBounded` | services/learning/intellidhan_learning/ema9_crossover.py:147-194 | every trade is a close of a position entered as specified, on a processed bar, at its stop or that bar's open or close, and before any rounding it loses more than 1 R only with gap_fallback or SESSION_FLATTEN; the same of the rounded gross R; the final stop is never wider than the first; an ungapped stop fills at the stop; crosses close only their own side; no shorts unless allowed |
| `Ema9Simulator.StopNeverWidens` | services/learning/intellidhan_learning/ema9_crossover.py:322-342 | between any two moments of a run at which the same position is held, its stop has only tightened, and its entry, first stop and risk are unchanged |
| `Ema9Simulator.GainsAreLocked` | services/learning/intellidhan_learning/ema9_crossover.py:325-342 | once the best excursion reaches the activation level the stop is at the entry or better |
| `Ema9Simulator.EntryFollowsSignal` | services/learning/intellidhan_learning/ema9_crossover.py:223-239 | every trade enters at the open of the processed bar right after its signal bar, and the signal bar confirmed a fresh cross: at least confirmation_bars closes beyond the EMA, in a row, since a close that was not |
| `Ema9Simulator.TradesDoNotOverlap` | services/learning/intellidhan_learning/ema9_crossover.py:226-272 | each trade is over when the next one is entered |
| `Ema9Simulator.PendingStandsAlone` | services/learning/intellidhan_learning/ema9_crossover.py:344-356 | a pending order never coexists with a position or a cooldown and stems from the last processed bar |
| `Ema9Simulator.PendingFillsOrDies` | services/learning/intellidhan_learning/ema9_crossover.py:226-239 | a pending order fills at the next processed bar's open, or is dropped there on a flatten bar |
| `Ema9Simulator.NoLookahead` | services/learning/intellidhan_learning/ema9_crossover.py:212-362 | for bars in any order: a trade reported for a prefix of the bars is reported, at the same place, for the whole, unless it was closed for want of data |
| `Ema9Simulator.PrefixStable` | services/learning/intellidhan_learning/ema9_crossover.py:212-356 | the closed trades of a prefix are a prefix of the closed trades |
| `Ema9Fills.FillIsTradable` | services/learning/intellidhan_learning/ema9_crossover.py:147-164 | a stop fill lies within the bar's range if and only if the bar gapped or reached back to the stop |
| `Ema9Fills.FillCanBeOutsideTheBar` | services/learning/intellidhan_learning/ema9_crossover.py:147-164 | a whole session, from flat bars through cross, entry and dip, whose one trade is filled ungapped above its bar's high |
| `Ema9Steps.RatchetTightens` | services/learning/intellidhan_learning/ema9_crossover.py:328-342 | the trail never widens the stop and changes nothing but it and its count |
| `Ema9Steps.CountsStayFresh` | services/learning/intellidhan_learning/ema9_crossover.py:284-310 | the counters only ever stand for consecutive closes beyond the EMA since a fresh cross |
| `Ema9Steps.StepKeeps` | services/learning/intellidhan_learning/ema9_crossover.py:212-356 | one bar keeps the whole invariant behind these results |
| `Smoothing.SMA.Update` | services/analytics/intellidhan_analytics/indicators.py:31-40 | the running window and sum give the mean of the last n samples |
| `Smoothing.EMA.Update` | services/analytics/intellidhan_analytics/indicators.py:50-61 | the running value is the EMA, seeded with the mean of the first n samples, of all samples seen |
| `Smoothing.WilderSmoother.Update` | services/analytics/intellidhan_analytics/indicators.py:73-85 | the running value is Wilder's average of all samples seen |
| `Smoothing.WilderBounds` | services/analytics/intellidhan_analytics/indicators.py:73-85 | the average never leaves the range of its samples |
| `Smoothing.EmaBounds` | services/analytics/intellidhan_analytics/indicators.py:50-61 | nor does the exponential one |
| `Readings.WilderWeight` | services/analytics/intellidhan_analytics/indicators.py:73-85 | two streams that differ in one sample have averages that differ by one nth of it, times (n - 1) / n for every later sample |
| `Readings.EmaWeight` | services/analytics/intellidhan_analytics/indicators.py:50-61 | for the exponential average by 2 / (n + 1) of it, or one nth in the seed, times (n - 1) / (n + 1) for every later sample |
| `Readings.RangesTold` | services/analytics/intellidhan_analytics/indicators.py:140-147 | every true range after the first is the widest of the three spans of the bar and the close before it |
| `Readings.RsiIsShare` | services/analytics/intellidhan_analytics/indicators.py:96-106 | RSI is the percentage that averaged gains have of averaged gains and losses, and 100 without losses |
| `Readings.MovementTold` | services/analytics/intellidhan_analytics/indicators.py:172-176 | every bar's directional movement is the outward move of the side that moved further, and zero on the other |
| `Readings.DirectionTold` | services/analytics/intellidhan_analytics/indicators.py:176-187 | a bar with a smoothed range above zero sets the DIs to the smoothed movements in percent of it and adds their relative gap as one reading of the index; any other bar adds none |
| `Smoothing.WilderDominated` | services/analytics/intellidhan_analytics/indicators.py:73-85 | smoothing keeps sample-by-sample domination of two streams by a third |
| `Indicators.ATR.Update` | services/analytics/intellidhan_analytics/indicators.py:140-147 | the value is Wilder's average of the true ranges of all bars seen |
| `Indicators.RSI.Update` | services/analytics/intellidhan_analytics/indicators.py:96-106 | the value is the strength of the averaged gains and losses of all closes seen |
| `Indicators.ADX.Update` | services/analytics/intellidhan_analytics/indicators.py:170-187 | DI+, DI- and ADX are the specified functions of all bars seen |
| `Indicators.MovementFitsRange` | services/analytics/intellidhan_analytics/indicators.py:172-176 | directional movement never exceeds the true range |
| `Indicators.AdxWithinBounds` | services/analytics/intellidhan_analytics/indicators.py:170-187 | on every sane stream smoothed +DM plus -DM never exceeds smoothed TR, the DIs add up to at most 100 and ADX lies in 0..100 |
| `Indicators.RsiWithinBounds` | services/analytics/intellidhan_analytics/indicators.py:96-106 | RSI lies in 0..100 |
| `Indicators.AtrNonNegative` | services/analytics/intellidhan_analytics/indicators.py:140-147 | ATR is never negative |
| `Trend.TrendEngine.Update` | services/analytics/intellidhan_analytics/trend.py:74-127 | votes, rounded score and state are the specified functions of all bars seen |
| `TrendVotes.VotesOfStream` | services/analytics/intellidhan_analytics/trend.py:80-115 | on every sane stream, which votes there are by how many bars there were, and each vote by its readings: the stack of averages and whether EMA9 moves against it, the close against EMA9, the structure, the strength thresholds, and two and a half points per point of ADX from 20 to 40 on the side of the larger DI |
| `TrendVotes.ScoreTold` | services/analytics/intellidhan_analytics/trend.py:117-122 | times the hundredths of the weights that voted, the score is the sum of 30, 15, 25, 15 and 15 times the votes |
| `TrendVotes.StateTold` | services/analytics/intellidhan_analytics/trend.py:27-36 | the state is read off the unrounded score at 60, 20, -20 and -60 |
| `TrendVotes.AlignmentTold` | services/analytics/intellidhan_analytics/trend.py:130-141 | times the weights of the timeframes there are, an alignment is the sum of the scores on its side, each times the module's weight of it |
| `Trend.TrendScoreInRange` | services/analytics/intellidhan_analytics/trend.py:117-126 | on every sane stream the renormalized score lies in -100..100, before and after rounding, during warm-up too |
| `Trend.ScoreInRange` | services/analytics/intellidhan_analytics/trend.py:117-122 | whatever votes are missing, the score is a mean of those there are |
| `Trend.AlignmentsShareHundred` | services/analytics/intellidhan_analytics/trend.py:130-141 | long plus short alignment is at most 100, before and after rounding |
| `Trend.AlignmentMirrors` | services/analytics/intellidhan_analytics/trend.py:130-141 | a mirrored matrix aligns long exactly as the original aligns short |
| `RollupWindows.RollIsByWindow` | services/analytics/intellidhan_analytics/rollup.py:20-75 | on input in order each derived bar of n seconds sums exactly the input bars of one day with i*n < elapsed <= (i+1)*n for one i (for D1 exactly those of the day), and each such window that has bars has its derived bar |
| `RollupWindows.RollsByWindows` | services/analytics/intellidhan_analytics/rollup.py:20-75 | on input in any order each derived bar sums a run of consecutive input bars of one such window |
| `Rollup.RollSummarizesBuckets` | services/analytics/intellidhan_analytics/rollup.py:40-75 | the derived bars are the aggregates (first open, highest high, lowest low, last close, summed volume) of consecutive groups that make up the whole input, one bucket each |
| `Rollup.EachBucketOnce` | services/analytics/intellidhan_analytics/rollup.py:40-62 | on increasing input every occurring bucket is emitted exactly once |
| `Rollup.RollAscends` | services/analytics/intellidhan_analytics/rollup.py:20-30 | and the emitted buckets are strictly increasing |
| `Rollup.VolumeIsConserved` | services/analytics/intellidhan_analytics/rollup.py:40-75 | emitted plus in-progress volume is the input volume at every moment |
| `Rollup.RollStaysSane` | services/analytics/intellidhan_analytics/rollup.py:69-75 | every derived bar passes the check that bars are built with |
| `Rollup.RollNests` | services/analytics/intellidhan_analytics/rollup.py:17-62 | rolling up a finer derived series gives the coarser one: 15m to 30m, 1H, 4H and D and so on up |
| `Roller.TimeframeRoller.Update` | services/analytics/intellidhan_analytics/rollup.py:40-62 | raises for another symbol or timeframe than 5m; otherwise emits, per timeframe, exactly what the series gained: nothing for a bar within the window of the bar before it, and else the sum of the run of bars of that window; each timeframe at most once and finer ones first |
| `Roller.TimeframeRoller.Flush` | services/analytics/intellidhan_analytics/rollup.py:64-75 | emits every bucket in progress and empties the roller |
| `Roller.RollSeries` | services/analytics/intellidhan_analytics/rollup.py:78-91 | raises iff some bar is not a 5m bar; otherwise one roller per symbol, fed in turn and flushed, gives every symbol's whole derived series of each timeframe, each bar of it the sum of one window where the symbol's bars are in order |
| `Calibration.Fit` | services/engine/intellidhan_engine/calibration.py:64-91 | the bucket and pooling loops terminate with the specified pools: rates non-decreasing, each pool's counts exactly those of its range, ranges ordered, disjoint and without samples between them |
| `Calibration.TallyBuckets` | services/engine/intellidhan_engine/calibration.py:68-73 | the first loop counts samples and wins of exactly the occupied buckets |
| `Calibration.PavMonotone` | services/engine/intellidhan_engine/calibration.py:75-84 | smoothed win rates are non-decreasing |
| `Calibration.PavConserves` | services/engine/intellidhan_engine/calibration.py:75-84 | pooling conserves samples and wins |
| `Calibration.PavKeepsMonotone` | services/engine/intellidhan_engine/calibration.py:75-84 | rates already in order are left alone |
| `Calibration.EachSampleOnePool` | services/engine/intellidhan_engine/calibration.py:69-84 | every sample is in exactly one pool |
| `CalibrationClaims.PooledOnlyOutOfOrder` | services/engine/intellidhan_engine/calibration.py:64-84 | every fitted pool is one bucket of five points or was pooled of two ranges side by side whose smoothed rates, in numbers of samples and wins, were out of order; no two neighbours still are |
| `CalibrationClaims.ConfidenceTold` | services/engine/intellidhan_engine/calibration.py:103-113 | validated confidence is the share of wins, with one more win and one more loss, in the first pool that holds the composite and has fifteen samples, to four decimals and at most 0.95; everything else gets nine tenths of the composite's hundredth, at most 0.74 |
| `Claims.FittedConfidenceMonotone` | services/engine/intellidhan_engine/calibration.py:103-113 | validated confidence is non-decreasing, and at most 0.95, over composites that land in sufficient pools, 100 included |
| `Claims.ConfidenceMonotone` | services/engine/intellidhan_engine/calibration.py:103-113 | the same for any ordered, monotone pools |
| `Claims.MonotoneExactly` | services/engine/intellidhan_engine/calibration.py:103-113 | for any ordered, monotone pools of samples on the scale 0..100: confidence is non-decreasing over the whole scale if and only if the map is not validated or, at either end of every run of touching sufficient pools, the claim there and the fallback just beyond it are in order |
| `Claims.FittedMonotoneExactly` | services/engine/intellidhan_engine/calibration.py:64-113 | the same of the map that fitting makes of any such samples |
| `Claims.NoLessExactly` | services/engine/intellidhan_engine/calibration.py:103-113 | of two composites the better one gets less if and only if validated evidence speaks about only one of them and its claim and the other's fallback are out of order |
| `Claims.ThinAboveBreaksMonotonicity` | services/engine/intellidhan_engine/calibration.py:64-113 | samples whose fitted, validated map claims 0.7647 at 50 and falls back to 0.54 at 60 |
| `Claims.ThinBelowBreaksMonotonicity` | services/engine/intellidhan_engine/calibration.py:64-113 | samples whose fitted, validated map falls back to 0.468 at 52 and claims 0.402 at 62 |
| `Claims.LookUpConfidence` | services/engine/intellidhan_engine/calibration.py:103-113 | the lookup loop returns the first sufficient pool's claim or the capped fallback |
| `Claims.UnvalidatedStaysBelowGate` | services/engine/intellidhan_engine/calibration.py:111-113 | where no validated pool speaks, confidence is at most 0.74, below the gate |
| `Claims.UnvalidatedNeverEmitted` | services/engine/intellidhan_engine/runner.py:125-136 | so outside shadow mode an unvalidated strategy is never emitted |
| `Profile.ProfileBuilder.Update` | services/analytics/intellidhan_analytics/profile.py:93-112 | both dictionaries hold exactly what the session's bars left at each touched level; a new session starts afresh |
| `Profile.ProfileVolume` | services/analytics/intellidhan_analytics/profile.py:109-112 | the profile's volume is the session's volume |
| `Profile.ProfileBuilder.ReadValueArea` | services/analytics/intellidhan_analytics/profile.py:146-169 | the sorted levels, the first unbeaten peak, the area grown around it and the prominence test |
| `Profile.ValueAreaOfSession` | services/analytics/intellidhan_analytics/profile.py:146-169 | the value area contains the point of control and at least 70% of the session's volume |
| `ProfileLevels.ProfileTold` | services/analytics/intellidhan_analytics/profile.py:87-112 | one bar more adds, at each level from that nearest to its low to that nearest to its high, the same share of its volume, and the half hour of its close to the periods seen there; nothing elsewhere |
| `ProfileLevels.TickTold` | services/analytics/intellidhan_analytics/profile.py:93-96 | the tick is a whole number of cents, the one nearest to 5 basis points of the close, and at least one |
| `ProfileLevels.PeakTold` | services/analytics/intellidhan_analytics/profile.py:150-150 | the peak is the first of the heaviest levels nearest to the middle one |
| `ProfileLevels.AreaTold` | services/analytics/intellidhan_analytics/profile.py:146-166 | the value area is reached from the peak step by step, each taken with less than 70% in hand: up by two levels, unless nothing is above or the two below hold more, and then down |
| `ValueArea.GrowArea` | services/analytics/intellidhan_analytics/profile.py:155-166 | the loop ends at the specified area with acc equal to the volume between its ends |
| `ValueArea.GrowStopsInTime` | services/analytics/intellidhan_analytics/profile.py:155-166 | before its last step the area held less than the target |
| `ValueArea.FindPeak` | services/analytics/intellidhan_analytics/profile.py:150-150 | the peak is beaten by no level and beats every earlier one |
| `ValueArea.PeakIsUnique` | services/analytics/intellidhan_analytics/profile.py:150-150 | there is only one such level |

## Left out

- HTTP and WebSocket routes, authentication, Telegram, Redis, SQL, YAML and JSON files, the language-model and feed
  adapters: input and output. The stores are sequences and maps of the state.
- Loading and migration of older state files, and field validation of the models other than the policy.
- Reason texts, receipt and plan display fields, `return_pct`, random identifiers, rejection-count texts.
- Strategies, factor scoring and the composer's sizing: their answers are inputs of the desk.
- The module cooldown of the gates is folded into the market gates: nothing in the modelled files ever sets it.
- The live loop's data-quality checks and polling. The poll's bars arrive already sorted; the ledger is always
  available.
- Paper trades stored without a creation time or plan key, and distinct plans whose printed keys would coincide.
- `opening_range_reversal.py` and `research_swing.py`, which repeat the pattern of the two modelled simulators.
- MACD, session VWAP, relative volume and market structure.
- The `source` text of a derived bar.
- The profile's shape, open-type, one-timeframing and day-type classifiers; levels are tick indices, so that prices
  are not rounded to four decimals, and session identifiers are numbers.
- Reading and writing calibration files, expected net R and the evidence object; pool keys are pairs of numbers.
- AutotradeManager.AutotradeManager.SetPolicy: does not model the upper-casing of the allowlists or the older mode
  names, which are accepted as synonyms when a policy is read; allowlists are sets as they are after that.
- LiveLoop.LiveLoop.RecordSetup: does not model the alert list and its file, the delivery of the alert and its hand-over
  to the intent queue; `AutotradeManager.AutotradeManager.ReceiveAlert` models what the queue does with it.
- Trend.TrendEngine.Update: does not model how the market structure's state changes with a bar; it is given.
- Roller.RollSeries: does not model the last sort of each timeframe's bars by close and symbol; the contract speaks of
  each symbol's bars, which are emitted in order.
- Ema9Simulator.SimulateSymbol: bars that open at zero or below are left out, because such a price can make the initial
  risk zero, which the program divides by; the results about whole runs speak of sane bars at least one bar length
  apart once sorted.
- Time zones, daylight saving and the holiday calendar: days and times of day are given.
