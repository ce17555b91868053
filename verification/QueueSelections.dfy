/** When a contract selection is recorded, and what it writes into the order. */
module QueueSelections {
  import opened Prelude
  import opened Intents
  import opened OptionChoice
  import opened OptionScreens
  import opened QueueSpec
  import opened QueueSums
  import opened QueueClaims
  import opened QueueOperations

  /** A shadow or ready scalp order in time; a LIVE one only while the window is open. */
  predicate Selectable(p: Policy, i: Intent, now: int) {
    && i.status in {Shadow, Ready}
    && now < i.info.validUntil
    && (i.info.mode == Live ==> WindowOpen(p, now))
    && i.plan.request.Some?
  }

  predicate SelectionRequestFits(req: SelectionRequest, now: int) {
    && req.agent == "codex" && req.buyingPower > 0 && req.accountScope == "ROBINHOOD_AGENTIC_ONLY"
    && -5 <= now - req.observedAt <= 120
  }

  predicate IsLeast(least: real, x: real, y: real, z: real) {
    least <= x && least <= y && least <= z && (least == x || least == y || least == z)
  }

  /** The least of buying-power share, order cap and what the day has left, to the nearest cent. */
  ghost predicate CeilingOf(p: Policy, buyingPower: int, used: nat, cents: int) {
    exists least: real ::
      && IsLeast(least, buyingPower as real * p.capitalFraction, p.maxOrderRisk as real,
                 if used > p.maxDailyRisk then 0.0 else (p.maxDailyRisk - used) as real)
      && NearestCent(least, cents)
  }

  /** The thresholds are those of the policy, the order and the clock of now. */
  ghost predicate ScreenOf(s: State, id: string, req: SelectionRequest, env: Env, screen: Screen)
    requires id in s.intents
  {
    && screen.symbol == s.intents[id].info.symbol
    && Some(screen.wanted) == s.intents[id].plan.request
    && screen.now == env.now && screen.today == req.observedDay
    && screen.policy == s.policy
    && CeilingOf(s.policy, req.buyingPower, SumOf(OthersAtRisk(s, id, env.day)), screen.ceiling)
  }

  lemma ScreenKnown(s: State, id: string, req: SelectionRequest, env: Env)
    requires id in s.intents && s.intents[id].plan.request.Some?
    ensures ScreenOf(s, id, req, env, SelectionScreen(s, id, req, env))
  {
    hide Total, SumOf, OthersAtRisk;
    OthersAdded(s, id, env.day);
    CeilingKnown(s.policy, req.buyingPower, Total(Used(env.day), s.intents - {id}));
  }

  lemma CeilingKnown(p: Policy, buyingPower: int, used: nat)
    ensures CeilingOf(p, buyingPower, used,
                      CapitalCeiling(buyingPower, p, if used > p.maxDailyRisk then 0 else p.maxDailyRisk - used))
  {
    var left := if used > p.maxDailyRisk then 0 else p.maxDailyRisk - used;
    var least := RoundedFrom(buyingPower, p, left);
    hide IsLeast, NearestCent, CapitalCeiling;
  }

  lemma RoundedFrom(buyingPower: int, p: Policy, left: nat) returns (least: real)
    ensures IsLeast(least, buyingPower as real * p.capitalFraction, p.maxOrderRisk as real, left as real)
    ensures NearestCent(least, CapitalCeiling(buyingPower, p, left))
  {
    var share, cap := buyingPower as real * p.capitalFraction, p.maxOrderRisk as real;
    least := if share <= cap && share <= left as real then share else if cap <= left as real then cap else left as real;
  }

  /** The order is now for this contract and its premium; an earlier review no longer counts. */
  predicate Sized(i: Intent, j: Intent, sel: Selection, now: int) {
    && j == i.(selection := Some(sel), check := None, plan := j.plan, updatedAt := now, revision := i.revision + 1,
               events := j.events)
    && j.plan == i.plan.(instrument := OptionContract, capitalRequired := Some(sel.plannedDebit))
    && j.events == i.events + [Event(|i.events| + 1, now, OptionSelected, Some(i.status), i.status, None)]
  }

  /** The recorded order is for the best contract that fits the screen. */
  ghost predicate Takes(s: State, id: string, req: SelectionRequest, env: Env, screen: Screen, t: State) {
    && id in s.intents && id in t.intents && t == s.(intents := s.intents[id := t.intents[id]])
    && t.intents[id].selection.Some?
    && var sel := t.intents[id].selection.value;
    && Sized(s.intents[id], t.intents[id], sel, env.now)
    && (exists c :: BestFit(req.candidates, screen, c) && RecordOf(c, screen, sel))
    && sel.eligibleCount == |Fitting(req.candidates, screen)| && sel.submittedCount == |req.candidates|
    && sel.recordedAt == env.now
  }

  /** With these thresholds, the call answers exactly when some submitted contract fits them. */
  ghost predicate AnswersBy(s: State, id: string, req: SelectionRequest, env: Env, screen: Screen)
    requires id in s.intents
  {
    var r := AttestSelection(s, id, req, env);
    && ScreenOf(s, id, req, env, screen)
    && (r.Ok? <==> exists c :: c in req.candidates && Fits(c, screen))
    && (r.Ok? ==> Takes(s, id, req, env, screen, r.value))
  }

  lemma FitsCeiling(c: Candidate, screen: Screen)
    requires Fits(c, screen)
    ensures screen.ceiling > 0
  {
    assert TESTS[12] == TooDear;
    assert Passes(c, screen, TESTS[12]);
  }

  /**
   * A selection is refused unless order and request may be served; if they may, it is recorded if
   * and only if some submitted contract fits the thresholds of the moment, and then the order is for
   * the best of those that do.
   */
  lemma SelectionRecorded(s: State, id: string, req: SelectionRequest, env: Env)
    ensures AttestSelection(s, id, req, env).Ok? ==>
      id in s.intents && Selectable(s.policy, s.intents[id], env.now) && SelectionRequestFits(req, env.now)
    ensures id in s.intents && Selectable(s.policy, s.intents[id], env.now) && SelectionRequestFits(req, env.now) ==>
      exists screen :: AnswersBy(s, id, req, env, screen)
  {
    hide Select, Total, SelectedIntent, SumOf, OthersAtRisk, Fits, BestFit, RecordOf, Fitting, SelectionScreen,
      ScreenOf;
    if id in s.intents && Selectable(s.policy, s.intents[id], env.now) && SelectionRequestFits(req, env.now) {
      var screen := SelectionScreen(s, id, req, env);
      ScreenKnown(s, id, req, env);
      SelectedExactly(req.candidates, screen, env.now);
      if c :| c in req.candidates && Fits(c, screen) {
        FitsCeiling(c, screen);
      }
      if AttestSelection(s, id, req, env).Ok? {
        SizedBy(s.intents[id], Select(req.candidates, screen, env.now).value, env.now);
      }
      assert AnswersBy(s, id, req, env, screen);
    }
  }

  lemma SizedBy(i: Intent, sel: Selection, now: int)
    ensures Sized(i, SelectedIntent(i, sel, now), sel, now) && SelectedIntent(i, sel, now).selection == Some(sel)
  {
  }
}
