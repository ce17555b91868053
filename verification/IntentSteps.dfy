/** Each single-intent mutation keeps the intent rules and only ever moves an intent forward. */
module IntentSteps {
  import opened Prelude
  import opened Intents
  import opened IntentRules
  import opened QueueSpec

  /**
   * How an intent may change, over one operation or many: identity and past events are fixed,
   * terminal intents are frozen unless a cancelled order turns out to have filled, leases of
   * successive claims do not overlap, a revoked claim is final, what was claimed is what stays
   * selected, and a filled order stays filled.
   */
  predicate Evolves(i: Intent, j: Intent) {
    && j.info == i.info
    && i.events <= j.events
    && (Terminal(i.status) && !i.status.Cancelled? ==> j == i)
    && (i.status.Cancelled? ==> j == i || Exposed(j.status))
    && (i.claim.Some? ==> j.claim.Some? && i.claim.value.leaseUntil <= j.claim.value.leaseUntil)
    && (j.claim != i.claim ==> i.revokedAt.None?)
    && (i.claim.Some? && j.claim.Some? && j.claim != i.claim ==>
          i.claim.value.leaseUntil <= j.claim.value.claimedAt)
    && (i.revokedAt.Some? ==> j.revokedAt == i.revokedAt && j.claim == i.claim)
    && (i.claim.Some? ==> j.selection == i.selection && j.plan == i.plan)
    && (Exposed(i.status) ==> Exposed(j.status))
  }

  lemma EvolvesTransitive(i: Intent, j: Intent, k: Intent)
    requires Evolves(i, j) && Evolves(j, k)
    requires AuthorityInv(i) && AuthorityInv(j) && AuthorityInv(k)
    ensures Evolves(i, k)
  {
  }

  predicate Counted(s: Status) {
    s.AwaitingApproval? || s.Ready? || InBook(s)
  }

  /** A LIVE intent that was out of play stays out of play. */
  predicate Steady(i: Intent, j: Intent) {
    i.info.mode.Live? ==>
      && (Counted(j.status) ==> Counted(i.status))
      && (!Terminal(j.status) ==> !Terminal(i.status))
  }

  /** Nothing new was committed to the market. */
  predicate Calm(i: Intent, j: Intent) {
    && Steady(i, j)
    && j.claim == i.claim
    && (i.info.mode.Live? && InBook(j.status) ==> InBook(i.status))
  }

  ghost predicate GoodStep(i: Intent, j: Intent) {
    IntentInv(j) && Evolves(i, j)
  }

  /** Without a fill the ledger rules speak of its rows alone. */
  lemma UnfilledLedger(i: Intent, j: Intent)
    requires LedgerInv(i) && j.trades == i.trades && !Exposed(i.status) && !Exposed(j.status)
    ensures LedgerInv(j)
  {
    hide CountKind, FirstEntry;
  }

  /** Leaving the queue before any order: blocked, expired or rejected. */
  lemma RetireStep(i: Intent, kind: EventKind, to: Status, now: int)
    requires IntentInv(i)
    requires LegalStep(i.info.mode, kind, i.status, to)
    requires to.Blocked? || to.Expired? || (to.Rejected? && kind.OperatorRejected?)
    ensures GoodStep(i, Logged(i, kind, to, now, None)) && Calm(i, Logged(i, kind, to, now, None))
  {
    hide LedgerInv, LogInv;
    LoggedKeepsLog(i, kind, to, now, None);
    UnfilledLedger(i, Logged(i, kind, to, now, None));
  }

  lemma RevokeStep(i: Intent, now: int)
    requires IntentInv(i) && i.status.Claimed?
    ensures GoodStep(i, RevokedIntent(i, now)) && Calm(i, RevokedIntent(i, now))
  {
    if i.revokedAt.None? {
      LoggedKeepsLog(i.(revokedAt := Some(now)), ClaimRevoked, Claimed, now, None);
    }
  }

  lemma BlockOrRevokeStep(i: Intent, now: int)
    requires IntentInv(i)
    ensures GoodStep(i, BlockOrRevoke(i, now)) && Calm(i, BlockOrRevoke(i, now))
    ensures !Blockable(BlockOrRevoke(i, now).status)
    ensures BlockOrRevoke(i, now).status.Claimed? ==> BlockOrRevoke(i, now).revokedAt.Some?
  {
    if Blockable(i.status) {
      RetireStep(i, IntentBlocked, Blocked, now);
    } else if i.status.Claimed? {
      RevokeStep(i, now);
    }
  }

  lemma SweepStep(i: Intent, now: int)
    requires IntentInv(i)
    ensures GoodStep(i, SweptIntent(i, now)) && Calm(i, SweptIntent(i, now))
  {
    if i.info.validUntil <= now {
      if Blockable(i.status) {
        RetireStep(i, IntentExpired, Expired, now);
      } else if i.status.Claimed? {
        RevokeStep(i, now);
      }
    }
  }

  lemma DisarmStep(i: Intent, now: int)
    requires IntentInv(i)
    ensures GoodStep(i, DisarmedIntent(i, now)) && Calm(i, DisarmedIntent(i, now))
    ensures i.info.mode.Live? ==>
      && !Blockable(DisarmedIntent(i, now).status)
      && (DisarmedIntent(i, now).status.Claimed? ==> DisarmedIntent(i, now).revokedAt.Some?)
  {
    if i.info.mode.Live? {
      BlockOrRevokeStep(i, now);
    }
  }

  lemma CalmTransitive(i: Intent, j: Intent, k: Intent)
    requires IntentInv(i) && GoodStep(i, j) && Calm(i, j) && GoodStep(j, k) && Calm(j, k)
    ensures GoodStep(i, k) && Calm(i, k)
  {
    EvolvesTransitive(i, j, k);
  }

  lemma SelectStep(i: Intent, sel: Selection, now: int)
    requires IntentInv(i) && (i.status.Shadow? || i.status.Ready?) && i.plan.request.Some?
    requires sel.quantity >= 1 && sel.contractDebit >= 1 && sel.plannedDebit == sel.quantity * sel.contractDebit
    ensures GoodStep(i, SelectedIntent(i, sel, now)) && Calm(i, SelectedIntent(i, sel, now))
  {
    var j := i.(selection := Some(sel), check := None,
                plan := i.plan.(instrument := OptionContract, capitalRequired := Some(sel.plannedDebit)));
    LoggedKeepsLog(j, OptionSelected, i.status, now, None);
  }

  lemma CheckStep(i: Intent, check: CapitalCheck, now: int)
    requires IntentInv(i) && i.info.mode.Live? && (i.status.Ready? || (i.status.Claimed? && check.passed))
    requires Some(check.required) == i.plan.capitalRequired
    ensures GoodStep(i, CheckedIntent(i, check, now)) && Calm(i, CheckedIntent(i, check, now))
  {
    LoggedKeepsLog(i.(check := Some(check)), CapitalPreflight, i.status, now, None);
  }

  /** A failed review under an expired lease: the claim is revoked in the same operation. */
  lemma FailedReviewStep(i: Intent, check: CapitalCheck, now: int)
    requires IntentInv(i) && i.info.mode.Live? && i.status.Claimed? && i.revokedAt.None?
    requires Some(check.required) == i.plan.capitalRequired
    ensures var j := RevokedIntent(CheckedIntent(i, check, now), now);
      GoodStep(i, j) && Calm(i, j)
  {
    hide LedgerInv;
    var checked := CheckedIntent(i, check, now);
    LoggedKeepsLog(i.(check := Some(check)), CapitalPreflight, Claimed, now, None);
    LoggedKeepsLog(checked.(revokedAt := Some(now)), ClaimRevoked, Claimed, now, None);
    var j := RevokedIntent(checked, now);
    assert i.events <= checked.events <= j.events;
    UnfilledLedger(i, j);
  }

  lemma PreflightStep(i: Intent, check: CapitalCheck, now: int)
    requires IntentInv(i) && i.info.mode.Live? && (i.status.Ready? || i.status.Claimed?)
    requires i.status.Claimed? ==> i.revokedAt.None?
    requires Some(check.required) == i.plan.capitalRequired
    ensures GoodStep(i, PreflightIntent(i, check, now)) && Calm(i, PreflightIntent(i, check, now))
  {
    var checked := CheckedIntent(i, check, now);
    if check.passed {
      CheckStep(i, check, now);
    } else if i.status.Ready? {
      CheckStep(i, check, now);
      BlockOrRevokeStep(checked, now);
      CalmTransitive(i, checked, BlockOrRevoke(checked, now));
    } else {
      FailedReviewStep(i, check, now);
    }
  }

  lemma ClaimStep(i: Intent, claim: Claim, now: int)
    requires IntentInv(i) && i.info.mode.Live? && (i.status.Ready? || i.status.Claimed?)
    requires i.revokedAt.None? && (i.claim.Some? ==> i.claim.value.leaseUntil <= claim.claimedAt)
    requires GoodLease(claim, i.info) && !i.plan.instrument.SelectionRequired?
    requires i.check.Some? && i.check.value.passed && Some(i.check.value.required) == i.plan.capitalRequired
    ensures GoodStep(i, ClaimedIntent(i, claim, now)) && Steady(i, ClaimedIntent(i, claim, now))
  {
    LoggedKeepsLog(i.(claim := Some(claim), revokedAt := None), ClaimAcquired, Claimed, now, None);
  }

  /** A row that opens nothing and closes nothing leaves the exposure as it was. */
  lemma ReportStep(i: Intent, kind: EventKind, to: Status, now: int, row: TradeRow)
    requires IntentInv(i) && i.info.mode.Live?
    requires LegalStep(i.info.mode, kind, i.status, to)
    requires row.kind.Report?
    requires (i.status.Claimed? && (to.Rejected? || to.Failed? || to.Cancelled?))
      || (i.status.Executed? && to.Executed?)
    ensures GoodStep(i, Logged(i, kind, to, now, Some(row))) && Calm(i, Logged(i, kind, to, now, Some(row)))
  {
    hide LogInv, LedgerInv, LegalStep, CountKind, RowsOf, FirstEntry;
    LoggedKeepsLog(i, kind, to, now, Some(row));
    ReportKeepsLedger(i, kind, to, now, row);
  }

  lemma ReportKeepsLedger(i: Intent, kind: EventKind, to: Status, now: int, row: TradeRow)
    requires LedgerInv(i) && row.kind.Report?
    requires Exposed(to) <==> Exposed(i.status)
    requires to.Closed? <==> i.status.Closed?
    requires !i.status.Closed?
    ensures LedgerInv(Logged(i, kind, to, now, Some(row)))
  {
    hide CountKind, FirstEntry;
    CountAppend(i.trades, row, Entry);
    CountAppend(i.trades, row, Exit);
    FirstEntryAppend(i.trades, row);
  }

  lemma {:induction false} NoEntryNoFirst(rows: seq<TradeRow>)
    requires CountKind(rows, Entry) == 0
    ensures FirstEntry(rows).None?
  {
    if rows != [] {
      var front, last := rows[..|rows| - 1], rows[|rows| - 1];
      NoEntryNoFirst(front);
      FirstEntryAppend(front, last);
      assert rows == front + [last];
    }
  }

  lemma EntryStep(i: Intent, kind: EventKind, now: int, row: TradeRow)
    requires IntentInv(i)
    requires LegalStep(i.info.mode, kind, i.status, Executed) && !i.status.Executed?
    requires row.kind.Entry? && GoodEntry(row, i.selection)
    requires i.info.mode.Simulation? ==> i.selection.Some? && row.quantity == Some(i.selection.value.quantity)
    ensures GoodStep(i, Logged(i, kind, Executed, now, Some(row)))
    ensures !i.status.Cancelled? ==> Calm(i, Logged(i, kind, Executed, now, Some(row)))
  {
    LoggedKeepsLog(i, kind, Executed, now, Some(row));
    CountAppend(i.trades, row, Entry);
    CountAppend(i.trades, row, Exit);
    NoEntryNoFirst(i.trades);
    FirstEntryAppend(i.trades, row);
  }

  lemma ExitStep(i: Intent, kind: EventKind, now: int, row: TradeRow)
    requires IntentInv(i)
    requires LegalStep(i.info.mode, kind, i.status, Closed)
    requires FirstEntry(i.trades).Some? && Filled(FirstEntry(i.trades).value)
    requires ExitMatches(FirstEntry(i.trades).value, row, i.selection)
    ensures GoodStep(i, Logged(i, kind, Closed, now, Some(row))) && Calm(i, Logged(i, kind, Closed, now, Some(row)))
  {
    LoggedKeepsLog(i, kind, Closed, now, Some(row));
    CountAppend(i.trades, row, Entry);
    CountAppend(i.trades, row, Exit);
    FirstEntryAppend(i.trades, row);
    var j := Logged(i, kind, Closed, now, Some(row));
    assert j.trades[|j.trades| - 1] == row;
  }

  lemma CreatedStep(a: Alert, mode: Mode, status: Status, env: Env)
    requires LegalCreation(mode, status)
    ensures IntentInv(CreatedIntent(a, mode, status, env))
  {
    var i := CreatedIntent(a, mode, status, env);
    assert RowsOf(i.events[..0]) == [];
    assert i.events[0].row.None?;
    assert RowsOf(i.events) == [];
  }
}
