// Exceptions in core/pipeline.py: poll_once catches what process_events raises, hands the group to the dead-letter
// stream and goes on with the next, and nothing is recovered before the next restart. Which orders a batch that is cut
// short leaves for that recovery to act on.
module Lingering {
  import opened Schemas
  import opened World
  import opened Pipeline
  import opened OrderLifecycle
  import opened Books
  import opened CrashRecovery
  import opened CrashWindows

  // Recovery can act on this order.
  ghost predicate Live(s: Settings, w: World, id: IntentId) {
    id in w.orders && IsRecoverable(w, id) && !Inert(s, w, id)
  }

  lemma QuiescentIfNoneLive(s: Settings, w: World)
    ensures Quiescent(s, w) <==> forall id: IntentId :: !Live(s, w, id)
  {
    if forall id: IntentId :: !Live(s, w, id) {
      forall id | id in w.orders && IsRecoverable(w, id)
        ensures Inert(s, w, id)
      {
        assert !Live(s, w, id);
      }
    }
  }

  lemma SameLive(s: Settings, w: World, v: World, id: IntentId)
    requires SameOrder(w, v, id)
    ensures Live(s, w, id) <==> Live(s, v, id)
  {
    RecoverableMoves(w, v, id);
  }

  ghost predicate Trades(s: Settings, w: World, input: Input) {
    var p := PlanOf(s, w, input);
    p.intent.Some? && !AlreadyTerminal(w, p.intent.value.id) && Allowed(s, p, input)
  }

  // --- the permitted order -----------------------------------------------------------------------

  // Cut after k effects, the batch leaves x to recovery: its ledger was open before, and
  // - before a report is stored, the order is SUBMITTED or RETRY with its submission entered and attempts left, or
  //   just marked FILLED while an older report is stored;
  // - from there until the ledger is closed, it is reported FILLED, or SUBMITTED with attempts left.
  ghost predicate Lingers(s: Settings, w: World, input: Input, x: Intent, k: nat)
    requires k <= |ProcessEffects(s, w, input)|
  {
    && OpenLedger(w, x.id)
    && if Unreported(s, w, input, x, k) then
         if Unstored(s, w, input, x, k) then LatestReport(w.reports, x.id).Some?
         else
           && Unfinished(s, w, input, x, k)
           && AttemptsOf(After(w, ProcessEffects(s, w, input), k), x.id) < s.MaxAttempts()
       else
         && k <= |Opening(s, w, input, x)| + 3
         && exists report :: Fills(s, w, input, x, report) && Reopens(s, w, input, x, report)
  }

  ghost predicate Reopens(s: Settings, w: World, input: Input, x: Intent, report: Report) {
    report.status == FILLED || (report.status == SUBMITTED && AttemptsUsed(s, w, input, x) < s.MaxAttempts())
  }

  lemma UnreportedLive(s: Settings, w: World, input: Input, x: Intent, k: nat)
    requires Sound(s, w) && Permits(s, w, input, x) && Unreported(s, w, input, x, k)
    ensures Live(s, After(w, ProcessEffects(s, w, input), k), x.id) <==> Lingers(s, w, input, x, k)
  {
    UnreportedOrder(s, w, input, x, k);
    OpeningPrefix(s, w, input, x, k);
  }

  lemma ReportedLive(s: Settings, w: World, input: Input, x: Intent, report: Report, k: nat)
    requires Sound(s, w) && Fills(s, w, input, x, report)
    requires |Opening(s, w, input, x)| <= k <= |ProcessEffects(s, w, input)|
    ensures Live(s, After(w, ProcessEffects(s, w, input), k), x.id)
      <==> OpenLedger(w, x.id) && k <= |Opening(s, w, input, x)| + 3 && Reopens(s, w, input, x, report)
  {
    CrashedOrderAt(s, w, input, x, report, k);
    CrashedAttempts(s, w, input, x, report, k);
    if report.status == FILLED {
      var stored := CrashedReportAt(s, w, input, x, report, k);
    }
  }

  lemma PermittedLive(s: Settings, w: World, input: Input, x: Intent, k: nat)
    requires Sound(s, w) && Permits(s, w, input, x) && k <= |ProcessEffects(s, w, input)|
    ensures Live(s, After(w, ProcessEffects(s, w, input), k), x.id) <==> Lingers(s, w, input, x, k)
  {
    if Unreported(s, w, input, x, k) {
      UnreportedLive(s, w, input, x, k);
    } else {
      var report := ExecuteResult(s, x, input.adapter, AttemptsOf(w, x.id)).value;
      assert Fills(s, w, input, x, report);
      ReportedLive(s, w, input, x, report, k);
    }
  }

  // --- the rejected order ------------------------------------------------------------------------

  lemma NotYetConcerned(w: World, es: seq<Effect>, k: nat, id: IntentId)
    requires |es| >= 2 && es[0].SaveDecisions? && es[1].SaveReconciliation? && k <= 2
    ensures SameOrder(w, After(w, es, k), id)
  {
    assert After(w, es, 0) == w && After(w, es, 1) == Apply(w, es[0]);
  }

  lemma ClosedInLedger(w: World, es: seq<Effect>, k: nat, id: IntentId, entries: seq<LedgerEntry>)
    requires 3 <= k <= |es| && es[2] == AppendLedger(entries) && |entries| == 2
    requires entries[1].id == id && entries[1].status == REJECTED
    requires forall i | 3 <= i < |es| :: !es[i].AppendLedger?
    ensures HasStatus(After(w, es, k).ledger, id, REJECTED)
  {
    LedgerKept(w, es, 3, k);
    assert After(w, es, 3) == Apply(After(w, es, 2), es[2]);
    AppendedStatus(After(w, es, 2).ledger, entries, id, REJECTED);
  }

  // It is closed in the ledger before its row is written.
  lemma RejectedLive(s: Settings, w: World, input: Input, x: Intent, k: nat)
    requires k <= |ProcessEffects(s, w, input)|
    requires var p := PlanOf(s, w, input);
      p.intent == Some(x) && !AlreadyTerminal(w, x.id) && !Allowed(s, p, input)
    ensures Live(s, After(w, ProcessEffects(s, w, input), k), x.id) <==> k <= 2 && Live(s, w, x.id)
  {
    var p, es := PlanOf(s, w, input), ProcessEffects(s, w, input);
    var entries := RejectionEntries(p, input, x.id);
    assert |es| == 7 && es[2] == AppendLedger(entries) && es[0].SaveDecisions? && es[1].SaveReconciliation?;
    assert forall i | 3 <= i < 7 :: !es[i].AppendLedger?;
    if k <= 2 {
      NotYetConcerned(w, es, k, x.id);
      SameLive(s, w, After(w, es, k), x.id);
    } else {
      ClosedInLedger(w, es, k, x.id, entries);
    }
  }

  // --- every order -------------------------------------------------------------------------------

  // The batch concerns this order: it is the one that was routed, and not terminal.
  ghost predicate Handles(s: Settings, w: World, input: Input, id: IntentId) {
    var p := PlanOf(s, w, input);
    p.intent.Some? && p.intent.value.id == id && !AlreadyTerminal(w, id)
  }

  lemma OthersStayLive(s: Settings, w: World, input: Input, k: nat, id: IntentId)
    requires k <= |ProcessEffects(s, w, input)| && !Handles(s, w, input, id)
    ensures SameOrder(w, After(w, ProcessEffects(s, w, input), k), id)
  {
    var p, es := PlanOf(s, w, input), ProcessEffects(s, w, input);
    if p.intent.Some? && p.intent.value.id != id {
      ProcessAbout(s, w, input, p.intent.value);
    }
    SameRun(w, es, k, id);
  }

  // Exactly the orders that are left: those that were live before and that the batch does not handle; its own if it
  // was permitted and lingers; a rejected one if it was live and the batch was cut before its ledger entry.
  lemma LiveExactly(s: Settings, w: World, input: Input, k: nat, id: IntentId)
    requires Sound(s, w) && k <= |ProcessEffects(s, w, input)|
    ensures Live(s, After(w, ProcessEffects(s, w, input), k), id) <==>
      if !Handles(s, w, input, id) then Live(s, w, id)
      else if Trades(s, w, input) then Lingers(s, w, input, PlanOf(s, w, input).intent.value, k)
      else k <= 2 && Live(s, w, id)
  {
    if !Handles(s, w, input, id) {
      OthersStayLive(s, w, input, k, id);
      SameLive(s, w, After(w, ProcessEffects(s, w, input), k), id);
    } else if Trades(s, w, input) {
      PermittedLive(s, w, input, PlanOf(s, w, input).intent.value, k);
    } else {
      RejectedLive(s, w, input, PlanOf(s, w, input).intent.value, k);
    }
  }

  // Cut after k effects, this batch leaves an order that recovery can act on.
  ghost predicate LeavesLive(s: Settings, w: World, input: Input, k: nat)
    requires k <= |ProcessEffects(s, w, input)|
  {
    Trades(s, w, input) && Lingers(s, w, input, PlanOf(s, w, input).intent.value, k)
  }

  // From a state with nothing to recover, a batch leaves nothing to recover if and only if its order does not linger.
  lemma QuiescentExactly(s: Settings, w: World, input: Input, k: nat)
    requires Sound(s, w) && Quiescent(s, w) && k <= |ProcessEffects(s, w, input)|
    ensures Quiescent(s, After(w, ProcessEffects(s, w, input), k)) <==> !LeavesLive(s, w, input, k)
  {
    var c := After(w, ProcessEffects(s, w, input), k);
    QuiescentIfNoneLive(s, w);
    QuiescentIfNoneLive(s, c);
    forall id: IntentId
      ensures Live(s, c, id) <==>
        Handles(s, w, input, id) && Trades(s, w, input)
        && Lingers(s, w, input, PlanOf(s, w, input).intent.value, k)
    {
      LiveExactly(s, w, input, k, id);
      assert !Live(s, w, id);
    }
    if LeavesLive(s, w, input, k) {
      assert Handles(s, w, input, PlanOf(s, w, input).intent.value.id);
    }
  }

  // A batch that runs to its end leaves nothing of its own.
  lemma CompletedLeavesNothing(s: Settings, w: World, input: Input)
    requires Sound(s, w)
    ensures !LeavesLive(s, w, input, |ProcessEffects(s, w, input)|)
  {
    var es := ProcessEffects(s, w, input);
    if Trades(s, w, input) {
      var x := PlanOf(s, w, input).intent.value;
      if Exhausted(s, w, input) {
        ExhaustedLeavesNothing(s, w, input, x);
        PermittedLive(s, w, input, x, |es|);
      } else {
        var report := ExecuteResult(s, x, input.adapter, AttemptsOf(w, x.id)).value;
        FillsEffects(s, w, input, x, report);
        ClosingShape(s, w, input, x, report);
      }
    }
  }

  // Every attempt failed: the order is REJECTED, or had no attempts left.
  lemma ExhaustedLeavesNothing(s: Settings, w: World, input: Input, x: Intent)
    requires Sound(s, w) && Exhausted(s, w, input) && PlanOf(s, w, input).intent == Some(x)
    ensures !Live(s, ApplyAll(w, ProcessEffects(s, w, input)), x.id)
  {
    ExhaustedAbout(s, w, input, x);
    OpeningLegal(s, w, input, x, Adjusted(s, PlanOf(s, w, input), input));
    var row := ApplyAll(w, Opening(s, w, input, x)).orders[x.id];
    assert row.status == REJECTED || (row.attempts >= s.MaxAttempts() && row.status != FILLED);
  }
}
