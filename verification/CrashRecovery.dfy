// Crashes of core/pipeline.py: what a batch that has a report leaves at every point at which it can die, and what the
// next recovery makes of a FILLED order when recovery itself dies.
module CrashRecovery {
  import opened Schemas
  import opened World
  import opened Pipeline
  import opened OrderLifecycle
  import opened Books
  import Reconciler
  import Router

  // --- a whole recovery --------------------------------------------------------------------------

  // Rows outside [lo, hi) of the recovery order are untouched by it.
  lemma {:induction false} Apart(
    s: Settings, w: World, rs: seq<Recoverable>, env: IntentId -> Env, lo: nat, hi: nat, id: IntentId)
    requires lo <= hi <= |rs| && forall i | lo <= i < hi :: rs[i].intent.id != id
    ensures SameOrder(RecoverState(s, w, rs[..lo], env), RecoverState(s, w, rs[..hi], env), id)
    decreases hi - lo
  {
    if lo < hi {
      Apart(s, w, rs, env, lo, hi - 1, id);
      RecoverNext(s, w, rs, env, hi - 1);
      var before := RecoverState(s, w, rs[..hi - 1], env);
      var es := RecoverOne(s, before, rs[hi - 1], env(rs[hi - 1].intent.id));
      RecoverAboutOnly(s, before, rs[hi - 1], env(rs[hi - 1].intent.id));
      SameRun(before, es, |es|, id);
      SameOrderTransitive(RecoverState(s, w, rs[..lo], env), before, ApplyAll(before, es), id);
    }
  }

  lemma SameOrderTransitive(a: World, b: World, c: World, id: IntentId)
    requires SameOrder(a, b, id) && SameOrder(b, c, id)
    ensures SameOrder(a, c, id)
  {
  }

  // When recovery reaches row i, it is as the query read it.
  lemma AtRow(s: Settings, w: World, rs: seq<Recoverable>, env: IntentId -> Env, i: nat)
    requires Sound(s, w) && Enumerates(w, rs) && i < |rs|
    ensures var v := RecoverState(s, w, rs[..i], env);
      Sound(s, v) && IsRow(v, rs[i]) && SameOrder(w, v, rs[i].intent.id)
  {
    RecoverLegal(s, w, rs, env, i);
    LegalRun(s, w, RecoverEffects(s, w, rs[..i], env), |RecoverEffects(s, w, rs[..i], env)|);
    RowUntouched(s, w, rs, env, i, rs[i].intent.id);
    assert IsRow(w, rs[i]);
    RowMoves(w, RecoverState(s, w, rs[..i], env), rs[i]);
  }

  lemma InertMoves(s: Settings, w: World, v: World, id: IntentId)
    requires Inert(s, w, id) && SameOrder(w, v, id)
    ensures Inert(s, v, id)
  {
  }

  lemma RecoverableMoves(w: World, v: World, id: IntentId)
    requires SameOrder(w, v, id)
    ensures id in w.orders && IsRecoverable(w, id) <==> id in v.orders && IsRecoverable(v, id)
  {
  }

  // After a complete recovery from any sound state, nothing is left to do.
  lemma RecoveryQuiesces(s: Settings, w: World, rs: seq<Recoverable>, env: IntentId -> Env)
    requires Sound(s, w) && Enumerates(w, rs)
    ensures Sound(s, RecoverState(s, w, rs, env)) && Quiescent(s, RecoverState(s, w, rs, env))
  {
    var f := RecoverState(s, w, rs, env);
    assert rs[..|rs|] == rs;
    RecoverLegal(s, w, rs, env, |rs|);
    LegalRun(s, w, RecoverEffects(s, w, rs, env), |RecoverEffects(s, w, rs, env)|);
    forall id | id in f.orders && IsRecoverable(f, id)
      ensures Inert(s, f, id)
    {
      if j :| 0 <= j < |rs| && rs[j].intent.id == id {
        RowEnds(s, w, rs, env, j);
      } else {
        RowUntouched(s, w, rs, env, |rs|, id);
        RecoverableMoves(w, f, id);
      }
    }
  }

  // A recovered row ends up closed or inert.
  lemma RowEnds(s: Settings, w: World, rs: seq<Recoverable>, env: IntentId -> Env, j: nat)
    requires Sound(s, w) && Enumerates(w, rs) && j < |rs|
    ensures var f := RecoverState(s, w, rs, env);
      rs[j].intent.id in f.orders && IsRecoverable(f, rs[j].intent.id) ==> Inert(s, f, rs[j].intent.id)
  {
    var id := rs[j].intent.id;
    var v := RecoverState(s, w, rs[..j], env);
    AtRow(s, w, rs, env, j);
    RecoverOneOutcome(s, v, rs[j], env(id));
    RecoverNext(s, w, rs, env, j);
    var v' := RecoverState(s, w, rs[..j + 1], env);
    Apart(s, w, rs, env, j + 1, |rs|, id);
    assert rs[..|rs|] == rs;
    var f := RecoverState(s, w, rs, env);
    RecoverableMoves(v', f, id);
    if id in f.orders && IsRecoverable(f, id) {
      InertMoves(s, v', f, id);
    }
  }

  lemma InertRow(s: Settings, w: World, rs: seq<Recoverable>, env: IntentId -> Env, i: nat)
    requires Sound(s, w) && Enumerates(w, rs) && i < |rs| && Inert(s, w, rs[i].intent.id)
    ensures SameBook(RecoverState(s, w, rs[..i], env), RecoverState(s, w, rs[..i + 1], env))
  {
    var v := RecoverState(s, w, rs[..i], env);
    AtRow(s, w, rs, env, i);
    InertMoves(s, w, v, rs[i].intent.id);
    InertOnlyNoticed(s, v, rs[i], env(rs[i].intent.id));
    RecoverNext(s, w, rs, env, i);
  }

  // Rows that are all inert leave the book alone.
  lemma {:induction false} InertRows(
    s: Settings, w: World, rs: seq<Recoverable>, env: IntentId -> Env, lo: nat, hi: nat)
    requires Sound(s, w) && Enumerates(w, rs) && lo <= hi <= |rs|
    requires forall i | lo <= i < hi :: Inert(s, w, rs[i].intent.id)
    ensures SameBook(RecoverState(s, w, rs[..lo], env), RecoverState(s, w, rs[..hi], env))
    decreases hi - lo
  {
    if lo < hi {
      InertRows(s, w, rs, env, lo, hi - 1);
      InertRow(s, w, rs, env, hi - 1);
    }
  }

  // Recovering a quiescent state changes no position and no portfolio: a second recovery is harmless.
  lemma QuiescentRecovery(s: Settings, w: World, rs: seq<Recoverable>, env: IntentId -> Env)
    requires Sound(s, w) && Quiescent(s, w) && Enumerates(w, rs)
    ensures SameBook(w, RecoverState(s, w, rs, env))
  {
    forall i | 0 <= i < |rs|
      ensures Inert(s, w, rs[i].intent.id)
    {
      assert IsRow(w, rs[i]);
    }
    InertRows(s, w, rs, env, 0, |rs|);
    assert rs[..0] == [] && rs[..|rs|] == rs;
  }

  // --- one live order among inert ones -----------------------------------------------------------

  // The only order recovery can act on is x, FILLED with this report.
  ghost predicate OnlyLive(s: Settings, c: World, x: Intent, report: Report) {
    && x.id in c.orders && IsRecoverable(c, x.id)
    && c.orders[x.id].status == FILLED && c.orders[x.id].intent == x
    && LatestReport(c.reports, x.id) == Some(report)
    && forall id | id in c.orders && IsRecoverable(c, id) && id != x.id :: Inert(s, c, id)
  }

  // The row of x in the recovery order; every other row is inert.
  ghost predicate LiveRow(s: Settings, c: World, rs: seq<Recoverable>, x: Intent, i: nat) {
    && i < |rs| && rs[i].intent == x && rs[i].status == FILLED
    && forall j | 0 <= j < |rs| && j != i :: Inert(s, c, rs[j].intent.id)
  }

  lemma LiveIndex(s: Settings, c: World, rs: seq<Recoverable>, x: Intent, report: Report) returns (i: nat)
    requires Enumerates(c, rs) && OnlyLive(s, c, x, report)
    ensures LiveRow(s, c, rs, x, i)
  {
    i :| 0 <= i < |rs| && rs[i].intent.id == x.id;
    assert IsRow(c, rs[i]);
    forall j | 0 <= j < |rs| && j != i
      ensures Inert(s, c, rs[j].intent.id)
    {
      assert IsRow(c, rs[j]);
    }
  }

  lemma LiveStep(
    s: Settings, c: World, rs: seq<Recoverable>, env: IntentId -> Env, x: Intent, report: Report, i: nat)
    requires Sound(s, c) && Enumerates(c, rs) && OnlyLive(s, c, x, report) && LiveRow(s, c, rs, x, i)
    ensures AppliedOnce(RecoverState(s, c, rs[..i], env), RecoverState(s, c, rs[..i + 1], env), x, report)
  {
    var v := RecoverState(s, c, rs[..i], env);
    AtRow(s, c, rs, env, i);
    StoredReport(s, v, rs[i], env(x.id));
    RecoverOneOutcome(s, v, rs[i], env(x.id));
    RecoverNext(s, c, rs, env, i);
  }

  lemma StoredReport(s: Settings, v: World, r: Recoverable, env: Env)
    requires r.status == FILLED
    ensures RecoveredReport(s, v, r, env) == LatestReport(v.reports, r.intent.id)
  {
  }

  // Then recovery applies that fill exactly once, wherever the database lists the row.
  lemma LiveRecovery(s: Settings, c: World, rs: seq<Recoverable>, env: IntentId -> Env, x: Intent, report: Report)
    requires Sound(s, c) && Enumerates(c, rs) && OnlyLive(s, c, x, report)
    ensures AppliedOnce(c, RecoverState(s, c, rs, env), x, report)
  {
    var i := LiveIndex(s, c, rs, x, report);
    var v, v' := RecoverState(s, c, rs[..i], env), RecoverState(s, c, rs[..i + 1], env);
    InertRows(s, c, rs, env, 0, i);
    assert rs[..0] == [];
    LiveStep(s, c, rs, env, x, report, i);
    InertRows(s, c, rs, env, i + 1, |rs|);
    assert rs[..|rs|] == rs;
    SameThenApplied(c, v, v', x, report);
    AppliedThenSame(c, v', RecoverState(s, c, rs, env), x, report);
  }

  // --- processing a batch that fills -------------------------------------------------------------

  // process_events executes x and gets this report.
  ghost predicate Fills(s: Settings, w: World, input: Input, x: Intent, report: Report) {
    var p := PlanOf(s, w, input);
    && p.intent == Some(x)
    && !AlreadyTerminal(w, x.id)
    && Allowed(s, p, input)
    && ExecuteResult(s, x, input.adapter, AttemptsOf(w, x.id)) == Some(report)
  }

  ghost function Opening(s: Settings, w: World, input: Input, x: Intent): seq<Effect> {
    OpeningEffects(s, w, input, x, Adjusted(s, PlanOf(s, w, input), input))
  }

  ghost function Closing(s: Settings, w: World, input: Input, x: Intent, report: Report): seq<Effect> {
    var p := PlanOf(s, w, input);
    FilledClosing(
      p, input, x, report, Adjusted(s, p, input), LastAttempt(s, input.adapter, AttemptsOf(w, x.id)))
  }

  // The order has been neither reconciled nor rejected in the ledger before.
  predicate OpenLedger(w: World, id: IntentId) {
    !HasStatus(w.ledger, id, RECONCILED) && !HasStatus(w.ledger, id, REJECTED)
  }

  lemma FillsEffects(s: Settings, w: World, input: Input, x: Intent, report: Report)
    requires Fills(s, w, input, x, report)
    ensures ProcessEffects(s, w, input) == Opening(s, w, input, x) + Closing(s, w, input, x, report)
  {
  }

  // The eight closing writes of a fill: audit rows, the report, the ledger, the order, the book, the checkpoint.
  ghost predicate Shape(
    es: seq<Effect>, x: Intent, noted: Report, entries: seq<LedgerEntry>, token: Token, b: Reconciler.Book)
  {
    && |es| == 8
    && es[0].SaveDecisions?
    && es[1] == SaveReport(noted)
    && es[2].SaveReconciliation?
    && es[3] == AppendLedger(entries)
    && es[4].UpsertOrder? && es[4].intent == x && es[4].status == noted.status
    && es[5] == SavePosition(token, b.position)
    && es[6] == SavePortfolio(b.portfolio)
    && es[7].SaveCheckpoint?
  }

  ghost function Entries(s: Settings, w: World, input: Input, report: Report): seq<LedgerEntry> {
    var p := PlanOf(s, w, input);
    FilledEntries(p, input, Noted(p, report), Adjusted(s, p, input))
  }

  lemma ClosingShape(s: Settings, w: World, input: Input, x: Intent, report: Report)
    requires Fills(s, w, input, x, report)
    ensures x.Token() == input.signal.token && report.id == x.id
    ensures Shape(
      Closing(s, w, input, x, report), x, Noted(PlanOf(s, w, input), report), Entries(s, w, input, report),
      x.Token(), FillOf(BookOf(w, x.Token()), x, report))
  {
    var p := PlanOf(s, w, input);
    Router.RoutedIntents(input.signal, p.transition.next, p.position, Router.READY);
  }

  // The order's row and reports when execution has just returned.
  lemma Opened(s: Settings, w: World, input: Input, x: Intent, report: Report)
    requires Sound(s, w) && Fills(s, w, input, x, report)
    ensures var w1 := ApplyAll(w, Opening(s, w, input, x));
      && w1.positions == w.positions && w1.portfolio == w.portfolio
      && x.id in w1.orders && w1.orders[x.id].intent == x && w1.orders[x.id].status == report.status
      && w1.reports == InsertNew(w.reports, report)
  {
    var p := PlanOf(s, w, input);
    var adjusted, at, n := Adjusted(s, p, input), input.signal.timestamp, AttemptsOf(w, x.id);
    OpeningLegal(s, w, input, x, adjusted);
    var submission := SubmissionEffects(w, x, adjusted, at);
    var execution := ExecuteEffects(s, x, adjusted, at, input.adapter, n);
    ApplyAllConcat(w, submission, execution);
    Submitted(w, x, adjusted, at);
    ExecuteReports(s, ApplyAll(w, submission), x, adjusted, at, input.adapter, n);
    ExecuteKeepsBook(s, x, adjusted, at, input.adapter, n);
    BookKept(w, submission + execution, |submission + execution|);
  }

  lemma Submitted(w: World, x: Intent, adjusted: real, at: int)
    ensures var w1 := ApplyAll(w, SubmissionEffects(w, x, adjusted, at));
      w1.reports == w.reports && w1.ledger == InsertAll(w.ledger, [SubmittedEntry(x.id, adjusted, at, None)])
  {
    var es := SubmissionEffects(w, x, adjusted, at);
    assert After(w, es, 0) == w;
    assert After(w, es, 1) == Apply(After(w, es, 0), es[0]);
    assert After(w, es, 2) == Apply(After(w, es, 1), es[1]);
  }

  lemma SubmittedStatus(w: World, x: Intent, adjusted: real, at: int, status: Status)
    ensures HasStatus(ApplyAll(w, SubmissionEffects(w, x, adjusted, at)).ledger, x.id, status)
      <==> HasStatus(w.ledger, x.id, status) || status == SUBMITTED
  {
    var entry := SubmittedEntry(x.id, adjusted, at, None);
    Submitted(w, x, adjusted, at);
    AppendedStatus(w.ledger, [entry], x.id, status);
    OneStatus(entry, x.id, status);
  }

  // ... and what the ledger says about it.
  lemma OpenedLedger(s: Settings, w: World, input: Input, x: Intent, report: Report)
    requires Fills(s, w, input, x, report)
    ensures var w1 := ApplyAll(w, Opening(s, w, input, x));
      && HasStatus(w1.ledger, x.id, SUBMITTED)
      && (OpenLedger(w1, x.id) <==> OpenLedger(w, x.id))
  {
    var p := PlanOf(s, w, input);
    var adjusted, at, n := Adjusted(s, p, input), input.signal.timestamp, AttemptsOf(w, x.id);
    var submission := SubmissionEffects(w, x, adjusted, at);
    ApplyAllConcat(w, submission, ExecuteEffects(s, x, adjusted, at, input.adapter, n));
    forall status: Status | status in {SUBMITTED, RECONCILED, REJECTED}
      ensures HasStatus(ApplyAll(w, Opening(s, w, input, x)).ledger, x.id, status)
        <==> HasStatus(w.ledger, x.id, status) || status == SUBMITTED
    {
      SubmittedStatus(w, x, adjusted, at, status);
      ExecuteLedger(s, ApplyAll(w, submission), x, adjusted, at, input.adapter, n, x.id, status);
    }
  }

  // The last three closing writes: position, then portfolio, then a checkpoint.
  lemma BookWrites(w1: World, es: seq<Effect>, token: Token, b: Reconciler.Book, j: nat)
    requires |es| == 8 && es[5] == SavePosition(token, b.position) && es[6] == SavePortfolio(b.portfolio)
    requires es[7].SaveCheckpoint? && 6 <= j <= 8
    ensures var v := After(w1, es, 5);
      Rebooked(v, After(w1, es, j), token, if j == 6 then Reconciler.Book(b.position, PortfolioOf(v)) else b)
  {
    var v6, v7 := After(w1, es, 6), After(w1, es, 7);
    assert v6 == Apply(After(w1, es, 5), es[5]);
    assert v7 == Apply(v6, es[6]);
    assert After(w1, es, 8) == Apply(v7, es[7]);
  }

  lemma RebookedFrom(w: World, v: World, c: World, token: Token, b: Reconciler.Book)
    requires SameBook(w, v) && Rebooked(v, c, token, b)
    ensures Rebooked(w, c, token, b)
  {
  }

  // The book at each crash point of the closing writes.
  lemma ClosingBook(
    w: World, w1: World, es: seq<Effect>, x: Intent, noted: Report, entries: seq<LedgerEntry>, token: Token,
    b: Reconciler.Book, j: nat)
    requires Shape(es, x, noted, entries, token, b) && j <= 8
    requires w1.positions == w.positions && w1.portfolio == w.portfolio
    ensures var c := After(w1, es, j);
      && (j <= 5 ==> SameBook(w, c))
      && (j == 6 ==> Rebooked(w, c, token, Reconciler.Book(b.position, PortfolioOf(w))))
      && (j >= 7 ==> Rebooked(w, c, token, b))
  {
    if j <= 5 {
      BookKept(w1, es, j);
    } else {
      BookKept(w1, es, 5);
      BookWrites(w1, es, token, b, j);
      RebookedFrom(
        w, After(w1, es, 5), After(w1, es, j), token,
        if j == 6 then Reconciler.Book(b.position, PortfolioOf(After(w1, es, 5))) else b);
    }
  }

  // The order's row at each crash point ...
  lemma ClosingRow(
    w1: World, es: seq<Effect>, x: Intent, noted: Report, entries: seq<LedgerEntry>, token: Token,
    b: Reconciler.Book, j: nat)
    requires Shape(es, x, noted, entries, token, b) && j <= 8
    requires x.id in w1.orders && w1.orders[x.id].intent == x && w1.orders[x.id].status == noted.status
    ensures var c := After(w1, es, j);
      x.id in c.orders && c.orders[x.id].intent == x && c.orders[x.id].status == noted.status
  {
    if j <= 4 {
      RowBlindPrefix(w1, es, 0, j);
    } else {
      RowBlindPrefix(w1, es, 0, 4);
      assert After(w1, es, 5) == Apply(After(w1, es, 4), es[4]);
      RowBlindPrefix(w1, es, 5, j);
    }
  }

  lemma {:induction false} RowBlindPrefix(w: World, es: seq<Effect>, lo: nat, hi: nat)
    requires lo <= hi <= |es| && forall i | lo <= i < hi :: RowBlind(es[i])
    ensures After(w, es, hi).orders == After(w, es, lo).orders
    decreases hi - lo
  {
    if lo < hi {
      RowBlindPrefix(w, es, lo, hi - 1);
    }
  }

  lemma {:induction false} LedgerKept(w: World, es: seq<Effect>, lo: nat, hi: nat)
    requires lo <= hi <= |es| && forall i | lo <= i < hi :: !es[i].AppendLedger?
    ensures After(w, es, hi).ledger == After(w, es, lo).ledger
    decreases hi - lo
  {
    if lo < hi {
      LedgerKept(w, es, lo, hi - 1);
    }
  }

  lemma {:induction false} ReportsKept(w: World, es: seq<Effect>, lo: nat, hi: nat)
    requires lo <= hi <= |es| && forall i | lo <= i < hi :: !es[i].SaveReport?
    ensures After(w, es, hi).reports == After(w, es, lo).reports
    decreases hi - lo
  {
    if lo < hi {
      ReportsKept(w, es, lo, hi - 1);
    }
  }

  // ... its ledger ...
  lemma ClosingLedger(
    w1: World, es: seq<Effect>, x: Intent, noted: Report, entries: seq<LedgerEntry>, token: Token,
    b: Reconciler.Book, j: nat)
    requires Shape(es, x, noted, entries, token, b) && j <= 8
    ensures After(w1, es, j).ledger == if j <= 3 then w1.ledger else InsertAll(w1.ledger, entries)
  {
    if j <= 3 {
      LedgerKept(w1, es, 0, j);
    } else {
      LedgerKept(w1, es, 0, 3);
      assert After(w1, es, 4) == Apply(After(w1, es, 3), es[3]);
      LedgerKept(w1, es, 4, j);
    }
  }

  // ... and its reports.
  lemma ClosingReports(
    w1: World, es: seq<Effect>, x: Intent, noted: Report, entries: seq<LedgerEntry>, token: Token,
    b: Reconciler.Book, j: nat)
    requires Shape(es, x, noted, entries, token, b) && j <= 8
    ensures After(w1, es, j).reports == if j <= 1 then w1.reports else InsertNew(w1.reports, noted)
  {
    if j <= 1 {
      ReportsKept(w1, es, 0, j);
    } else {
      ReportsKept(w1, es, 0, 1);
      assert After(w1, es, 2) == Apply(After(w1, es, 1), es[1]);
      ReportsKept(w1, es, 2, j);
    }
  }

  lemma ClosesLedger(s: Settings, w: World, input: Input, ledger: seq<LedgerEntry>, report: Report)
    ensures HasStatus(InsertAll(ledger, Entries(s, w, input, report)), report.id, RECONCILED)
  {
    var entries := Entries(s, w, input, report);
    assert entries[2].id == report.id && entries[2].status == RECONCILED;
    AppendedStatus(ledger, entries, report.id, RECONCILED);
  }

  // Nothing in the batch concerns another order.
  lemma FillAboutOnly(s: Settings, w: World, input: Input, x: Intent, report: Report)
    requires Fills(s, w, input, x, report)
    ensures AboutOnly(ProcessEffects(s, w, input), x.id)
  {
    var p := PlanOf(s, w, input);
    var adjusted, at, n := Adjusted(s, p, input), input.signal.timestamp, AttemptsOf(w, x.id);
    FillsEffects(s, w, input, x, report);
    ExecuteAboutOnly(s, x, adjusted, at, input.adapter, n);
    AboutConcat(SubmissionEffects(w, x, adjusted, at), ExecuteEffects(s, x, adjusted, at, input.adapter, n), x.id);
    ClosingShape(s, w, input, x, report);
    var es := Closing(s, w, input, x, report);
    ClosingAboutOnly(
      es, x, Noted(p, report), Entries(s, w, input, report), x.Token(), FillOf(BookOf(w, x.Token()), x, report));
    AboutConcat(Opening(s, w, input, x), es, x.id);
  }

  lemma ClosingAboutOnly(
    es: seq<Effect>, x: Intent, noted: Report, entries: seq<LedgerEntry>, token: Token, b: Reconciler.Book)
    requires Shape(es, x, noted, entries, token, b) && noted.id == x.id
    requires forall i | 0 <= i < |entries| :: entries[i].id == x.id
    ensures AboutOnly(es, x.id)
  {
  }

  // --- the crash windows of processing -----------------------------------------------------------

  // Where the order stands after a crash j effects into the closing writes.
  lemma CrashedOrder(s: Settings, w: World, input: Input, x: Intent, report: Report, j: nat)
    requires Sound(s, w) && Fills(s, w, input, x, report) && j <= 8
    ensures |Closing(s, w, input, x, report)| == 8
    ensures var c := After(ApplyAll(w, Opening(s, w, input, x)), Closing(s, w, input, x, report), j);
      && x.id in c.orders && c.orders[x.id].intent == x && c.orders[x.id].status == report.status
      && HasStatus(c.ledger, x.id, SUBMITTED)
      && (OpenLedger(c, x.id) <==> j <= 3 && OpenLedger(w, x.id))
  {
    var w1, es := ApplyAll(w, Opening(s, w, input, x)), Closing(s, w, input, x, report);
    var noted, entries := Noted(PlanOf(s, w, input), report), Entries(s, w, input, report);
    var b := FillOf(BookOf(w, x.Token()), x, report);
    ClosingShape(s, w, input, x, report);
    Opened(s, w, input, x, report);
    OpenedLedger(s, w, input, x, report);
    ClosingRow(w1, es, x, noted, entries, x.Token(), b, j);
    ClosingLedger(w1, es, x, noted, entries, x.Token(), b, j);
    ClosesLedger(s, w, input, w1.ledger, report);
    AppendedStatus(w1.ledger, entries, x.id, SUBMITTED);
  }

  lemma {:induction false} NoneStored(reports: seq<Report>, id: IntentId)
    requires LatestReport(reports, id) == None
    ensures forall r | r in reports :: r.id != id
    decreases |reports|
  {
    if reports != [] {
      NoneStored(reports[..|reports| - 1], id);
    }
  }

  // The stored report: the bare one, then the one with its context.
  lemma CrashedReport(s: Settings, w: World, input: Input, x: Intent, report: Report, j: nat) returns (stored: Report)
    requires Sound(s, w) && Fills(s, w, input, x, report) && j <= 8
    requires report.status == FILLED || LatestReport(w.reports, x.id) == None
    ensures |Closing(s, w, input, x, report)| == 8
    ensures SameFill(stored, report)
    ensures LatestReport(
      After(ApplyAll(w, Opening(s, w, input, x)), Closing(s, w, input, x, report), j).reports, x.id) == Some(stored)
  {
    var w1, es := ApplyAll(w, Opening(s, w, input, x)), Closing(s, w, input, x, report);
    var noted, entries := Noted(PlanOf(s, w, input), report), Entries(s, w, input, report);
    ClosingShape(s, w, input, x, report);
    Opened(s, w, input, x, report);
    ClosingReports(w1, es, x, noted, entries, x.Token(), FillOf(BookOf(w, x.Token()), x, report), j);
    if report.status != FILLED {
      NoneStored(w.reports, x.id);
    }
    // A filled report for x would mean that x was terminal before.
    assert report !in w.reports && noted !in w.reports;
    LatestAfterInsert(w.reports, report, x.id);
    LatestAfterInsert(w1.reports, noted, x.id);
    stored := if j <= 1 then report else noted;
  }

  // The crashed state as Opening and Closing see it.
  lemma CrashSplit(s: Settings, w: World, input: Input, x: Intent, report: Report, k: nat)
    requires Sound(s, w) && Fills(s, w, input, x, report)
    requires |Opening(s, w, input, x)| <= k <= |ProcessEffects(s, w, input)|
    ensures var j := k - |Opening(s, w, input, x)|;
      && j <= 8 && |Closing(s, w, input, x, report)| == 8
      && After(w, ProcessEffects(s, w, input), k)
           == After(ApplyAll(w, Opening(s, w, input, x)), Closing(s, w, input, x, report), j)
    ensures Sound(s, After(w, ProcessEffects(s, w, input), k))
  {
    ProcessLegal(s, w, input);
    LegalRun(s, w, ProcessEffects(s, w, input), k);
    FillsEffects(s, w, input, x, report);
    ClosingShape(s, w, input, x, report);
    AfterConcat(w, Opening(s, w, input, x), Closing(s, w, input, x, report), k);
  }

  lemma CrashedOrderAt(s: Settings, w: World, input: Input, x: Intent, report: Report, k: nat)
    requires Sound(s, w) && Fills(s, w, input, x, report)
    requires |Opening(s, w, input, x)| <= k <= |ProcessEffects(s, w, input)|
    ensures var c := After(w, ProcessEffects(s, w, input), k);
      && x.id in c.orders && c.orders[x.id].intent == x && c.orders[x.id].status == report.status
      && HasStatus(c.ledger, x.id, SUBMITTED)
      && (OpenLedger(c, x.id) <==> k - |Opening(s, w, input, x)| <= 3 && OpenLedger(w, x.id))
  {
    CrashSplit(s, w, input, x, report, k);
    CrashedOrder(s, w, input, x, report, k - |Opening(s, w, input, x)|);
  }

  lemma CrashedReportAt(s: Settings, w: World, input: Input, x: Intent, report: Report, k: nat) returns (stored: Report)
    requires Sound(s, w) && Fills(s, w, input, x, report)
    requires report.status == FILLED || LatestReport(w.reports, x.id) == None
    requires |Opening(s, w, input, x)| <= k <= |ProcessEffects(s, w, input)|
    ensures SameFill(stored, report)
    ensures LatestReport(After(w, ProcessEffects(s, w, input), k).reports, x.id) == Some(stored)
  {
    CrashSplit(s, w, input, x, report, k);
    stored := CrashedReport(s, w, input, x, report, k - |Opening(s, w, input, x)|);
  }

  lemma CrashedBook(s: Settings, w: World, input: Input, x: Intent, report: Report, k: nat)
    requires Sound(s, w) && Fills(s, w, input, x, report)
    requires |Opening(s, w, input, x)| <= k <= |ProcessEffects(s, w, input)|
    ensures var c, j := After(w, ProcessEffects(s, w, input), k), k - |Opening(s, w, input, x)|;
      var b := FillOf(BookOf(w, x.Token()), x, report);
      && (j <= 5 ==> SameBook(w, c))
      && (j == 6 ==> Rebooked(w, c, x.Token(), Reconciler.Book(b.position, PortfolioOf(w))))
      && (j >= 7 ==> AppliedOnce(w, c, x, report))
  {
    CrashSplit(s, w, input, x, report, k);
    ClosingShape(s, w, input, x, report);
    Opened(s, w, input, x, report);
    ClosingBook(
      w, ApplyAll(w, Opening(s, w, input, x)), Closing(s, w, input, x, report), x, Noted(PlanOf(s, w, input), report),
      Entries(s, w, input, report), x.Token(), FillOf(BookOf(w, x.Token()), x, report), k - |Opening(s, w, input, x)|);
  }

  // The uninterrupted run applies the fill once.
  lemma Uninterrupted(s: Settings, w: World, input: Input, x: Intent, report: Report)
    requires Sound(s, w) && Fills(s, w, input, x, report)
    ensures AppliedOnce(w, ApplyAll(w, ProcessEffects(s, w, input)), x, report)
  {
    FillsEffects(s, w, input, x, report);
    ClosingShape(s, w, input, x, report);
    CrashedBook(s, w, input, x, report, |ProcessEffects(s, w, input)|);
  }

  // A successful execution stores its report last, and stores no other.
  lemma {:induction false} ReportStoredLast(
    s: Settings, intent: Intent, adjusted: real, at: int, adapter: nat -> Outcome, n: nat)
    requires ExecuteResult(s, intent, adapter, n).Some?
    ensures var es := ExecuteEffects(s, intent, adjusted, at, adapter, n);
      && es != []
      && es[|es| - 1] == SaveReport(ExecuteResult(s, intent, adapter, n).value)
      && forall i | 0 <= i < |es| - 1 :: !es[i].SaveReport?
    decreases s.MaxAttempts() - n
  {
    if adapter(n).Raised? {
      ReportStoredLast(s, intent, adjusted, at, adapter, n + 1);
    }
  }

  lemma OpeningEnds(s: Settings, w: World, input: Input, x: Intent, report: Report)
    requires Fills(s, w, input, x, report)
    ensures var es := Opening(s, w, input, x);
      && es != []
      && es[|es| - 1] == SaveReport(report)
      && forall i | 0 <= i < |es| - 1 :: !es[i].SaveReport?
  {
    var p := PlanOf(s, w, input);
    ReportStoredLast(
      s, x, Adjusted(s, p, input), input.signal.timestamp, input.adapter, AttemptsOf(w, x.id));
  }

  lemma CrashSound(s: Settings, w: World, input: Input, k: nat)
    requires Sound(s, w) && k <= |ProcessEffects(s, w, input)|
    ensures Sound(s, After(w, ProcessEffects(s, w, input), k))
  {
    ProcessLegal(s, w, input);
    LegalRun(s, w, ProcessEffects(s, w, input), k);
  }

  // Recovering once more, however the rows are listed, changes neither positions nor portfolio.
  lemma SecondRecoveryIsIdle(
    s: Settings, c: World, rs: seq<Recoverable>, env: IntentId -> Env, rs': seq<Recoverable>, env': IntentId -> Env)
    requires Sound(s, c) && Enumerates(c, rs) && Enumerates(RecoverState(s, c, rs, env), rs')
    ensures SameBook(RecoverState(s, c, rs, env), RecoverState(s, RecoverState(s, c, rs, env), rs', env'))
  {
    RecoveryQuiesces(s, c, rs, env);
    QuiescentRecovery(s, RecoverState(s, c, rs, env), rs', env');
  }

  // --- the crash windows of recovery -------------------------------------------------------------

  // Rows that recovery only takes notice of leave orders, reports, book and every decisive ledger status.
  ghost predicate Quiet(w: World, v: World) {
    && w.orders == v.orders && w.reports == v.reports && SameBook(w, v)
    && forall id: IntentId, status: Status | status != RECOVERED ::
         HasStatus(w.ledger, id, status) <==> HasStatus(v.ledger, id, status)
  }

  lemma QuietNotice(w: World, r: Recoverable, env: Env)
    ensures Quiet(w, ApplyAll(w, [Notice(r, env)]))
  {
    var v, entry := ApplyAll(w, [Notice(r, env)]), RecoveryEntry(r, env.recoveredAt);
    ApplyAllOne(w, Notice(r, env));
    forall id: IntentId, status: Status | status != RECOVERED
      ensures HasStatus(w.ledger, id, status) <==> HasStatus(v.ledger, id, status)
    {
      AppendedStatus(w.ledger, [entry], id, status);
      OneStatus(entry, id, status);
    }
  }

  lemma QuietTransitive(a: World, b: World, c: World)
    requires Quiet(a, b) && Quiet(b, c)
    ensures Quiet(a, c)
  {
  }

  lemma {:induction false} QuietPrefix(s: Settings, c: World, rs: seq<Recoverable>, env: IntentId -> Env, n: nat)
    requires Sound(s, c) && Enumerates(c, rs) && n <= |rs|
    requires forall i | 0 <= i < n :: Inert(s, c, rs[i].intent.id)
    ensures Quiet(c, RecoverState(s, c, rs[..n], env))
    decreases n
  {
    if n > 0 {
      QuietPrefix(s, c, rs, env, n - 1);
      QuietRow(s, c, rs, env, n - 1);
      QuietTransitive(c, RecoverState(s, c, rs[..n - 1], env), RecoverState(s, c, rs[..n], env));
    }
  }

  lemma QuietRow(s: Settings, c: World, rs: seq<Recoverable>, env: IntentId -> Env, i: nat)
    requires Sound(s, c) && Enumerates(c, rs) && i < |rs| && Inert(s, c, rs[i].intent.id)
    ensures Quiet(RecoverState(s, c, rs[..i], env), RecoverState(s, c, rs[..i + 1], env))
  {
    var v := RecoverState(s, c, rs[..i], env);
    AtRow(s, c, rs, env, i);
    InertMoves(s, c, v, rs[i].intent.id);
    InertOnlyNoticed(s, v, rs[i], env(rs[i].intent.id));
    RecoverNext(s, c, rs, env, i);
    QuietNotice(v, rs[i], env(rs[i].intent.id));
  }

  lemma LiveStays(s: Settings, w: World, v: World, x: Intent, report: Report)
    requires OnlyLive(s, w, x, report) && Quiet(w, v)
    ensures OnlyLive(s, v, x, report)
  {
  }

  // The process dies j effects into the row of x: one notice, then the five closing writes.
  ghost predicate DiesAt(
    s: Settings, c: World, x: Intent, rs: seq<Recoverable>, env: IntentId -> Env, i: nat, j: nat, d: World)
  {
    && Enumerates(c, rs) && LiveRow(s, c, rs, x, i)
    && var v := RecoverState(s, c, rs[..i], env);
       var es := RecoverOne(s, v, rs[i], env(x.id));
       j <= |es| && d == After(v, es, j)
  }

  // The row of x before its closing writes, and what those are.
  lemma RowOfX(
    s: Settings, c: World, x: Intent, report: Report, rs: seq<Recoverable>, env: IntentId -> Env, i: nat)
    returns (v1: World)
    requires Sound(s, c) && OnlyLive(s, c, x, report) && Enumerates(c, rs) && LiveRow(s, c, rs, x, i)
    ensures var v := RecoverState(s, c, rs[..i], env);
      && Sound(s, v) && IsRow(v, rs[i])
      && v1 == ApplyAll(v, [Notice(rs[i], env(x.id))])
      && Quiet(c, v) && Quiet(c, v1)
      && RecoverOne(s, v, rs[i], env(x.id))
           == [Notice(rs[i], env(x.id))] + RecoveryClosing(v, rs[i], report, env(x.id))
  {
    var v := RecoverState(s, c, rs[..i], env);
    AtRow(s, c, rs, env, i);
    QuietPrefix(s, c, rs, env, i);
    v1 := ApplyAll(v, [Notice(rs[i], env(x.id))]);
    QuietNotice(v, rs[i], env(x.id));
    QuietTransitive(c, v, v1);
    StoredReport(s, v, rs[i], env(x.id));
    assert [Notice(rs[i], env(x.id))] + [] == [Notice(rs[i], env(x.id))];
  }

  lemma RecoverOneSound(
    s: Settings, c: World, x: Intent, rs: seq<Recoverable>, env: IntentId -> Env, i: nat, j: nat, d: World)
    requires Sound(s, c) && DiesAt(s, c, x, rs, env, i, j, d)
    ensures Sound(s, d)
  {
    var v := RecoverState(s, c, rs[..i], env);
    AtRow(s, c, rs, env, i);
    RecoverOneLegal(s, v, rs[i], env(x.id));
    LegalRun(s, v, RecoverOne(s, v, rs[i], env(x.id)), j);
  }

  // Until the order is marked, x stays the only live order; from then on nothing is live.
  lemma DiedOrder(
    s: Settings, c: World, x: Intent, report: Report, rs: seq<Recoverable>, env: IntentId -> Env, i: nat, j: nat,
    d: World)
    requires Sound(s, c) && OnlyLive(s, c, x, report) && DiesAt(s, c, x, rs, env, i, j, d)
    ensures j <= 6 && (if j <= 4 then OnlyLive(s, d, x, report) else Quiescent(s, d))
  {
    var v := RecoverState(s, c, rs[..i], env);
    var v1 := RowOfX(s, c, x, report, rs, env, i);
    var notice, closing := [Notice(rs[i], env(x.id))], RecoveryClosing(v, rs[i], report, env(x.id));
    AfterConcat(v, notice, closing, j);
    LiveStays(s, c, v, x, report);
    LiveStays(s, c, v1, x, report);
    if j == 0 {
      assert d == v;
    } else {
      DiedRows(s, v, v1, x, rs[i], report, env(x.id), j - 1);
    }
  }

  lemma DiedRows(
    s: Settings, v: World, v1: World, x: Intent, r: Recoverable, report: Report, env: Env, j: nat)
    requires OnlyLive(s, v1, x, report) && r.intent == x && j <= 5
    ensures var d := After(v1, RecoveryClosing(v, r, report, env), j);
      if j <= 3 then OnlyLive(s, d, x, report) else Quiescent(s, d)
  {
    var es := RecoveryClosing(v, r, report, env);
    var d := After(v1, es, j);
    RecoveryClosingRows(v, v1, r, report, env);
    if j <= 3 {
      assert d.orders == v1.orders && d.reports == v1.reports && d.ledger == v1.ledger;
      assert forall id :: IsRecoverable(d, id) <==> IsRecoverable(v1, id);
    } else {
      forall id | id in d.orders && IsRecoverable(d, id)
        ensures Inert(s, d, id)
      {
        RecoveryClosingAbout(v, r, report, env);
        SameRun(v1, es, j, id);
        RecoverableMoves(v1, d, id);
        InertMoves(s, v1, d, id);
      }
    }
  }

  lemma RecoveryClosingAbout(v: World, r: Recoverable, report: Report, env: Env)
    ensures AboutOnly(RecoveryClosing(v, r, report, env), r.intent.id)
  {
  }

  // The book when recovery dies: untouched, then the position alone, then the whole fill.
  lemma DiedBook(
    s: Settings, c: World, x: Intent, report: Report, rs: seq<Recoverable>, env: IntentId -> Env, i: nat, j: nat,
    d: World)
    requires Sound(s, c) && OnlyLive(s, c, x, report) && DiesAt(s, c, x, rs, env, i, j, d)
    ensures var b := FillOf(BookOf(c, x.Token()), x, report);
      && (j <= 2 ==> SameBook(c, d))
      && (j == 3 ==> Rebooked(c, d, x.Token(), Reconciler.Book(b.position, PortfolioOf(c))))
      && (j >= 4 ==> AppliedOnce(c, d, x, report))
  {
    var v := RecoverState(s, c, rs[..i], env);
    var v1 := RowOfX(s, c, x, report, rs, env, i);
    var notice, closing := [Notice(rs[i], env(x.id))], RecoveryClosing(v, rs[i], report, env(x.id));
    DiedOrder(s, c, x, report, rs, env, i, j, d);
    AfterConcat(v, notice, closing, j);
    if j == 0 {
      assert d == v;
    } else {
      DiedClosing(c, v, v1, x, rs[i], report, env(x.id), j - 1);
    }
  }

  lemma DiedClosing(c: World, v: World, v1: World, x: Intent, r: Recoverable, report: Report, env: Env, j: nat)
    requires SameBook(c, v) && SameBook(c, v1) && r.intent == x && j <= 5
    ensures var d := After(v1, RecoveryClosing(v, r, report, env), j);
      var b := FillOf(BookOf(c, x.Token()), x, report);
      && (j <= 1 ==> SameBook(c, d))
      && (j == 2 ==> Rebooked(c, d, x.Token(), Reconciler.Book(b.position, PortfolioOf(c))))
      && (j >= 3 ==> AppliedOnce(c, d, x, report))
  {
    var es := RecoveryClosing(v, r, report, env);
    RecoveryClosingBooks(v, v1, r, report, env);
    var d := After(v1, es, j);
    if j == 0 {
      assert d == v1;
    } else if j == 2 {
      var b := FillOf(BookOf(v1, x.Token()), x, report);
      RebookedFrom(c, v1, d, x.Token(), Reconciler.Book(b.position, PortfolioOf(v1)));
    } else if j >= 3 {
      SameThenApplied(c, v1, d, x, report);
    }
  }

  // The last resort is not idempotent: a recovery that dies right after the position write is replayed on top of
  // it, and one that dies between the portfolio write and marking the order applies the fill twice.
  lemma CrashDuringRecovery(
    s: Settings, c: World, x: Intent, report: Report, rs: seq<Recoverable>, env: IntentId -> Env, i: nat, j: nat,
    d: World, rs': seq<Recoverable>, env': IntentId -> Env)
    requires Sound(s, c) && OnlyLive(s, c, x, report) && DiesAt(s, c, x, rs, env, i, j, d)
    requires Enumerates(d, rs')
    ensures var once := FillOf(BookOf(c, x.Token()), x, report);
      var final := RecoverState(s, d, rs', env');
      && (j <= 2 || j >= 5 ==> Rebooked(c, final, x.Token(), once))
      && (j == 3 ==> Rebooked(
            c, final, x.Token(), FillOf(Reconciler.Book(once.position, PortfolioOf(c)), x, report)))
      && (j == 4 ==> Rebooked(c, final, x.Token(), FillOf(once, x, report)))
  {
    RecoverOneSound(s, c, x, rs, env, i, j, d);
    DiedOrder(s, c, x, report, rs, env, i, j, d);
    DiedBook(s, c, x, report, rs, env, i, j, d);
    if j <= 4 {
      LiveRecovery(s, d, rs', env', x, report);
    } else {
      QuiescentRecovery(s, d, rs', env');
    }
  }

  // For a BUY the windows are exact: the final portfolio is the single application's unless recovery died
  // between writing the portfolio and marking the order.
  lemma RecoveryPortfolioExact(
    s: Settings, c: World, x: Intent, report: Report, rs: seq<Recoverable>, env: IntentId -> Env, i: nat, j: nat,
    d: World, rs': seq<Recoverable>, env': IntentId -> Env)
    requires Sound(s, c) && OnlyLive(s, c, x, report) && DiesAt(s, c, x, rs, env, i, j, d)
    requires Enumerates(d, rs') && x.Action() == BUY
    ensures PortfolioOf(RecoverState(s, d, rs', env')) == FillOf(BookOf(c, x.Token()), x, report).portfolio <==> j != 4
  {
    var once := FillOf(BookOf(c, x.Token()), x, report);
    CrashDuringRecovery(s, c, x, report, rs, env, i, j, d, rs', env');
    BuyCounts(BookOf(c, x.Token()), once.position, x, report);
    BuyCounts(once, once.position, x, report);
  }

  // A fill's effect on the portfolio does not depend on the position, and a BUY always counts.
  lemma BuyCounts(b: Reconciler.Book, p: PositionState, x: Intent, report: Report)
    requires x.Action() == BUY
    ensures FillOf(Reconciler.Book(p, b.portfolio), x, report).portfolio == FillOf(b, x, report).portfolio
    ensures FillOf(b, x, report).portfolio.openPositions == b.portfolio.openPositions + 1
  {
  }

  // Recovery dies between the portfolio write and marking the order.
  ghost predicate Relapse(s: Settings, x: Intent, d: World, d': World) {
    exists rs, env, i :: DiesAt(s, d, x, rs, env, i, 4, d')
  }

  lemma RelapseOnce(s: Settings, x: Intent, report: Report, d: World, d': World)
    requires Relapse(s, x, d, d') && Sound(s, d) && OnlyLive(s, d, x, report)
    ensures Sound(s, d') && OnlyLive(s, d', x, report) && AppliedOnce(d, d', x, report)
  {
    var rs, env, i :| DiesAt(s, d, x, rs, env, i, 4, d');
    RecoverOneSound(s, d, x, rs, env, i, 4, d');
    DiedOrder(s, d, x, report, rs, env, i, 4, d');
    DiedBook(s, d, x, report, rs, env, i, 4, d');
  }

  // Dying there n times in a row counts a bought position n times over; the order stays live all along.
  lemma {:induction false} RepeatedDeaths(s: Settings, x: Intent, report: Report, ds: seq<World>, n: nat)
    requires n < |ds| && Sound(s, ds[0]) && OnlyLive(s, ds[0], x, report) && x.Action() == BUY
    requires forall m | 0 <= m < n :: Relapse(s, x, ds[m], ds[m + 1])
    ensures Sound(s, ds[n]) && OnlyLive(s, ds[n], x, report)
    ensures PortfolioOf(ds[n]).openPositions == PortfolioOf(ds[0]).openPositions + n
    decreases n
  {
    if n > 0 {
      RepeatedDeaths(s, x, report, ds, n - 1);
      RelapseOnce(s, x, report, ds[n - 1], ds[n]);
    }
  }
}
