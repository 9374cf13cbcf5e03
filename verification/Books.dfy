// Positions and portfolio as the rest of the system reads them, and what single steps do to them.
module Books {
  import opened Schemas
  import opened World
  import opened Pipeline
  import opened OrderLifecycle
  import Reconciler

  // The same book, read through load_position and load_portfolio.
  ghost predicate SameBook(w: World, w': World) {
    && (forall t: Token :: PositionOf(w, t) == PositionOf(w', t))
    && PortfolioOf(w) == PortfolioOf(w')
  }

  function BookOf(w: World, token: Token): Reconciler.Book {
    Reconciler.Book(PositionOf(w, token), PortfolioOf(w))
  }

  function FillOf(b: Reconciler.Book, intent: Intent, report: Report): Reconciler.Book {
    Reconciler.Applied(b, intent.Action(), intent.VenueType(), report.executedUsd, report.timestamp)
  }

  // w' is w with one token's book replaced.
  ghost predicate Rebooked(w: World, w': World, token: Token, b: Reconciler.Book) {
    && (forall t: Token :: PositionOf(w', t) == if t == token then b.position else PositionOf(w, t))
    && PortfolioOf(w') == b.portfolio
  }

  // w' is w after exactly one application of a fill.
  ghost predicate AppliedOnce(w: World, w': World, intent: Intent, report: Report) {
    Rebooked(w, w', intent.Token(), FillOf(BookOf(w, intent.Token()), intent, report))
  }

  // Two reports of the same fill, whatever context is attached.
  predicate SameFill(a: Report, b: Report) {
    a.id == b.id && a.status == b.status && a.executedUsd == b.executedUsd && a.timestamp == b.timestamp
  }

  lemma AppliedThenSame(w: World, v: World, v': World, intent: Intent, r: Report)
    requires AppliedOnce(w, v, intent, r) && SameBook(v, v')
    ensures AppliedOnce(w, v', intent, r)
  {
  }

  lemma SameThenApplied(w: World, v: World, v': World, intent: Intent, r: Report)
    requires SameBook(w, v) && AppliedOnce(v, v', intent, r)
    ensures AppliedOnce(w, v', intent, r)
  {
  }

  lemma BookKeptSame(w: World, es: seq<Effect>, k: nat)
    requires k <= |es| && forall i | 0 <= i < k :: !TouchesBook(es[i])
    ensures SameBook(w, After(w, es, k))
  {
    BookKept(w, es, k);
  }

  // --- what one recovered row does ---------------------------------------------------------------

  // Recovery can do nothing with this order: FILLED without a stored report, or no attempts left.
  ghost predicate Inert(s: Settings, w: World, id: IntentId) {
    && id in w.orders
    && if w.orders[id].status == FILLED then LatestReport(w.reports, id).None?
       else w.orders[id].attempts >= s.MaxAttempts()
  }

  // Nothing is left for recovery to do.
  ghost predicate Quiescent(s: Settings, w: World) {
    forall id | id in w.orders && IsRecoverable(w, id) :: Inert(s, w, id)
  }

  function Notice(r: Recoverable, env: Env): Effect { AppendLedger([RecoveryEntry(r, env.recoveredAt)]) }

  lemma InertOnlyNoticed(s: Settings, w: World, r: Recoverable, env: Env)
    requires IsRow(w, r) && Inert(s, w, r.intent.id)
    ensures RecoverOne(s, w, r, env) == [Notice(r, env)]
    ensures SameBook(w, ApplyAll(w, RecoverOne(s, w, r, env)))
  {
    BookKeptSame(w, [Notice(r, env)], 1);
  }

  lemma Unroll5(w: World, es: seq<Effect>)
    requires |es| == 5
    ensures After(w, es, 1) == Apply(w, es[0])
    ensures After(w, es, 2) == Apply(After(w, es, 1), es[1])
    ensures After(w, es, 3) == Apply(After(w, es, 2), es[2])
    ensures After(w, es, 4) == Apply(After(w, es, 3), es[3])
    ensures After(w, es, 5) == Apply(After(w, es, 4), es[4])
  {
  }

  // The five closing writes of recovery: the book after each of them ...
  lemma RecoveryClosingBooks(w: World, v: World, r: Recoverable, report: Report, env: Env)
    requires BookOf(w, r.intent.Token()) == BookOf(v, r.intent.Token())
    ensures var es := RecoveryClosing(w, r, report, env);
      var b := FillOf(BookOf(v, r.intent.Token()), r.intent, report);
      && SameBook(v, After(v, es, 1))
      && Rebooked(v, After(v, es, 2), r.intent.Token(), Reconciler.Book(b.position, PortfolioOf(v)))
      && (forall j | 3 <= j <= 5 :: AppliedOnce(v, After(v, es, j), r.intent, report))
  {
    var es := RecoveryClosing(w, r, report, env);
    Unroll5(v, es);
    var c := After(v, es, 3);
    assert AppliedOnce(v, c, r.intent, report);
    forall j | 3 <= j <= 5
      ensures AppliedOnce(v, After(v, es, j), r.intent, report)
    {
      assert j == 3 || j == 4 || j == 5;
      assert After(v, es, j).positions == c.positions && After(v, es, j).portfolio == c.portfolio;
    }
  }

  // ... and the order and its ledger.
  lemma RecoveryClosingRows(w: World, v: World, r: Recoverable, report: Report, env: Env)
    requires r.intent.id in v.orders
    ensures var es := RecoveryClosing(w, r, report, env);
      && (forall j | 0 <= j <= 3 ::
            var c := After(v, es, j); c.orders == v.orders && c.reports == v.reports && c.ledger == v.ledger)
      && StatusOf(After(v, es, 4), r.intent.id) == Some(RECONCILED)
      && StatusOf(After(v, es, 5), r.intent.id) == Some(RECONCILED)
      && HasStatus(After(v, es, 5).ledger, r.intent.id, RECONCILED)
  {
    var es := RecoveryClosing(w, r, report, env);
    Unroll5(v, es);
    var entry := ReconciledEntry(r.intent.id, report, env.reconciledAt);
    AppendedStatus(v.ledger, [entry], r.intent.id, RECONCILED);
    OneStatus(entry, r.intent.id, RECONCILED);
    forall j | 0 <= j <= 3
      ensures After(v, es, j).orders == v.orders
      ensures After(v, es, j).reports == v.reports && After(v, es, j).ledger == v.ledger
    {
      assert j == 0 || j == 1 || j == 2 || j == 3;
    }
  }

  // --- executing leaves these traces -------------------------------------------------------------

  lemma AttemptTraces(
    s: Settings, w: World, intent: Intent, adjusted: real, at: int, adapter: nat -> Outcome, n: nat)
    ensures var v := ApplyAll(w, AttemptEffects(s, intent, adjusted, at, adapter, n));
      if adapter(n).Reported? then
        v.reports == InsertNew(w.reports, ReportOf(intent, adapter(n))) && v.ledger == w.ledger
      else
        && v.reports == w.reports
        && v.ledger == InsertAll(w.ledger, [FailureEntry(intent.id, adjusted, adapter(n).message, at)])
  {
    Four(w, AttemptEffects(s, intent, adjusted, at, adapter, n));
  }

  lemma {:induction false} ExecuteReports(
    s: Settings, w: World, intent: Intent, adjusted: real, at: int, adapter: nat -> Outcome, n: nat)
    ensures var result := ExecuteResult(s, intent, adapter, n);
      ApplyAll(w, ExecuteEffects(s, intent, adjusted, at, adapter, n)).reports
      == if result.None? then w.reports else InsertNew(w.reports, result.value)
    decreases s.MaxAttempts() - n
  {
    if n < s.MaxAttempts() {
      var first := AttemptEffects(s, intent, adjusted, at, adapter, n);
      AttemptTraces(s, w, intent, adjusted, at, adapter, n);
      ApplyAllConcat(w, first, Remaining(s, intent, adjusted, at, adapter, n));
      if adapter(n).Raised? {
        ExecuteReports(s, ApplyAll(w, first), intent, adjusted, at, adapter, n + 1);
      }
    }
  }

  // Execution writes no ledger status that opens or closes an order.
  lemma {:induction false} ExecuteLedger(
    s: Settings, w: World, intent: Intent, adjusted: real, at: int, adapter: nat -> Outcome, n: nat,
    id: IntentId, status: Status)
    requires status != RETRYABLE_ERROR
    ensures HasStatus(ApplyAll(w, ExecuteEffects(s, intent, adjusted, at, adapter, n)).ledger, id, status)
      <==> HasStatus(w.ledger, id, status)
    decreases s.MaxAttempts() - n
  {
    if n < s.MaxAttempts() {
      var first := AttemptEffects(s, intent, adjusted, at, adapter, n);
      AttemptTraces(s, w, intent, adjusted, at, adapter, n);
      ApplyAllConcat(w, first, Remaining(s, intent, adjusted, at, adapter, n));
      if adapter(n).Raised? {
        FailureLedger(w.ledger, FailureEntry(intent.id, adjusted, adapter(n).message, at), id, status);
        ExecuteLedger(s, ApplyAll(w, first), intent, adjusted, at, adapter, n + 1, id, status);
      }
    }
  }

  lemma FailureLedger(ledger: seq<LedgerEntry>, entry: LedgerEntry, id: IntentId, status: Status)
    requires entry.status == RETRYABLE_ERROR && status != RETRYABLE_ERROR
    ensures HasStatus(InsertAll(ledger, [entry]), id, status) <==> HasStatus(ledger, id, status)
  {
    AppendedStatus(ledger, [entry], id, status);
    OneStatus(entry, id, status);
  }

  // --- one recovered row, completely -------------------------------------------------------------

  lemma ResumedBook(s: Settings, w: World, r: Recoverable, env: Env)
    ensures SameBook(w, ApplyAll(w, [Notice(r, env)] + RecoveryExecution(s, w, r, env)))
  {
    ResumeKeepsBook(s, w, r, env);
  }

  // Either the fill is applied once and the ledger closed, or the book is untouched and nothing is left to do.
  lemma RecoverOneOutcome(s: Settings, w: World, r: Recoverable, env: Env)
    requires Sound(s, w) && IsRow(w, r)
    ensures var report := RecoveredReport(s, w, r, env);
      var w' := ApplyAll(w, RecoverOne(s, w, r, env));
      if report.Some? then
        AppliedOnce(w, w', r.intent, report.value) && HasStatus(w'.ledger, r.intent.id, RECONCILED)
      else
        && SameBook(w, w')
        && (StatusOf(w', r.intent.id) == Some(REJECTED) || Inert(s, w', r.intent.id))
  {
    var report := RecoveredReport(s, w, r, env);
    var resumed := [Notice(r, env)] + RecoveryExecution(s, w, r, env);
    var v := ApplyAll(w, resumed);
    ResumedBook(s, w, r, env);
    ResumedRow(s, w, r, env);
    if report.Some? {
      var closing := RecoveryClosing(w, r, report.value, env);
      ApplyAllConcat(w, resumed, closing);
      RecoveryClosingBooks(w, v, r, report.value, env);
      RecoveryClosingRows(w, v, r, report.value, env);
      SameThenApplied(w, v, ApplyAll(v, closing), r.intent, report.value);
    } else {
      assert resumed + [] == resumed;
    }
  }

  lemma ResumedRow(s: Settings, w: World, r: Recoverable, env: Env)
    requires Sound(s, w) && IsRow(w, r)
    ensures var v := ApplyAll(w, [Notice(r, env)] + RecoveryExecution(s, w, r, env));
      && r.intent.id in v.orders
      && (RecoveredReport(s, w, r, env).None? ==>
            StatusOf(v, r.intent.id) == Some(REJECTED) || Inert(s, v, r.intent.id))
  {
    var id, n := r.intent.id, AttemptsOf(w, r.intent.id);
    var w1 := ApplyAll(w, [Notice(r, env)]);
    var run := RecoveryExecution(s, w, r, env);
    ApplyAllOne(w, Notice(r, env));
    ApplyAllConcat(w, [Notice(r, env)], run);
    if r.status != FILLED {
      assert CountDispatches(w.dispatches, id) <= AttemptsOf(w, id);
      ExecuteLegal(s, w1, r.intent, r.adjustedUsd, env.riskAt, env.adapter, n);
    }
  }
}
