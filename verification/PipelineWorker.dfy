// core/pipeline.py: the worker object, proved to make exactly the effects that Pipeline specifies.
module PipelineWorker {
  import opened Schemas
  import opened World
  import opened Pipeline
  import opened Repository
  import opened Reconciler
  import opened Router
  import RiskEngine
  import StateEngine

  // No effect ever removes an order row.
  lemma {:induction false} OrdersGrow(w: World, es: seq<Effect>, k: nat)
    requires k <= |es|
    ensures w.orders.Keys <= After(w, es, k).orders.Keys
    decreases k
  {
    if k > 0 {
      OrdersGrow(w, es, k - 1);
    }
  }

  class Worker {
    const settings: Settings
    const repository: StorageRepository
    var positionState: PositionState
    var portfolioSnapshot: Portfolio
    var consecutiveAdapterFailures: nat
    var consecutiveRiskRejections: nat

    constructor (settings: Settings, repository: StorageRepository)
      ensures this.settings == settings && this.repository == repository
      ensures consecutiveAdapterFailures == 0 && consecutiveRiskRejections == 0
    {
      this.settings := settings;
      this.repository := repository;
      positionState, portfolioSnapshot := CLOSED, FRESH;
      consecutiveAdapterFailures, consecutiveRiskRejections := 0, 0;
    }

    // The store went through exactly these effects, one after another.
    twostate predicate Ran(es: seq<Effect>)
      reads repository
    {
      && repository.log == old(repository.log) + es
      && repository.View() == ApplyAll(old(repository.View()), es)
    }

    // One attempt's bookkeeping: count it, then call the adapter.
    method BeginAttempt(intent: Intent) returns (next: nat)
      modifies repository
      ensures next == AttemptsOf(old(repository.View()), intent.id) + 1
      ensures Ran([SetAttempts(intent.id, next), Dispatch(intent.id)])
    {
      next := repository.IncrementExecutionAttempts(intent.id);
      repository.NoteDispatch(intent.id);
      Two(old(repository.View()), SetAttempts(intent.id, next), Dispatch(intent.id));
    }

    method RecordFailure(intent: Intent, adjusted: real, message: string, at: int, maxAttempts: int)
      modifies repository
      ensures var status := if AttemptsOf(old(repository.View()), intent.id) >= maxAttempts then REJECTED else RETRY;
        Ran([MarkOrder(intent.id, status), AppendLedger([FailureEntry(intent.id, adjusted, message, at)])])
    {
      var attempts := if intent.id in repository.orders then repository.orders[intent.id].attempts else 0;
      var status := if attempts >= maxAttempts then REJECTED else RETRY;
      repository.MarkOrderStatus(intent.id, status);
      var entries := [FailureEntry(intent.id, adjusted, message, at)];
      repository.AppendExecutionLedger(entries);
      Two(old(repository.View()), MarkOrder(intent.id, status), AppendLedger(entries));
    }

    method RecordSuccess(intent: Intent, report: Report)
      modifies repository
      ensures Ran([MarkOrder(intent.id, report.status), SaveReport(report)])
    {
      repository.MarkOrderStatus(intent.id, report.status);
      repository.SaveExecutionReport(report);
      Two(old(repository.View()), MarkOrder(intent.id, report.status), SaveReport(report));
    }

    // What follows the adapter call.
    method Conclude(intent: Intent, adjusted: real, at: int, outcome: Outcome, ghost n: nat)
      returns (execution: Option<Report>)
      requires intent.id in repository.orders && repository.orders[intent.id].attempts == n + 1
      modifies this`consecutiveAdapterFailures, repository
      ensures Ran(Conclusion(settings, intent, adjusted, at, outcome, n))
      ensures execution == if outcome.Reported? then Some(ReportOf(intent, outcome)) else None
      ensures consecutiveAdapterFailures == if execution.Some? then 0 else old(consecutiveAdapterFailures) + 1
    {
      match outcome {
        case Raised(message) =>
          consecutiveAdapterFailures := consecutiveAdapterFailures + 1;
          RecordFailure(intent, adjusted, message, at, settings.maxRetries + 1);
          execution := None;
        case Reported(status, executed, timestamp, message) =>
          consecutiveAdapterFailures := 0;
          execution := Some(Report(intent.id, status, executed, timestamp, message, None));
          RecordSuccess(intent, execution.value);
      }
    }

    // The body of the retry loop.
    method Attempt(intent: Intent, adjusted: real, at: int, adapter: nat -> Outcome, ghost n: nat)
      returns (execution: Option<Report>)
      requires intent.id in repository.orders && repository.orders[intent.id].attempts == n
      modifies this`consecutiveAdapterFailures, repository
      ensures Ran(AttemptEffects(settings, intent, adjusted, at, adapter, n))
      ensures intent.id in repository.orders && repository.orders[intent.id].attempts == n + 1
      ensures execution == if adapter(n).Reported? then Some(ReportOf(intent, adapter(n))) else None
      ensures consecutiveAdapterFailures == if execution.Some? then 0 else old(consecutiveAdapterFailures) + 1
    {
      AttemptSplit(repository.View(), settings, intent, adjusted, at, adapter, n);
      var next := BeginAttempt(intent);
      execution := Conclude(intent, adjusted, at, adapter(next - 1), n);
    }

    // At most one adapter call per number left in the stored counter.
    method ExecuteIntent(intent: Intent, adjusted: real, at: int, adapter: nat -> Outcome)
      returns (execution: Option<Report>)
      requires intent.id in repository.orders
      modifies this`consecutiveAdapterFailures, repository
      ensures var attempts := AttemptsOf(old(repository.View()), intent.id);
        && Ran(ExecuteEffects(settings, intent, adjusted, at, adapter, attempts))
        && execution == ExecuteResult(settings, intent, adapter, attempts)
        && intent.id in repository.orders
        && AttemptsOf(repository.View(), intent.id) == LastAttempt(settings, adapter, attempts)
        && consecutiveAdapterFailures ==
             if execution.Some? then 0
             else old(consecutiveAdapterFailures) + LastAttempt(settings, adapter, attempts) - attempts
    {
      var n := if intent.id in repository.orders then repository.orders[intent.id].attempts else 0;
      ghost var c := Call(settings, intent, adjusted, at, adapter);
      ghost var w0, log0, done: seq<Effect>, first := repository.View(), repository.log, [], n;
      execution := None;
      while n < settings.maxRetries + 1 && execution.None?
        invariant intent.id in repository.orders && repository.orders[intent.id].attempts == n
        invariant repository.log == log0 + done && repository.View() == ApplyAll(w0, done)
        invariant c.Reaches(first, done, n, execution)
        invariant consecutiveAdapterFailures ==
          if execution.Some? then 0 else old(consecutiveAdapterFailures) + n - first
        decreases settings.maxRetries + 1 - n
      {
        ghost var es := AttemptEffects(settings, intent, adjusted, at, adapter, n);
        c.Advance(first, done, n);
        ApplyAllConcat(w0, done, es);
        execution := Attempt(intent, adjusted, at, adapter, n);
        done := done + es;
        n := n + 1;
      }
      c.Stop(first, done, n, execution);
    }

    // _record_submission: nothing at all for a terminal order.
    method RecordSubmission(intent: Intent, adjusted: real, at: int)
      modifies repository
      ensures var w := old(repository.View());
        if AlreadyTerminal(w, intent.id) then Ran([])
        else
          && Ran(SubmissionEffects(w, intent, adjusted, at))
          && intent.id in repository.orders
          && AttemptsOf(repository.View(), intent.id) == AttemptsOf(w, intent.id)
    {
      var existing := if intent.id in repository.orders then Some(repository.orders[intent.id].status) else None;
      if existing.Some? && Terminal(existing.value) {
        assert repository.log + [] == repository.log;
        return;
      }
      var attempts := if intent.id in repository.orders then repository.orders[intent.id].attempts else 0;
      var status := if existing.Some? then existing.value else SUBMITTED;
      repository.Upsert(intent, adjusted, status, attempts);
      var entries := [SubmittedEntry(intent.id, adjusted, at, None)];
      repository.AppendExecutionLedger(entries);
      Two(old(repository.View()), UpsertOrder(intent, adjusted, status, attempts), AppendLedger(entries));
    }

    // AuditRepository.save_pipeline_result
    method SaveAudit(row: Decisions, execution: Option<Report>, result: Reconciliation, entries: seq<LedgerEntry>)
      modifies repository
      ensures Ran(AuditEffects(row, execution, result, entries))
      ensures repository.orders == old(repository.orders)
    {
      ghost var w := repository.View();
      repository.SaveDecisionRows(row);
      ghost var done := [SaveDecisions(row)];
      ApplyAllOne(w, SaveDecisions(row));
      if execution.Some? {
        repository.SaveExecutionReport(execution.value);
        ApplyAllSnoc(w, done, SaveReport(execution.value));
        done := done + [SaveReport(execution.value)];
      }
      repository.SaveReconciliationResult(result);
      ApplyAllSnoc(w, done, SaveReconciliation(result));
      done := done + [SaveReconciliation(result)];
      if entries != [] {
        repository.AppendExecutionLedger(entries);
        ApplyAllSnoc(w, done, AppendLedger(entries));
        done := done + [AppendLedger(entries)];
      }
      assert AuditEffects(row, execution, result, entries) == done;
    }

    method SaveBook(plan: Plan, input: Input, result: Reconciliation)
      modifies repository
      ensures Ran(BookEffects(plan, input, result))
    {
      ghost var w := repository.View();
      ghost var es := BookEffects(plan, input, result);
      repository.StorePosition(input.signal.token, result.position);
      ApplyAllOne(w, es[0]);
      repository.StorePortfolio(result.portfolio);
      ApplyAllSnoc(w, [es[0]], es[1]);
      repository.StoreCheckpoint(KeyOf(input.signal), plan.checkpoint);
      ApplyAllSnoc(w, [es[0]] + [es[1]], es[2]);
      assert es == [es[0]] + [es[1]] + [es[2]];
    }

    method MakePlan(input: Input) returns (plan: Plan)
      modifies this`positionState, this`portfolioSnapshot
      ensures plan == PlanOf(settings, repository.View(), input)
      ensures positionState == plan.position && portfolioSnapshot == plan.portfolio
    {
      var g := input.signal;
      positionState := if g.token in repository.positions then repository.positions[g.token] else CLOSED;
      portfolioSnapshot := if repository.portfolio.Some? then repository.portfolio.value else FRESH;
      var key := KeyOf(g);
      var ck := if key in repository.checkpoints then Some(repository.checkpoints[key]) else None;
      var (transition, checkpoint) := StateEngine.Step(settings.minTransitionInterval, ck, g);
      var fsm := FsmContext(
        g.chain, g.token, transition.previous, transition.next, transition.changed, checkpoint.lastTransition);
      var route := Route(g, transition.next, positionState, READY);
      plan := Plan(transition, checkpoint, fsm, positionState, portfolioSnapshot, route.intent);
    }

    // Raised with execution_exhausted when exhausted; the batch is then dead-lettered.
    method ProcessEvents(input: Input) returns (exhausted: bool, execution: Option<Report>)
      modifies this, repository
      ensures Ran(ProcessEffects(settings, old(repository.View()), input))
      ensures exhausted == Exhausted(settings, old(repository.View()), input)
      // The worker's memory agrees with the store unless processing raised.
      ensures !exhausted ==>
        && positionState == PositionOf(repository.View(), input.signal.token)
        && portfolioSnapshot == PortfolioOf(repository.View())
    {
      ghost var w := repository.View();
      exhausted, execution := false, None;
      var plan := MakePlan(input);
      if plan.intent.None? {
        Idle(plan, input);
        return;
      }
      var intent := plan.intent.value;
      var status := if intent.id in repository.orders then Some(repository.orders[intent.id].status) else None;
      var risk := RiskEngine.Evaluate(RiskContext(settings, plan, input));
      consecutiveRiskRejections := if risk.allowed then 0 else consecutiveRiskRejections + 1;
      if status.Some? && Terminal(status.value) {
        repository.StoreCheckpoint(KeyOf(input.signal), plan.checkpoint);
        ApplyAllOne(w, SaveCheckpoint(KeyOf(input.signal), plan.checkpoint));
      } else if !risk.allowed {
        Reject(plan, input, intent);
      } else {
        exhausted, execution := Trade(plan, input, intent, risk.adjustedUsd);
      }
    }

    method Idle(plan: Plan, input: Input)
      requires plan.position == positionState && plan.portfolio == portfolioSnapshot
      modifies repository
      ensures Ran(IdleClosing(plan, input))
      ensures plan.position == PositionOf(repository.View(), input.signal.token)
      ensures plan.portfolio == PortfolioOf(repository.View())
    {
      var result := ReconcileExecution(positionState, portfolioSnapshot, None, false, None, input.reconciledAt);
      ghost var w := repository.View();
      var row := Decisions(input.signal, plan.transition, None, false);
      SaveAudit(row, None, result, []);
      ghost var w1 := repository.View();
      SaveBook(plan, input, result);
      ApplyAllConcat(w, AuditEffects(row, None, result, []), BookEffects(plan, input, result));
      BookWritten(w1, plan, input, result);
    }

    method Reject(plan: Plan, input: Input, intent: Intent)
      requires plan.position == positionState && plan.portfolio == portfolioSnapshot
      modifies repository
      ensures Ran(RejectedClosing(old(repository.View()), plan, input, intent))
      ensures plan.position == PositionOf(repository.View(), input.signal.token)
      ensures plan.portfolio == PortfolioOf(repository.View())
    {
      ghost var w := repository.View();
      var result := ReconcileExecution(
        positionState, portfolioSnapshot, Some(intent), false, None, input.reconciledAt);
      var row := Decisions(input.signal, plan.transition, Some(intent), false);
      ClosePipeline(plan, input, intent, row, None, result, RejectionEntries(plan, input, intent.id), 0.0, REJECTED);
    }

    // persist_pipeline_result and _save_fsm_checkpoint for a decision that carries an intent.
    method ClosePipeline(
      plan: Plan, input: Input, intent: Intent, row: Decisions, execution: Option<Report>,
      result: Reconciliation, entries: seq<LedgerEntry>, adjusted: real, status: Status)
      modifies repository
      ensures var attempts := AttemptsOf(old(repository.View()), intent.id);
        Ran(AuditEffects(row, execution, result, entries)
            + [UpsertOrder(intent, adjusted, status, attempts)]
            + BookEffects(plan, input, result))
      ensures result.position == PositionOf(repository.View(), input.signal.token)
      ensures result.portfolio == PortfolioOf(repository.View())
    {
      ghost var w := repository.View();
      ghost var audit := AuditEffects(row, execution, result, entries);
      SaveAudit(row, execution, result, entries);
      var attempts := if intent.id in repository.orders then repository.orders[intent.id].attempts else 0;
      repository.Upsert(intent, adjusted, status, attempts);
      ghost var upsert := UpsertOrder(intent, adjusted, status, attempts);
      ApplyAllSnoc(w, audit, upsert);
      ghost var w1 := repository.View();
      SaveBook(plan, input, result);
      ApplyAllConcat(w, audit + [upsert], BookEffects(plan, input, result));
      BookWritten(w1, plan, input, result);
    }

    // _execute: submission, then the retry loop.
    method Open(intent: Intent, adjusted: real, input: Input) returns (execution: Option<Report>)
      requires !AlreadyTerminal(repository.View(), intent.id)
      modifies this`consecutiveAdapterFailures, repository
      ensures Ran(OpeningEffects(settings, old(repository.View()), input, intent, adjusted))
      ensures var attempts := AttemptsOf(old(repository.View()), intent.id);
        && execution == ExecuteResult(settings, intent, input.adapter, attempts)
        && AttemptsOf(repository.View(), intent.id) == LastAttempt(settings, input.adapter, attempts)
    {
      ghost var w := repository.View();
      RecordSubmission(intent, adjusted, input.signal.timestamp);
      execution := ExecuteIntent(intent, adjusted, input.signal.timestamp, input.adapter);
      ApplyAllConcat(
        w, SubmissionEffects(w, intent, adjusted, input.signal.timestamp),
        ExecuteEffects(settings, intent, adjusted, input.signal.timestamp, input.adapter, AttemptsOf(w, intent.id)));
    }

    method Settle(plan: Plan, input: Input, intent: Intent, adjusted: real, execution: Report)
      returns (noted: Report)
      requires plan.position == positionState && plan.portfolio == portfolioSnapshot
      modifies this`positionState, this`portfolioSnapshot, repository
      ensures Ran(FilledClosing(
        plan, input, intent, execution, adjusted, AttemptsOf(old(repository.View()), intent.id)))
      ensures noted == Noted(plan, execution)
      ensures positionState == PositionOf(repository.View(), input.signal.token)
      ensures portfolioSnapshot == PortfolioOf(repository.View())
    {
      noted := execution.(fsm := Some(plan.fsm));
      var result := ReconcileExecution(
        positionState, portfolioSnapshot, Some(intent), true, Some(noted), input.reconciledAt);
      positionState, portfolioSnapshot := result.position, result.portfolio;
      var row := Decisions(input.signal, plan.transition, Some(intent), true);
      ClosePipeline(
        plan, input, intent, row, Some(noted), result, FilledEntries(plan, input, noted, adjusted), adjusted,
        noted.status);
    }

    method Trade(plan: Plan, input: Input, intent: Intent, adjusted: real)
      returns (exhausted: bool, execution: Option<Report>)
      requires plan.position == positionState && plan.portfolio == portfolioSnapshot
      requires !AlreadyTerminal(repository.View(), intent.id)
      modifies this`consecutiveAdapterFailures, this`positionState, this`portfolioSnapshot, repository
      ensures Ran(TradeEffects(settings, old(repository.View()), plan, input, intent, adjusted))
      ensures exhausted == ExecuteResult(
        settings, intent, input.adapter, AttemptsOf(old(repository.View()), intent.id)).None?
      ensures !exhausted ==>
        && positionState == PositionOf(repository.View(), input.signal.token)
        && portfolioSnapshot == PortfolioOf(repository.View())
    {
      ghost var w := repository.View();
      ghost var opening := OpeningEffects(settings, w, input, intent, adjusted);
      execution := Open(intent, adjusted, input);
      exhausted := execution.None?;
      if exhausted {
        assert opening + [] == opening;
        return;
      }
      ghost var closing := FilledClosing(
        plan, input, intent, execution.value, adjusted, AttemptsOf(repository.View(), intent.id));
      var noted := Settle(plan, input, intent, adjusted, execution.value);
      execution := Some(noted);
      ApplyAllConcat(w, opening, closing);
    }

    // recover_pending_executions for one row of the query: note it, and get hold of a report.
    method Resume(r: Recoverable, env: Env) returns (execution: Option<Report>)
      requires r.intent.id in repository.orders
      modifies this`consecutiveAdapterFailures, repository
      ensures var w := old(repository.View());
        && Ran([AppendLedger([RecoveryEntry(r, env.recoveredAt)])] + RecoveryExecution(settings, w, r, env))
        && execution == RecoveredReport(settings, w, r, env)
    {
      ghost var w := repository.View();
      var entries := [RecoveryEntry(r, env.recoveredAt)];
      repository.AppendExecutionLedger(entries);
      ghost var noticed := [AppendLedger(entries)];
      ApplyAllOne(w, AppendLedger(entries));
      if r.status == FILLED {
        execution := repository.LoadLatestExecutionReport(r.intent.id);
        assert noticed + [] == noticed;
      } else {
        execution := ExecuteIntent(r.intent, r.adjustedUsd, env.riskAt, env.adapter);
        ApplyAllConcat(w, noticed, RecoveryExecution(settings, w, r, env));
      }
    }

    method Recover(r: Recoverable, env: Env) returns (applied: bool)
      requires r.intent.id in repository.orders
      modifies this, repository
      ensures Ran(RecoverOne(settings, old(repository.View()), r, env))
      ensures applied == RecoveredReport(settings, old(repository.View()), r, env).Some?
    {
      ghost var w := repository.View();
      var token := r.intent.Token();
      positionState := if token in repository.positions then repository.positions[token] else CLOSED;
      portfolioSnapshot := if repository.portfolio.Some? then repository.portfolio.value else FRESH;
      var execution := Resume(r, env);
      ghost var resumed := [AppendLedger([RecoveryEntry(r, env.recoveredAt)])] + RecoveryExecution(settings, w, r, env);
      applied := execution.Some?;
      if applied {
        ResumeKeepsBook(settings, w, r, env);
        CloseRecovery(r, execution.value, env);
        ApplyAllConcat(w, resumed, RecoveryClosing(w, r, execution.value, env));
      } else {
        assert resumed + [] == resumed;
      }
    }

    method CloseRecovery(r: Recoverable, report: Report, env: Env)
      requires positionState == PositionOf(repository.View(), r.intent.Token())
      requires portfolioSnapshot == PortfolioOf(repository.View())
      modifies this`positionState, this`portfolioSnapshot, repository
      ensures Ran(RecoveryClosing(old(repository.View()), r, report, env))
    {
      ghost var w := repository.View();
      ghost var es := RecoveryClosing(w, r, report, env);
      var result := ReconcileExecution(
        positionState, portfolioSnapshot, Some(r.intent), true, Some(report), env.reconciledAt);
      positionState, portfolioSnapshot := result.position, result.portfolio;
      repository.SaveReconciliationResult(result);
      ApplyAllOne(w, es[0]);
      repository.StorePosition(r.intent.Token(), result.position);
      ApplyAllSnoc(w, es[..1], es[1]);
      repository.StorePortfolio(result.portfolio);
      ApplyAllSnoc(w, es[..2], es[2]);
      repository.MarkOrderStatus(r.intent.id, RECONCILED);
      ApplyAllSnoc(w, es[..3], es[3]);
      repository.AppendExecutionLedger([ReconciledEntry(r.intent.id, report, env.reconciledAt)]);
      ApplyAllSnoc(w, es[..4], es[4]);
      assert es[..1] == [es[0]] && es[..2] == es[..1] + [es[1]] && es[..3] == es[..2] + [es[2]];
      assert es[..4] == es[..3] + [es[3]] && es == es[..4] + [es[4]];
    }

    // One turn of the recovery loop, relative to the state and the rows it started from.
    method RecoverAt(ghost w: World, ghost log0: seq<Effect>, rows: seq<Recoverable>, i: nat, env: IntentId -> Env)
      returns (applied: bool)
      requires i < |rows| && Enumerates(w, rows)
      requires repository.View() == RecoverState(settings, w, rows[..i], env)
      requires repository.log == log0 + RecoverEffects(settings, w, rows[..i], env)
      modifies this, repository
      ensures repository.View() == RecoverState(settings, w, rows[..i + 1], env)
      ensures repository.log == log0 + RecoverEffects(settings, w, rows[..i + 1], env)
      ensures RecoveredIds(settings, w, rows[..i + 1], env) ==
        RecoveredIds(settings, w, rows[..i], env) + if applied then [rows[i].intent.id] else []
    {
      RowStillThere(settings, w, rows, env, i);
      RecoverNext(settings, w, rows, env, i);
      ghost var before := RecoverEffects(settings, w, rows[..i], env);
      ghost var es := RecoverOne(settings, ApplyAll(w, before), rows[i], env(rows[i].intent.id));
      Associate(log0, before, es);
      applied := Recover(rows[i], env(rows[i].intent.id));
    }

    method RecoverPendingExecutions(env: IntentId -> Env) returns (recovered: seq<IntentId>, ghost rs: seq<Recoverable>)
      modifies this, repository
      ensures Enumerates(old(repository.View()), rs)
      ensures Ran(RecoverEffects(settings, old(repository.View()), rs, env))
      ensures recovered == RecoveredIds(settings, old(repository.View()), rs, env)
    {
      ghost var w, log0 := repository.View(), repository.log;
      var rows := repository.LoadRecoverableIntents();
      rs := rows;
      recovered := [];
      var i := 0;
      while i < |rows|
        invariant 0 <= i <= |rows|
        invariant repository.View() == RecoverState(settings, w, rows[..i], env)
        invariant repository.log == log0 + RecoverEffects(settings, w, rows[..i], env)
        invariant recovered == RecoveredIds(settings, w, rows[..i], env)
      {
        var applied := RecoverAt(w, log0, rows, i, env);
        if applied {
          recovered := recovered + [rows[i].intent.id];
        }
        i := i + 1;
      }
      assert rows[..i] == rows;
    }
  }

  lemma Associate(a: seq<Effect>, b: seq<Effect>, c: seq<Effect>)
    ensures (a + b) + c == a + (b + c)
  {
  }

  lemma RowStillThere(s: Settings, w: World, rs: seq<Recoverable>, env: IntentId -> Env, i: nat)
    requires Enumerates(w, rs) && i < |rs|
    ensures rs[i].intent.id in RecoverState(s, w, rs[..i], env).orders
  {
    assert IsRow(w, rs[i]);
    var before := RecoverEffects(s, w, rs[..i], env);
    OrdersGrow(w, before, |before|);
  }

  lemma BookWritten(w: World, plan: Plan, input: Input, result: Reconciliation)
    ensures var w' := ApplyAll(w, BookEffects(plan, input, result));
      && PositionOf(w', input.signal.token) == result.position
      && PortfolioOf(w') == result.portfolio
  {
    var es := BookEffects(plan, input, result);
    assert After(w, es, 0) == w;
    assert After(w, es, 1) == Apply(w, es[0]);
    assert After(w, es, 2) == Apply(After(w, es, 1), es[1]);
    assert After(w, es, 3) == Apply(After(w, es, 2), es[2]);
  }

  // The arguments of one _execute_intent call, and how far its loop has come.
  datatype Call = Call(s: Settings, intent: Intent, adjusted: real, at: int, adapter: nat -> Outcome) {
    function Effects(n: nat): seq<Effect> { ExecuteEffects(s, intent, adjusted, at, adapter, n) }

    // After the effects done the counter stands at n, with the report if an attempt has produced one.
    ghost predicate Reaches(first: nat, done: seq<Effect>, n: nat, report: Option<Report>) {
      && first <= n
      && Effects(first) == done + (if report.Some? then [] else Effects(n))
      && ExecuteResult(s, intent, adapter, first) ==
           (if report.Some? then report else ExecuteResult(s, intent, adapter, n))
      && LastAttempt(s, adapter, first) == if report.Some? then n else LastAttempt(s, adapter, n)
    }

    lemma Advance(first: nat, done: seq<Effect>, n: nat)
      requires Reaches(first, done, n, None) && n < s.MaxAttempts()
      ensures var report := if adapter(n).Reported? then Some(ReportOf(intent, adapter(n))) else None;
        Reaches(first, done + AttemptEffects(s, intent, adjusted, at, adapter, n), n + 1, report)
    {
    }

    lemma Stop(first: nat, done: seq<Effect>, n: nat, report: Option<Report>)
      requires Reaches(first, done, n, report) && (report.Some? || n >= s.MaxAttempts())
      ensures Effects(first) == done
      ensures ExecuteResult(s, intent, adapter, first) == report && LastAttempt(s, adapter, first) == n
    {
    }
  }

  lemma Two(w: World, a: Effect, b: Effect)
    ensures ApplyAll(w, [a, b]) == Apply(Apply(w, a), b)
  {
    assert After(w, [a, b], 1) == Apply(w, a) by { assert After(w, [a, b], 0) == w; }
  }

  function Conclusion(
    s: Settings, intent: Intent, adjusted: real, at: int, outcome: Outcome, n: nat): seq<Effect>
  {
    match outcome
    case Raised(message) =>
      [MarkOrder(intent.id, FailureStatus(s, n + 1)), AppendLedger([FailureEntry(intent.id, adjusted, message, at)])]
    case Reported(_, _, _, _) =>
      [MarkOrder(intent.id, ReportOf(intent, outcome).status), SaveReport(ReportOf(intent, outcome))]
  }

  // An attempt's effects in two halves: before the adapter call, and after it.
  lemma AttemptSplit(
    w: World, s: Settings, intent: Intent, adjusted: real, at: int, adapter: nat -> Outcome, n: nat)
    requires intent.id in w.orders
    ensures var begun := [SetAttempts(intent.id, n + 1), Dispatch(intent.id)];
      var rest := Conclusion(s, intent, adjusted, at, adapter(n), n);
      var es := AttemptEffects(s, intent, adjusted, at, adapter, n);
      && es == begun + rest
      && ApplyAll(w, es) == ApplyAll(ApplyAll(w, begun), rest)
      && intent.id in ApplyAll(w, begun).orders && ApplyAll(w, begun).orders[intent.id].attempts == n + 1
      && intent.id in ApplyAll(w, es).orders && ApplyAll(w, es).orders[intent.id].attempts == n + 1
  {
  }
}
