// core/pipeline.py as effects: which durable writes and dispatches processing and recovery make, in order.
module Pipeline {
  import opened Schemas
  import opened World
  import opened Router
  import opened Reconciler
  import RiskEngine
  import StateEngine

  // What the adapter does on one attempt: raise, or report.
  datatype Outcome =
    | Raised(message: string)
    | Reported(status: FillStatus, executedUsd: real, timestamp: int, message: string)

  function ReportOf(intent: Intent, o: Outcome): Report
    requires o.Reported?
  {
    Report(intent.id, o.status, o.executedUsd, o.timestamp, o.message, None)
  }

  // One batch of events for one token: the signal built from it, and what the clock, the balance provider
  // and the adapter answer while it is processed. Attempts are numbered by the stored attempt counter.
  datatype Input = Input(
    signal: TokenSignal,
    balanceUsd: Option<real>,
    policyAt: int,
    riskAt: int,
    adapter: nat -> Outcome,
    reconciledAt: int)

  function KeyOf(signal: TokenSignal): FsmKey { FsmKey(signal.chain, signal.token) }

  // --- deciding ----------------------------------------------------------------------------------

  // Everything process_events works out before it writes anything.
  datatype Plan = Plan(
    transition: StateTransition,
    checkpoint: StateEngine.Checkpoint,
    fsm: FsmContext,
    position: PositionState,
    portfolio: Portfolio,
    intent: Option<Intent>)

  function PlanOf(s: Settings, w: World, input: Input): Plan {
    var g := input.signal;
    var ck := CheckpointOf(w, KeyOf(g));
    var (transition, checkpoint) := StateEngine.Step(s.minTransitionInterval, ck, g);
    var position := PositionOf(w, g.token);
    var fsm := FsmContext(
      g.chain, g.token, transition.previous, transition.next, transition.changed, checkpoint.lastTransition);
    Plan(
      transition, checkpoint, fsm, position, PortfolioOf(w),
      Route(g, transition.next, position, READY).intent)
  }

  function RiskContext(s: Settings, p: Plan, input: Input): RiskEngine.Context
    requires p.intent.Some?
  {
    RiskEngine.Context(s, input.signal, p.intent.value, p.position, p.portfolio, input.balanceUsd, input.policyAt)
  }

  ghost predicate Allowed(s: Settings, p: Plan, input: Input) {
    p.intent.Some? && RiskEngine.Clean(RiskContext(s, p, input))
  }

  ghost function Adjusted(s: Settings, p: Plan, input: Input): real {
    if Allowed(s, p, input) then RiskEngine.SizedNotional(RiskContext(s, p, input)) else 0.0
  }

  // --- submitting and executing ------------------------------------------------------------------

  function SubmittedEntry(id: IntentId, adjusted: real, at: int, fsm: Option<FsmContext>): LedgerEntry {
    LedgerEntry(id, SUBMISSION, SUBMITTED, adjusted, "intent_created", at, fsm)
  }

  // _record_submission for an order that is not terminal.
  function SubmissionEffects(w: World, intent: Intent, adjusted: real, at: int): seq<Effect> {
    [
      UpsertOrder(intent, adjusted, StatusOf(w, intent.id).GetOr(SUBMITTED), AttemptsOf(w, intent.id)),
      AppendLedger([SubmittedEntry(intent.id, adjusted, at, None)])
    ]
  }

  function FailureStatus(s: Settings, attempts: nat): Status {
    if attempts >= s.MaxAttempts() then REJECTED else RETRY
  }

  function FailureEntry(id: IntentId, adjusted: real, message: string, at: int): LedgerEntry {
    LedgerEntry(id, EXECUTION, RETRYABLE_ERROR, adjusted, message, at, None)
  }

  // One failed attempt, numbered by the counter it starts from.
  function FailedAttempt(
    s: Settings, intent: Intent, adjusted: real, attempts: nat, message: string, at: int): seq<Effect>
  {
    [
      SetAttempts(intent.id, attempts + 1),
      Dispatch(intent.id),
      MarkOrder(intent.id, FailureStatus(s, attempts + 1)),
      AppendLedger([FailureEntry(intent.id, adjusted, message, at)])
    ]
  }

  function SuccessfulAttempt(intent: Intent, attempts: nat, report: Report): seq<Effect> {
    [
      SetAttempts(intent.id, attempts + 1),
      Dispatch(intent.id),
      MarkOrder(intent.id, report.status),
      SaveReport(report)
    ]
  }

  function AttemptEffects(
    s: Settings, intent: Intent, adjusted: real, at: int, adapter: nat -> Outcome, attempts: nat): (es: seq<Effect>)
    ensures |es| == 4
  {
    match adapter(attempts)
    case Raised(message) => FailedAttempt(s, intent, adjusted, attempts, message, at)
    case Reported(_, _, _, _) => SuccessfulAttempt(intent, attempts, ReportOf(intent, adapter(attempts)))
  }

  // The number of attempts made before execution stops, from a given counter.
  function LastAttempt(s: Settings, adapter: nat -> Outcome, attempts: nat): (n: nat)
    ensures attempts <= n
    ensures attempts < s.MaxAttempts() ==> attempts < n <= s.MaxAttempts()
    ensures attempts >= s.MaxAttempts() ==> n == attempts
    decreases s.MaxAttempts() - attempts
  {
    if attempts >= s.MaxAttempts() then attempts
    else if adapter(attempts).Reported? then attempts + 1
    else LastAttempt(s, adapter, attempts + 1)
  }

  // _execute_intent: its effects from a stored attempt counter.
  function ExecuteEffects(
    s: Settings, intent: Intent, adjusted: real, at: int, adapter: nat -> Outcome, attempts: nat): seq<Effect>
    decreases s.MaxAttempts() - attempts
  {
    if attempts >= s.MaxAttempts() then []
    else
      AttemptEffects(s, intent, adjusted, at, adapter, attempts)
      + if adapter(attempts).Reported? then []
        else ExecuteEffects(s, intent, adjusted, at, adapter, attempts + 1)
  }

  // ... and the report it returns.
  function ExecuteResult(s: Settings, intent: Intent, adapter: nat -> Outcome, attempts: nat): (r: Option<Report>)
    ensures r.Some? ==> r.value.id == intent.id && r.value.fsm.None?
    decreases s.MaxAttempts() - attempts
  {
    if attempts >= s.MaxAttempts() then None
    else if adapter(attempts).Reported? then Some(ReportOf(intent, adapter(attempts)))
    else ExecuteResult(s, intent, adapter, attempts + 1)
  }

  // --- persisting --------------------------------------------------------------------------------

  // AuditRepository.save_pipeline_result; an empty ledger is not written at all.
  function AuditEffects(
    row: Decisions, execution: Option<Report>, result: Reconciliation, entries: seq<LedgerEntry>): seq<Effect>
  {
    [SaveDecisions(row)]
    + (if execution.Some? then [SaveReport(execution.value)] else [])
    + [SaveReconciliation(result)]
    + (if entries == [] then [] else [AppendLedger(entries)])
  }

  function RejectionEntries(p: Plan, input: Input, id: IntentId): seq<LedgerEntry> {
    [
      SubmittedEntry(id, 0.0, input.signal.timestamp, Some(p.fsm)),
      LedgerEntry(id, RISK, REJECTED, 0.0, "risk_rejected", input.riskAt, Some(p.fsm))
    ]
  }

  function FilledEntries(p: Plan, input: Input, report: Report, adjusted: real): seq<LedgerEntry> {
    [
      SubmittedEntry(report.id, adjusted, input.signal.timestamp, Some(p.fsm)),
      LedgerEntry(
        report.id, EXECUTION, report.status, report.executedUsd, report.message, report.timestamp, Some(p.fsm)),
      LedgerEntry(
        report.id, RECONCILIATION, RECONCILED, adjusted, "execution_reconciled", input.reconciledAt, Some(p.fsm))
    ]
  }

  // StateRepository writes of persist_pipeline_result, then the checkpoint.
  function BookEffects(p: Plan, input: Input, result: Reconciliation): seq<Effect> {
    [
      SavePosition(input.signal.token, result.position),
      SavePortfolio(result.portfolio),
      SaveCheckpoint(KeyOf(input.signal), p.checkpoint)
    ]
  }

  // Nothing to trade: the unchanged book is written back.
  function IdleClosing(p: Plan, input: Input): seq<Effect> {
    var result := Verdict(p.position, p.portfolio, None, false, None, input.reconciledAt);
    AuditEffects(Decisions(input.signal, p.transition, None, false), None, result, [])
    + BookEffects(p, input, result)
  }

  function RejectedClosing(w: World, p: Plan, input: Input, intent: Intent): seq<Effect> {
    var result := Verdict(p.position, p.portfolio, Some(intent), false, None, input.reconciledAt);
    AuditEffects(
      Decisions(input.signal, p.transition, Some(intent), false), None, result, RejectionEntries(p, input, intent.id))
    + [UpsertOrder(intent, 0.0, REJECTED, AttemptsOf(w, intent.id))]
    + BookEffects(p, input, result)
  }

  // The report as process_events hands it on, with the state-machine context attached.
  function Noted(p: Plan, report: Report): Report { report.(fsm := Some(p.fsm)) }

  function Settled(p: Plan, input: Input, intent: Intent, report: Report): Reconciliation {
    Verdict(p.position, p.portfolio, Some(intent), true, Some(Noted(p, report)), input.reconciledAt)
  }

  // The ledger closes before the book is written.
  function FilledClosing(
    p: Plan, input: Input, intent: Intent, report: Report, adjusted: real, attempts: nat): seq<Effect>
  {
    AuditEffects(
      Decisions(input.signal, p.transition, Some(intent), true), Some(Noted(p, report)),
      Settled(p, input, intent, report), FilledEntries(p, input, Noted(p, report), adjusted))
    + [UpsertOrder(intent, adjusted, report.status, attempts)]
    + BookEffects(p, input, Settled(p, input, intent, report))
  }

  // --- process_events ----------------------------------------------------------------------------

  predicate AlreadyTerminal(w: World, id: IntentId) { StatusOf(w, id).Some? && Terminal(StatusOf(w, id).value) }

  // Submission and execution of an allowed intent.
  function OpeningEffects(s: Settings, w: World, input: Input, intent: Intent, adjusted: real): seq<Effect> {
    SubmissionEffects(w, intent, adjusted, input.signal.timestamp)
    + ExecuteEffects(s, intent, adjusted, input.signal.timestamp, input.adapter, AttemptsOf(w, intent.id))
  }

  // ... then the closing writes, unless every attempt failed.
  function TradeEffects(s: Settings, w: World, p: Plan, input: Input, intent: Intent, adjusted: real): seq<Effect> {
    var attempts := AttemptsOf(w, intent.id);
    var result := ExecuteResult(s, intent, input.adapter, attempts);
    OpeningEffects(s, w, input, intent, adjusted)
    + if result.None? then []
      else FilledClosing(p, input, intent, result.value, adjusted, LastAttempt(s, input.adapter, attempts))
  }

  ghost function ProcessEffects(s: Settings, w: World, input: Input): seq<Effect> {
    var p := PlanOf(s, w, input);
    if p.intent.None? then
      IdleClosing(p, input)
    else if AlreadyTerminal(w, p.intent.value.id) then
      [SaveCheckpoint(KeyOf(input.signal), p.checkpoint)]
    else if !Allowed(s, p, input) then
      RejectedClosing(w, p, input, p.intent.value)
    else
      TradeEffects(s, w, p, input, p.intent.value, Adjusted(s, p, input))
  }

  // process_events raises execution_exhausted and leaves the batch to the dead-letter stream.
  ghost predicate Exhausted(s: Settings, w: World, input: Input) {
    var p := PlanOf(s, w, input);
    && p.intent.Some?
    && !AlreadyTerminal(w, p.intent.value.id)
    && Allowed(s, p, input)
    && ExecuteResult(s, p.intent.value, input.adapter, AttemptsOf(w, p.intent.value.id)).None?
  }

  // --- recover_pending_executions ----------------------------------------------------------------

  datatype Env = Env(recoveredAt: int, adapter: nat -> Outcome, riskAt: int, reconciledAt: int)

  function RecoveryMessage(status: Status): string {
    if status == FILLED then "recovered_filled"
    else if status == RETRY then "recovered_retry"
    else "recovered_submitted"
  }

  function RecoveryEntry(r: Recoverable, at: int): LedgerEntry {
    LedgerEntry(r.intent.id, RECOVERY, RECOVERED, r.adjustedUsd, RecoveryMessage(r.status), at, None)
  }

  function ReconciledEntry(id: IntentId, report: Report, at: int): LedgerEntry {
    LedgerEntry(id, RECONCILIATION, RECONCILED, report.executedUsd, "execution_reconciled", at, None)
  }

  // The report recovery works from: the stored one for a FILLED order, else a fresh execution.
  function RecoveredReport(s: Settings, w: World, r: Recoverable, env: Env): Option<Report> {
    if r.status == FILLED then LatestReport(w.reports, r.intent.id)
    else ExecuteResult(s, r.intent, env.adapter, AttemptsOf(w, r.intent.id))
  }

  function RecoveryExecution(s: Settings, w: World, r: Recoverable, env: Env): seq<Effect> {
    if r.status == FILLED then []
    else ExecuteEffects(s, r.intent, r.adjustedUsd, env.riskAt, env.adapter, AttemptsOf(w, r.intent.id))
  }

  function Recovered(w: World, r: Recoverable, report: Report, at: int): Reconciliation {
    Verdict(PositionOf(w, r.intent.Token()), PortfolioOf(w), Some(r.intent), true, Some(report), at)
  }

  // Recovery writes the book before it closes the order and the ledger.
  function RecoveryClosing(w: World, r: Recoverable, report: Report, env: Env): seq<Effect> {
    var result := Recovered(w, r, report, env.reconciledAt);
    [
      SaveReconciliation(result),
      SavePosition(r.intent.Token(), result.position),
      SavePortfolio(result.portfolio),
      MarkOrder(r.intent.id, RECONCILED),
      AppendLedger([ReconciledEntry(r.intent.id, report, env.reconciledAt)])
    ]
  }

  function RecoverOne(s: Settings, w: World, r: Recoverable, env: Env): seq<Effect> {
    var report := RecoveredReport(s, w, r, env);
    [AppendLedger([RecoveryEntry(r, env.recoveredAt)])]
    + RecoveryExecution(s, w, r, env)
    + if report.None? then [] else RecoveryClosing(w, r, report.value, env)
  }

  // The rows are read once; each is then handled in the state the previous ones left.
  function RecoverEffects(s: Settings, w: World, rs: seq<Recoverable>, env: IntentId -> Env): seq<Effect>
    decreases |rs|
  {
    if rs == [] then []
    else
      var n := |rs| - 1;
      var before := RecoverEffects(s, w, rs[..n], env);
      before + RecoverOne(s, ApplyAll(w, before), rs[n], env(rs[n].intent.id))
  }

  function RecoverState(s: Settings, w: World, rs: seq<Recoverable>, env: IntentId -> Env): World {
    ApplyAll(w, RecoverEffects(s, w, rs, env))
  }

  // The intents whose fill was applied, in row order.
  function RecoveredIds(s: Settings, w: World, rs: seq<Recoverable>, env: IntentId -> Env): seq<IntentId>
    decreases |rs|
  {
    if rs == [] then []
    else
      var n := |rs| - 1;
      RecoveredIds(s, w, rs[..n], env)
      + if RecoveredReport(s, RecoverState(s, w, rs[..n], env), rs[n], env(rs[n].intent.id)).Some?
        then [rs[n].intent.id] else []
  }

  lemma RecoverNext(s: Settings, w: World, rs: seq<Recoverable>, env: IntentId -> Env, i: nat)
    requires i < |rs|
    ensures var before := RecoverState(s, w, rs[..i], env);
      var es := RecoverOne(s, before, rs[i], env(rs[i].intent.id));
      && RecoverState(s, w, rs[..i + 1], env) == ApplyAll(before, es)
      && RecoverEffects(s, w, rs[..i + 1], env) == RecoverEffects(s, w, rs[..i], env) + es
      && RecoveredIds(s, w, rs[..i + 1], env) ==
           RecoveredIds(s, w, rs[..i], env)
           + if RecoveredReport(s, before, rs[i], env(rs[i].intent.id)).Some? then [rs[i].intent.id] else []
  {
    assert rs[..i + 1][..i] == rs[..i];
    var before := RecoverEffects(s, w, rs[..i], env);
    ApplyAllConcat(w, before, RecoverOne(s, ApplyAll(w, before), rs[i], env(rs[i].intent.id)));
  }

  // Submission and execution never write positions or the portfolio.
  predicate TouchesBook(e: Effect) { e.SavePosition? || e.SavePortfolio? }

  lemma {:induction false} BookKept(w: World, es: seq<Effect>, k: nat)
    requires k <= |es| && forall i | 0 <= i < k :: !TouchesBook(es[i])
    ensures After(w, es, k).positions == w.positions && After(w, es, k).portfolio == w.portfolio
    decreases k
  {
    if k > 0 {
      BookKept(w, es, k - 1);
    }
  }

  lemma {:induction false} ExecuteKeepsBook(
    s: Settings, intent: Intent, adjusted: real, at: int, adapter: nat -> Outcome, attempts: nat)
    ensures forall e | e in ExecuteEffects(s, intent, adjusted, at, adapter, attempts) :: !TouchesBook(e)
    decreases s.MaxAttempts() - attempts
  {
    if attempts < s.MaxAttempts() {
      ExecuteKeepsBook(s, intent, adjusted, at, adapter, attempts + 1);
    }
  }

  lemma ResumeKeepsBook(s: Settings, w: World, r: Recoverable, env: Env)
    ensures var es := [AppendLedger([RecoveryEntry(r, env.recoveredAt)])] + RecoveryExecution(s, w, r, env);
      ApplyAll(w, es).positions == w.positions && ApplyAll(w, es).portfolio == w.portfolio
  {
    var es := [AppendLedger([RecoveryEntry(r, env.recoveredAt)])] + RecoveryExecution(s, w, r, env);
    ExecuteKeepsBook(s, r.intent, r.adjustedUsd, env.riskAt, env.adapter, AttemptsOf(w, r.intent.id));
    BookKept(w, es, |es|);
  }
}
