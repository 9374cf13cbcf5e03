// What core/pipeline.py writes down about its orders: decisions, reports, amounts and ledger entries, in the fields of
// the signal, the settings and the store, for every batch and recovery; and what backs them over whole runs.
module AuditTrail {
  import opened Schemas
  import opened World
  import opened Pipeline
  import opened OrderLifecycle
  import opened CrashRecovery
  import opened CrashWindows
  import opened OrderOrigins
  import RiskEngine
  import StateEngine

  // --- attempts ----------------------------------------------------------------------------------

  // The adapter's answer of this attempt is this report.
  predicate Answered(adapter: nat -> Outcome, n: nat, r: Report) {
    && adapter(n).Reported?
    && r.status == adapter(n).status && r.executedUsd == adapter(n).executedUsd
    && r.timestamp == adapter(n).timestamp && r.message == adapter(n).message
  }

  predicate AllRaised(adapter: nat -> Outcome, from: nat, to: nat) {
    forall n: nat | from <= n < to :: adapter(n).Raised?
  }

  // An execution ends with the first attempt that reports, and without a report exactly if every attempt left raises.
  lemma {:induction false} ResultExactly(s: Settings, x: Intent, adapter: nat -> Outcome, n: nat)
    ensures var result, last := ExecuteResult(s, x, adapter, n), LastAttempt(s, adapter, n);
      && (result.Some? ==>
            && n < last <= s.MaxAttempts() && AllRaised(adapter, n, last - 1)
            && result.value.id == x.id && Answered(adapter, last - 1, result.value) && result.value.fsm == None)
      && (result.None? ==> AllRaised(adapter, n, last) && (last == s.MaxAttempts() || last == n >= s.MaxAttempts()))
    decreases s.MaxAttempts() - n
  {
    if n < s.MaxAttempts() {
      ResultExactly(s, x, adapter, n + 1);
    }
  }

  // --- what one execution writes down ------------------------------------------------------------

  ghost predicate SomeAnswer(adapter: nat -> Outcome, r: Report) { exists n: nat :: Answered(adapter, n, r) }

  ghost predicate SomeError(adapter: nat -> Outcome, message: string) {
    exists n: nat :: adapter(n) == Raised(message)
  }

  // A failed attempt: the amount that was permitted, the adapter's own words, and when.
  ghost predicate IsError(entry: LedgerEntry, id: IntentId, adjusted: real, at: int, adapter: nat -> Outcome) {
    && entry.id == id && entry.stage == EXECUTION && entry.status == RETRYABLE_ERROR
    && entry.notionalUsd == adjusted && entry.timestamp == at && SomeError(adapter, entry.message)
    && entry.fsm == None
  }

  ghost predicate Executes(e: Effect, id: IntentId, adjusted: real, at: int, adapter: nat -> Outcome) {
    match e
    case SetAttempts(i, _) => i == id
    case Dispatch(i) => i == id
    case MarkOrder(i, _) => i == id
    case SaveReport(r) => r.id == id && SomeAnswer(adapter, r) && r.fsm == None
    case AppendLedger(entries) => forall entry | entry in entries :: IsError(entry, id, adjusted, at, adapter)
    case _ => false
  }

  lemma {:induction false} ExecutionRecorded(
    s: Settings, x: Intent, adjusted: real, at: int, adapter: nat -> Outcome, n: nat)
    ensures forall e | e in ExecuteEffects(s, x, adjusted, at, adapter, n) :: Executes(e, x.id, adjusted, at, adapter)
    decreases s.MaxAttempts() - n
  {
    if n < s.MaxAttempts() {
      AttemptRecorded(s, x, adjusted, at, adapter, n);
      ExecutionRecorded(s, x, adjusted, at, adapter, n + 1);
    }
  }

  lemma AttemptRecorded(s: Settings, x: Intent, adjusted: real, at: int, adapter: nat -> Outcome, n: nat)
    ensures forall e | e in AttemptEffects(s, x, adjusted, at, adapter, n) :: Executes(e, x.id, adjusted, at, adapter)
  {
    match adapter(n) {
      case Raised(message) => assert SomeError(adapter, message);
      case Reported(_, _, _, _) => assert Answered(adapter, n, ReportOf(x, adapter(n)));
    }
  }

  // --- what one batch writes down ----------------------------------------------------------------

  // The step that the machine took on the signal.
  predicate Describes(s: Settings, w: World, g: TokenSignal, c: FsmContext) {
    var ck := CheckpointOf(w, KeyOf(g));
    var was, now := StateEngine.PersistedState(ck), Reached(s, w, g);
    && c.chain == g.chain && c.token == g.token
    && c.previous == was && c.current == now && (c.changed <==> now != was)
    && c.lastTransition == if now != was then Some(g.timestamp) else StateEngine.LastTransition(ck)
  }

  ghost predicate DescribesAny(s: Settings, w: World, g: TokenSignal, c: Option<FsmContext>) {
    c.Some? ==> Describes(s, w, g, c.value)
  }

  // The decisions: the signal, the step, the order planned, and whether it was permitted.
  ghost predicate RowRecorded(s: Settings, w: World, input: Input, row: Decisions) {
    var g, t := input.signal, row.transition;
    var was, now := StateEngine.PersistedState(CheckpointOf(w, KeyOf(g))), Reached(s, w, g);
    && row.signal == g && row.intent == PlanOf(s, w, input).intent
    && t.previous == was && t.next == now && (t.changed <==> now != was) && t.timestamp == g.timestamp
    && (row.allowed <==> row.intent.Some? && Permits(s, w, input, row.intent.value))
  }

  // The amount that was permitted, which is the size that risk gave it, or nothing.
  ghost function AmountOf(s: Settings, w: World, input: Input, x: Intent): real
    requires PlanOf(s, w, input).intent == Some(x)
  {
    if Permits(s, w, input, x) then RiskEngine.SizedNotional(RiskContext(s, PlanOf(s, w, input), input)) else 0.0
  }

  // The ledger: what was asked for, what the adapter said, and what was settled, or that risk refused it.
  ghost predicate EntryRecorded(s: Settings, w: World, input: Input, x: Intent, entry: LedgerEntry)
    requires PlanOf(s, w, input).intent == Some(x)
  {
    var permitted, amount := Permits(s, w, input, x), AmountOf(s, w, input, x);
    && entry.id == x.id && DescribesAny(s, w, input.signal, entry.fsm)
    && match entry.stage
       case SUBMISSION =>
         && entry.status == SUBMITTED && entry.notionalUsd == amount && entry.timestamp == input.signal.timestamp
       case RISK =>
         !permitted && entry.status == REJECTED && entry.notionalUsd == 0.0 && entry.timestamp == input.riskAt
       case EXECUTION =>
         && permitted
         && (|| IsError(entry, x.id, amount, input.signal.timestamp, input.adapter)
             || (&& entry.fsm.Some?
                 && exists r :: SomeAnswer(input.adapter, r) && ShowsReport(entry, r)))
       case RECONCILIATION =>
         && permitted && entry.status == RECONCILED && entry.notionalUsd == amount
         && entry.timestamp == input.reconciledAt
       case RECOVERY => false
  }

  predicate ShowsReport(entry: LedgerEntry, r: Report) {
    && entry.id == r.id && entry.status == r.status && entry.notionalUsd == r.executedUsd
    && entry.message == r.message && entry.timestamp == r.timestamp
  }

  ghost predicate Recorded(s: Settings, w: World, input: Input, e: Effect) {
    var planned := PlanOf(s, w, input).intent;
    match e
    case SaveDecisions(row) => RowRecorded(s, w, input, row)
    case UpsertOrder(intent, adjusted, status, _) =>
      && planned == Some(intent) && adjusted == AmountOf(s, w, input, intent)
      && (!Permits(s, w, input, intent) ==> status == REJECTED)
    case SaveReport(r) =>
      && planned.Some? && r.id == planned.value.id
      && SomeAnswer(input.adapter, r) && DescribesAny(s, w, input.signal, r.fsm)
    case AppendLedger(entries) =>
      planned.Some? && forall entry | entry in entries :: EntryRecorded(s, w, input, planned.value, entry)
    case _ => true
  }

  lemma PlannedContext(s: Settings, w: World, input: Input)
    ensures Describes(s, w, input.signal, PlanOf(s, w, input).fsm)
  {
    StateEngine.StepExactly(s.minTransitionInterval, CheckpointOf(w, KeyOf(input.signal)), input.signal);
  }

  lemma RowIsRecorded(s: Settings, w: World, input: Input, row: Decisions)
    requires var p := PlanOf(s, w, input);
      row.signal == input.signal && row.transition == p.transition && row.intent == p.intent
      && (row.allowed <==> p.intent.Some? && Permits(s, w, input, p.intent.value))
    ensures RowRecorded(s, w, input, row)
  {
    StateEngine.StepExactly(s.minTransitionInterval, CheckpointOf(w, KeyOf(input.signal)), input.signal);
  }

  lemma IdleRecorded(s: Settings, w: World, input: Input)
    requires PlanOf(s, w, input).intent.None?
    ensures forall e | e in ProcessEffects(s, w, input) :: Recorded(s, w, input, e)
  {
    var p, es := PlanOf(s, w, input), ProcessEffects(s, w, input);
    assert |es| == 5 && es[0].SaveDecisions?;
    RowIsRecorded(s, w, input, es[0].row);
  }

  // Risk refuses the planned order.
  ghost predicate Refuses(s: Settings, w: World, input: Input, x: Intent) {
    var p := PlanOf(s, w, input);
    p.intent == Some(x) && !AlreadyTerminal(w, x.id) && !Allowed(s, p, input)
  }

  lemma RejectedRecorded(s: Settings, w: World, input: Input, x: Intent)
    requires Refuses(s, w, input, x)
    ensures forall e | e in ProcessEffects(s, w, input) :: Recorded(s, w, input, e)
  {
    var p, es := PlanOf(s, w, input), ProcessEffects(s, w, input);
    var entries := RejectionEntries(p, input, x.id);
    assert |es| == 7 && es[0].SaveDecisions? && es[2] == AppendLedger(entries);
    RowIsRecorded(s, w, input, es[0].row);
    PlannedContext(s, w, input);
  }

  lemma OpeningRecorded(s: Settings, w: World, input: Input, x: Intent)
    requires Permits(s, w, input, x)
    ensures forall e | e in Opening(s, w, input, x) :: Recorded(s, w, input, e)
  {
    var amount, at, n := AmountOf(s, w, input, x), input.signal.timestamp, AttemptsOf(w, x.id);
    ExecutionRecorded(s, x, amount, at, input.adapter, n);
    forall e | e in ExecuteEffects(s, x, amount, at, input.adapter, n)
      ensures Recorded(s, w, input, e)
    {
      assert Executes(e, x.id, amount, at, input.adapter);
    }
  }

  lemma ClosingRecorded(s: Settings, w: World, input: Input, x: Intent, report: Report)
    requires Fills(s, w, input, x, report)
    ensures forall e | e in Closing(s, w, input, x, report) :: Recorded(s, w, input, e)
  {
    var es := Closing(s, w, input, x, report);
    ClosingShape(s, w, input, x, report);
    ResultExactly(s, x, input.adapter, AttemptsOf(w, x.id));
    assert SomeAnswer(input.adapter, report);
    RowIsRecorded(s, w, input, es[0].row);
    NotedRecorded(s, w, input, x, report);
    FilledEntriesRecorded(s, w, input, x, report);
    assert es[4].adjustedUsd == AmountOf(s, w, input, x);
    EightRecorded(s, w, input, es);
  }

  lemma EightRecorded(s: Settings, w: World, input: Input, es: seq<Effect>)
    requires |es| == 8 && forall k | 0 <= k < 5 :: Recorded(s, w, input, es[k])
    requires es[5].SavePosition? && es[6].SavePortfolio? && es[7].SaveCheckpoint?
    ensures forall e | e in es :: Recorded(s, w, input, e)
  {
  }

  lemma NotedRecorded(s: Settings, w: World, input: Input, x: Intent, report: Report)
    requires PlanOf(s, w, input).intent == Some(x) && SomeAnswer(input.adapter, report) && report.id == x.id
    ensures Recorded(s, w, input, SaveReport(Noted(PlanOf(s, w, input), report)))
  {
    PlannedContext(s, w, input);
    NotedAnswers(s, w, input, report);
  }

  lemma NotedAnswers(s: Settings, w: World, input: Input, report: Report)
    requires SomeAnswer(input.adapter, report)
    ensures SomeAnswer(input.adapter, Noted(PlanOf(s, w, input), report))
  {
    var n: nat :| Answered(input.adapter, n, report);
    assert Answered(input.adapter, n, Noted(PlanOf(s, w, input), report));
  }

  lemma FilledEntriesRecorded(s: Settings, w: World, input: Input, x: Intent, report: Report)
    requires Fills(s, w, input, x, report) && SomeAnswer(input.adapter, report) && report.id == x.id
    ensures forall entry | entry in Entries(s, w, input, report) :: EntryRecorded(s, w, input, x, entry)
  {
    PlannedContext(s, w, input);
    NotedAnswers(s, w, input, report);
    assert ShowsReport(Entries(s, w, input, report)[1], Noted(PlanOf(s, w, input), report));
  }

  // Everything that a batch writes down is so, for every signal, store, clock, balance and adapter.
  lemma BatchRecorded(s: Settings, w: World, input: Input)
    ensures forall e | e in ProcessEffects(s, w, input) :: Recorded(s, w, input, e)
  {
    var p := PlanOf(s, w, input);
    if p.intent.None? {
      IdleRecorded(s, w, input);
    } else if !AlreadyTerminal(w, p.intent.value.id) {
      var x := p.intent.value;
      if !Allowed(s, p, input) {
        RejectedRecorded(s, w, input, x);
      } else {
        OpeningRecorded(s, w, input, x);
        if Exhausted(s, w, input) {
          ExhaustedAbout(s, w, input, x);
        } else {
          var report := ExecuteResult(s, x, input.adapter, AttemptsOf(w, x.id)).value;
          FillsEffects(s, w, input, x, report);
          ClosingRecorded(s, w, input, x, report);
        }
      }
    }
  }

  // --- and what it does not leave out ------------------------------------------------------------

  ghost predicate ListsStage(es: seq<Effect>, stage: Stage) {
    exists e, entry :: e in es && e.AppendLedger? && entry in e.entries && entry.stage == stage && entry.fsm.Some?
  }

  lemma ListedAt(es: seq<Effect>, k: nat, j: nat)
    requires k < |es| && es[k].AppendLedger? && j < |es[k].entries| && es[k].entries[j].fsm.Some?
    ensures ListsStage(es, es[k].entries[j].stage)
  {
    assert es[k] in es && es[k].entries[j] in es[k].entries;
  }

  // A batch that fills its order leaves the decision, the report with its context, and all three stages in the ledger.
  lemma FilledTrail(s: Settings, w: World, input: Input, x: Intent, report: Report)
    requires Fills(s, w, input, x, report)
    ensures var es := ProcessEffects(s, w, input);
      && (exists e :: e in es && e.SaveDecisions?)
      && (exists e :: e in es && e.SaveReport? && e.report.fsm.Some? && e.report == report.(fsm := e.report.fsm))
      && ListsStage(es, SUBMISSION) && ListsStage(es, EXECUTION) && ListsStage(es, RECONCILIATION)
  {
    var es, closing := ProcessEffects(s, w, input), Closing(s, w, input, x, report);
    FillsEffects(s, w, input, x, report);
    ClosingShape(s, w, input, x, report);
    var n := |Opening(s, w, input, x)|;
    assert es[n] == closing[0] && es[n + 1] == closing[1] && es[n + 3] == closing[3];
    assert es[n] in es && es[n + 1] in es;
    ListedAt(es, n + 3, 0);
    ListedAt(es, n + 3, 1);
    ListedAt(es, n + 3, 2);
  }

  ghost predicate ListsError(es: seq<Effect>, id: IntentId, message: string) {
    exists entry :: AppendLedger([entry]) in es && entry.id == id && entry.status == RETRYABLE_ERROR
                    && entry.message == message
  }

  // And of every attempt that raises, what it raised.
  lemma {:induction false} ErrorsListed(
    s: Settings, x: Intent, adjusted: real, at: int, adapter: nat -> Outcome, n: nat, k: nat)
    requires n <= k < LastAttempt(s, adapter, n) && adapter(k).Raised?
    ensures ListsError(ExecuteEffects(s, x, adjusted, at, adapter, n), x.id, adapter(k).message)
    decreases s.MaxAttempts() - n
  {
    var es := ExecuteEffects(s, x, adjusted, at, adapter, n);
    if k == n {
      assert es[3] == AppendLedger([FailureEntry(x.id, adjusted, adapter(n).message, at)]);
    } else {
      ErrorsListed(s, x, adjusted, at, adapter, n + 1, k);
    }
  }

  // --- what a recovery writes down ---------------------------------------------------------------

  // A recovery settles what was executed, where a batch settles what was permitted; and it carries no context.
  ghost predicate RecoveryRecorded(s: Settings, w: World, r: Recoverable, env: Env, entry: LedgerEntry) {
    && entry.id == r.intent.id && entry.fsm == None
    && match entry.stage
       case RECOVERY =>
         && entry.status == RECOVERED && entry.notionalUsd == r.adjustedUsd && entry.timestamp == env.recoveredAt
         && entry.message == (match r.status
                              case FILLED => "recovered_filled"
                              case RETRY => "recovered_retry"
                              case _ => "recovered_submitted")
       case EXECUTION =>
         r.status != FILLED && IsError(entry, r.intent.id, r.adjustedUsd, env.riskAt, env.adapter)
       case RECONCILIATION =>
         && RecoveredReport(s, w, r, env).Some?
         && entry.status == RECONCILED && entry.timestamp == env.reconciledAt
         && entry.notionalUsd == RecoveredReport(s, w, r, env).value.executedUsd
       case _ => false
  }

  ghost predicate RecoveryWrite(s: Settings, w: World, r: Recoverable, env: Env, e: Effect) {
    match e
    case AppendLedger(entries) => forall entry | entry in entries :: RecoveryRecorded(s, w, r, env, entry)
    case SaveReport(report) =>
      r.status != FILLED && report.id == r.intent.id && SomeAnswer(env.adapter, report) && report.fsm == None
    case SaveDecisions(_) => false
    case UpsertOrder(_, _, _, _) => false
    case SaveCheckpoint(_, _) => false
    case _ => true
  }

  lemma RecoveryExecutes(s: Settings, w: World, r: Recoverable, env: Env)
    ensures forall e | e in RecoveryExecution(s, w, r, env) :: RecoveryWrite(s, w, r, env, e)
  {
    ExecutionRecorded(s, r.intent, r.adjustedUsd, env.riskAt, env.adapter, AttemptsOf(w, r.intent.id));
    forall e | e in RecoveryExecution(s, w, r, env)
      ensures RecoveryWrite(s, w, r, env, e)
    {
      assert Executes(e, r.intent.id, r.adjustedUsd, env.riskAt, env.adapter);
    }
  }

  lemma RecoveryCloses(s: Settings, w: World, r: Recoverable, env: Env)
    requires RecoveredReport(s, w, r, env).Some?
    ensures forall e | e in RecoveryClosing(w, r, RecoveredReport(s, w, r, env).value, env) ::
      RecoveryWrite(s, w, r, env, e)
  {
  }

  // Everything that a recovery writes down of one order is so.
  lemma RecoveryWrites(s: Settings, w: World, r: Recoverable, env: Env)
    ensures forall e | e in RecoverOne(s, w, r, env) :: RecoveryWrite(s, w, r, env, e)
  {
    RecoveryExecutes(s, w, r, env);
    assert RecoveryWrite(s, w, r, env, AppendLedger([RecoveryEntry(r, env.recoveredAt)]));
    if RecoveredReport(s, w, r, env).Some? {
      RecoveryCloses(s, w, r, env);
    }
  }

  // --- over runs ---------------------------------------------------------------------------------

  // What must have come before: the report that an entry shows, the applied reconciliation of a settled order, the
  // decision that refused an order, and the decision that permitted the order of a report with a context.
  ghost predicate EntryGrounded(before: seq<Effect>, entry: LedgerEntry) {
    && (entry.stage == EXECUTION && entry.status != RETRYABLE_ERROR ==>
          exists r :: SaveReport(r) in before && ShowsReport(entry, r) && r.fsm == entry.fsm)
    && (entry.status == RECONCILED ==>
          exists result :: SaveReconciliation(result) in before && result.id == Some(entry.id) && result.applied)
    && (entry.stage == RISK ==> exists row :: SaveDecisions(row) in before && Decides(row, entry.id, false))
  }

  predicate Decides(row: Decisions, id: IntentId, allowed: bool) {
    row.intent.Some? && row.intent.value.id == id && row.allowed == allowed
  }

  predicate Explains(row: Decisions, r: Report)
    requires r.fsm.Some?
  {
    && Decides(row, r.id, true) && row.signal.token == r.id.token && row.signal.timestamp == r.id.timestamp
    && row.transition.next == r.fsm.value.current == r.id.state
    && row.transition.previous == r.fsm.value.previous
  }

  ghost predicate ReportGrounded(before: seq<Effect>, r: Report) {
    r.fsm.Some? ==> exists row :: SaveDecisions(row) in before && Explains(row, r)
  }

  ghost predicate GroundedAt(es: seq<Effect>, k: nat)
    requires k < |es|
  {
    && (es[k].AppendLedger? ==> forall entry | entry in es[k].entries :: EntryGrounded(es[..k], entry))
    && (es[k].SaveReport? ==> ReportGrounded(es[..k], es[k].report))
  }

  ghost predicate Grounded(es: seq<Effect>) { forall k: nat | k < |es| :: GroundedAt(es, k) }

  lemma GroundedMore(before: seq<Effect>, more: seq<Effect>, entry: LedgerEntry)
    requires EntryGrounded(before, entry)
    ensures EntryGrounded(more + before, entry)
  {
    assert forall e | e in before :: e in more + before;
  }

  lemma GroundedConcat(a: seq<Effect>, b: seq<Effect>)
    requires Grounded(a) && Grounded(b)
    ensures Grounded(a + b)
  {
    forall k: nat | k < |a + b|
      ensures GroundedAt(a + b, k)
    {
      if k < |a| {
        assert (a + b)[..k] == a[..k] && GroundedAt(a, k);
      } else {
        LaterGrounded(a, b, k - |a|);
      }
    }
  }

  lemma LaterGrounded(a: seq<Effect>, b: seq<Effect>, j: nat)
    requires j < |b| && GroundedAt(b, j)
    ensures GroundedAt(a + b, |a| + j)
  {
    assert (a + b)[..|a| + j] == a + b[..j];
    assert forall e | e in b[..j] :: e in a + b[..j];
    if b[j].AppendLedger? {
      forall entry | entry in b[j].entries
        ensures EntryGrounded(a + b[..j], entry)
      {
        GroundedMore(b[..j], a, entry);
      }
    }
  }

  // Needs nothing before it.
  predicate SelfGrounded(e: Effect) {
    && (e.SaveReport? ==> e.report.fsm.None?)
    && (e.AppendLedger? ==> forall entry | entry in e.entries ::
          && entry.stage != RISK && entry.status != RECONCILED
          && (entry.stage == EXECUTION ==> entry.status == RETRYABLE_ERROR))
  }

  lemma AllSelfGrounded(es: seq<Effect>)
    requires forall e | e in es :: SelfGrounded(e)
    ensures Grounded(es)
  {
    forall k: nat | k < |es|
      ensures GroundedAt(es, k)
    {
      assert es[k] in es;
    }
  }

  lemma ExecutionGrounded(s: Settings, x: Intent, adjusted: real, at: int, adapter: nat -> Outcome, n: nat)
    ensures Grounded(ExecuteEffects(s, x, adjusted, at, adapter, n))
  {
    var es := ExecuteEffects(s, x, adjusted, at, adapter, n);
    ExecutionRecorded(s, x, adjusted, at, adapter, n);
    forall e | e in es
      ensures SelfGrounded(e)
    {
      assert Executes(e, x.id, adjusted, at, adapter);
    }
    AllSelfGrounded(es);
  }

  lemma OpeningGrounded(s: Settings, w: World, input: Input, x: Intent)
    ensures Grounded(Opening(s, w, input, x))
  {
    var adjusted, at := Adjusted(s, PlanOf(s, w, input), input), input.signal.timestamp;
    ExecutionGrounded(s, x, adjusted, at, input.adapter, AttemptsOf(w, x.id));
    AllSelfGrounded(SubmissionEffects(w, x, adjusted, at));
    GroundedConcat(
      SubmissionEffects(w, x, adjusted, at), ExecuteEffects(s, x, adjusted, at, input.adapter, AttemptsOf(w, x.id)));
  }

  lemma ClosingGrounded(s: Settings, w: World, input: Input, x: Intent, report: Report)
    requires Fills(s, w, input, x, report)
    ensures Grounded(Closing(s, w, input, x, report))
  {
    var es, noted := Closing(s, w, input, x, report), Noted(PlanOf(s, w, input), report);
    ClosingShape(s, w, input, x, report);
    RowExplains(s, w, input, x, report, es[0].row);
    assert es[0] in es[..1];
    assert GroundedAt(es, 1);
    assert es[..3] == [es[0], SaveReport(noted), es[2]];
    EntriesGrounded(s, w, input, report, es[..3], noted, es[2].result);
    assert GroundedAt(es, 3);
  }

  lemma RowExplains(s: Settings, w: World, input: Input, x: Intent, report: Report, row: Decisions)
    requires Fills(s, w, input, x, report) && report.id == x.id
    requires row == Decisions(input.signal, PlanOf(s, w, input).transition, Some(x), true)
    ensures Explains(row, Noted(PlanOf(s, w, input), report))
  {
    PlannedId(s, w, input);
    PlannedContext(s, w, input);
  }

  lemma EntriesGrounded(
    s: Settings, w: World, input: Input, report: Report, before: seq<Effect>, noted: Report, result: Reconciliation)
    requires noted == Noted(PlanOf(s, w, input), report) && SaveReport(noted) in before
    requires SaveReconciliation(result) in before && result.id == Some(report.id) && result.applied
    ensures forall entry | entry in Entries(s, w, input, report) :: EntryGrounded(before, entry)
  {
    assert ShowsReport(Entries(s, w, input, report)[1], noted);
  }

  lemma RejectedGrounded(s: Settings, w: World, input: Input, x: Intent)
    requires Refuses(s, w, input, x)
    ensures Grounded(ProcessEffects(s, w, input))
  {
    var es := ProcessEffects(s, w, input);
    assert |es| == 7 && es[0].SaveDecisions? && Decides(es[0].row, x.id, false);
    assert es[0] in es[..2];
    assert GroundedAt(es, 2);
  }

  lemma BatchGrounded(s: Settings, w: World, input: Input)
    ensures Grounded(ProcessEffects(s, w, input))
  {
    var p := PlanOf(s, w, input);
    if p.intent.None? {
      AllSelfGrounded(ProcessEffects(s, w, input));
    } else if !AlreadyTerminal(w, p.intent.value.id) {
      var x := p.intent.value;
      if !Allowed(s, p, input) {
        RejectedGrounded(s, w, input, x);
      } else {
        OpeningGrounded(s, w, input, x);
        if Exhausted(s, w, input) {
          ExhaustedAbout(s, w, input, x);
        } else {
          var report := ExecuteResult(s, x, input.adapter, AttemptsOf(w, x.id)).value;
          FillsEffects(s, w, input, x, report);
          ClosingGrounded(s, w, input, x, report);
          GroundedConcat(Opening(s, w, input, x), Closing(s, w, input, x, report));
        }
      }
    }
  }

  lemma RecoveredGrounded(s: Settings, w: World, r: Recoverable, env: Env)
    ensures Grounded(RecoverOne(s, w, r, env))
  {
    var notice, run := [AppendLedger([RecoveryEntry(r, env.recoveredAt)])], RecoveryExecution(s, w, r, env);
    ExecutionGrounded(s, r.intent, r.adjustedUsd, env.riskAt, env.adapter, AttemptsOf(w, r.intent.id));
    AllSelfGrounded(notice);
    AllSelfGrounded([]);
    GroundedConcat(notice, run);
    var report := RecoveredReport(s, w, r, env);
    var closing := if report.None? then [] else RecoveryClosing(w, r, report.value, env);
    if report.Some? {
      assert closing[0] in closing[..4];
      assert GroundedAt(closing, 4);
      assert Grounded(closing);
    }
    GroundedConcat(notice + run, closing);
  }

  lemma {:induction false} RecoveryGrounded(s: Settings, w: World, rs: seq<Recoverable>, env: IntentId -> Env)
    ensures Grounded(RecoverEffects(s, w, rs, env))
    decreases |rs|
  {
    if rs != [] {
      var n := |rs| - 1;
      RecoveryGrounded(s, w, rs[..n], env);
      RecoveredGrounded(s, RecoverState(s, w, rs[..n], env), rs[n], env(rs[n].intent.id));
      GroundedConcat(
        RecoverEffects(s, w, rs[..n], env),
        RecoverOne(s, RecoverState(s, w, rs[..n], env), rs[n], env(rs[n].intent.id)));
    }
  }

  // The same of the tables.
  ghost predicate EntryBacked(w: World, entry: LedgerEntry) {
    && (entry.stage == EXECUTION && entry.status != RETRYABLE_ERROR ==>
          exists r :: r in w.reports && ShowsReport(entry, r) && r.fsm == entry.fsm)
    && (entry.status == RECONCILED ==>
          exists result :: result in w.reconciliations && result.id == Some(entry.id) && result.applied)
    && (entry.stage == RISK ==> exists row :: row in w.decisions && Decides(row, entry.id, false))
  }

  ghost predicate ReportBacked(w: World, r: Report) {
    r.fsm.Some? ==> exists row :: row in w.decisions && Explains(row, r)
  }

  ghost predicate AllBacked(w: World) {
    && (forall entry | entry in w.ledger :: EntryBacked(w, entry))
    && (forall r | r in w.reports :: ReportBacked(w, r))
  }

  // The tables hold what these effects have written, and what they held before.
  ghost predicate Holds(w: World, before: seq<Effect>) {
    && (forall r | SaveReport(r) in before :: r in w.reports)
    && (forall result | SaveReconciliation(result) in before :: result in w.reconciliations)
    && (forall row | SaveDecisions(row) in before :: row in w.decisions)
  }

  lemma EntryStaysBacked(w: World, e: Effect, entry: LedgerEntry)
    requires EntryBacked(w, entry)
    ensures EntryBacked(Apply(w, e), entry)
  {
    var w' := Apply(w, e);
    assert forall r | r in w.reports :: r in w'.reports;
    assert forall result | result in w.reconciliations :: result in w'.reconciliations;
    assert forall row | row in w.decisions :: row in w'.decisions;
  }

  lemma ReportStaysBacked(w: World, e: Effect, r: Report)
    requires ReportBacked(w, r)
    ensures ReportBacked(Apply(w, e), r)
  {
    assert forall row | row in w.decisions :: row in Apply(w, e).decisions;
  }

  lemma GroundedIsBacked(w: World, before: seq<Effect>, entry: LedgerEntry)
    requires Holds(w, before) && EntryGrounded(before, entry)
    ensures EntryBacked(w, entry)
  {
  }

  lemma HoldsNext(w: World, es: seq<Effect>, k: nat)
    requires 0 < k <= |es| && Holds(w, es[..k - 1])
    ensures Holds(Apply(w, es[k - 1]), es[..k])
  {
    assert es[..k] == es[..k - 1] + [es[k - 1]];
  }

  lemma BackedNext(w: World, before: seq<Effect>, e: Effect)
    requires AllBacked(w) && Holds(w, before)
    requires e.AppendLedger? ==> forall entry | entry in e.entries :: EntryGrounded(before, entry)
    requires e.SaveReport? ==> ReportGrounded(before, e.report)
    ensures AllBacked(Apply(w, e))
  {
    var w' := Apply(w, e);
    if e.AppendLedger? {
      InsertAllKeeps(w.ledger, e.entries);
    }
    forall entry | entry in w'.ledger
      ensures EntryBacked(w', entry)
    {
      if entry !in w.ledger {
        GroundedIsBacked(w, before, entry);
      }
      EntryStaysBacked(w, e, entry);
    }
    forall r | r in w'.reports
      ensures ReportBacked(w', r)
    {
      ReportStaysBacked(w, e, r);
    }
  }

  lemma {:induction false} BackedAfter(w: World, es: seq<Effect>, k: nat)
    requires k <= |es| && AllBacked(w) && Grounded(es)
    ensures AllBacked(After(w, es, k)) && Holds(After(w, es, k), es[..k])
    decreases k
  {
    if k > 0 {
      BackedAfter(w, es, k - 1);
      assert GroundedAt(es, k - 1);
      BackedNext(After(w, es, k - 1), es[..k - 1], es[k - 1]);
      HoldsNext(After(w, es, k - 1), es, k);
    }
  }

  lemma StepBacked(s: Settings, w: World, step: Step, w': World)
    requires AllBacked(w) && Moves(s, w, step, w')
    ensures AllBacked(w')
  {
    var es := StepEffects(s, w, step);
    match step {
      case Process(input, _) => BatchGrounded(s, w, input);
      case Recover(rows, env, _) => RecoveryGrounded(s, w, rows, env);
    }
    BackedAfter(w, es, if step.cut <= |es| then step.cut else |es|);
  }

  lemma TrailAdvances(s: Settings, states: seq<World>, steps: seq<Step>, k: nat)
    requires Run(s, states, steps) && k < |steps| && AllBacked(states[k])
    ensures AllBacked(states[k + 1])
  {
    StepBacked(s, states[k], steps[k], states[k + 1]);
  }

  // In every state of every run, wherever it is cut: each report that the ledger shows is stored, each settled order
  // has an applied reconciliation, and each refused order and each report with a context has the decision that says so,
  // on the state that the order carries.
  lemma {:induction false} TrailBacked(s: Settings, states: seq<World>, steps: seq<Step>, k: nat)
    requires Run(s, states, steps) && states[0] == EMPTY && k < |states|
    ensures AllBacked(states[k])
    decreases k
  {
    if k > 0 {
      TrailBacked(s, states, steps, k - 1);
      TrailAdvances(s, states, steps, k - 1);
    }
  }
}
