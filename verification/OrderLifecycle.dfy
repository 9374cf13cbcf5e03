// Orders over whole runs: every processing and recovery step, cut off after any number of its effects.
module OrderLifecycle {
  import opened Schemas
  import opened World
  import opened Pipeline
  import Reconciler

  function AttemptCap(s: Settings): nat { if s.MaxAttempts() >= 0 then s.MaxAttempts() else 0 }

  // --- invariant and progress --------------------------------------------------------------------

  ghost predicate Sound(s: Settings, w: World) {
    && (forall id | id in w.orders :: w.orders[id].intent.id == id && w.orders[id].attempts <= AttemptCap(s))
    && (forall id: IntentId :: CountDispatches(w.dispatches, id) <= AttemptsOf(w, id))
    && (forall r | r in w.reports && r.status == FILLED ::
          r.id in w.orders && w.orders[r.id].status in {FILLED, RECONCILED})
  }

  // What happens to one order between two states.
  ghost predicate OrderProgress(w: World, w': World, id: IntentId) {
    && AttemptsOf(w, id) <= AttemptsOf(w', id)
    && (id in w.orders ==> id in w'.orders)
    && (StatusOf(w, id) == Some(REJECTED) ==> StatusOf(w', id) == Some(REJECTED))
    && (StatusOf(w, id) == Some(RECONCILED) ==> StatusOf(w', id) == Some(RECONCILED))
    && (StatusOf(w, id) == Some(FILLED) ==> StatusOf(w', id) in {Some(FILLED), Some(RECONCILED)})
    && (AlreadyTerminal(w, id) ==>
          CountDispatches(w'.dispatches, id) == CountDispatches(w.dispatches, id))
  }

  ghost predicate Progress(w: World, w': World) {
    forall id: IntentId :: OrderProgress(w, w', id)
  }

  // The condition under which an effect may be made.
  ghost predicate Legal(s: Settings, w: World, e: Effect) {
    match e
    case UpsertOrder(intent, _, status, attempts) =>
      && attempts == AttemptsOf(w, intent.id)
      && (AlreadyTerminal(w, intent.id) ==> status == w.orders[intent.id].status)
    case MarkOrder(id, status) =>
      && id in w.orders
      && var was := w.orders[id].status;
         !Terminal(was) || status == was || (was == FILLED && status == RECONCILED)
    case SetAttempts(id, attempts) =>
      id in w.orders && attempts == w.orders[id].attempts + 1 <= AttemptCap(s)
    case Dispatch(id) =>
      && id in w.orders
      && !AlreadyTerminal(w, id)
      && CountDispatches(w.dispatches, id) < w.orders[id].attempts
    case SaveReport(r) =>
      r.status == FILLED ==> r.id in w.orders && w.orders[r.id].status in {FILLED, RECONCILED}
    case _ => true
  }

  ghost predicate LegalFrom(s: Settings, w: World, es: seq<Effect>) {
    forall k | 0 <= k < |es| :: Legal(s, After(w, es, k), es[k])
  }

  lemma ProgressStep(s: Settings, w: World, e: Effect, id: IntentId)
    requires Sound(s, w) && Legal(s, w, e)
    ensures OrderProgress(w, Apply(w, e), id)
  {
    if e.Dispatch? {
      DispatchCounted(w, e.id, id);
    }
  }

  lemma CountsStep(s: Settings, w: World, e: Effect, id: IntentId)
    requires Sound(s, w) && Legal(s, w, e)
    ensures CountDispatches(Apply(w, e).dispatches, id) <= AttemptsOf(Apply(w, e), id)
  {
    assert CountDispatches(w.dispatches, id) <= AttemptsOf(w, id);
    if e.Dispatch? {
      DispatchCounted(w, e.id, id);
    }
  }

  lemma DispatchCounted(w: World, sent: IntentId, id: IntentId)
    ensures CountDispatches(Apply(w, Dispatch(sent)).dispatches, id)
         == CountDispatches(w.dispatches, id) + if id == sent then 1 else 0
  {
  }

  lemma ReportsStep(s: Settings, w: World, e: Effect, r: Report)
    requires Sound(s, w) && Legal(s, w, e)
    requires r in Apply(w, e).reports && r.status == FILLED
    ensures var w' := Apply(w, e); r.id in w'.orders && w'.orders[r.id].status in {FILLED, RECONCILED}
  {
    assert r in w.reports || (e.SaveReport? && r == e.report);
  }

  lemma RowsStep(s: Settings, w: World, e: Effect, id: IntentId)
    requires Sound(s, w) && Legal(s, w, e) && id in Apply(w, e).orders
    ensures var row := Apply(w, e).orders[id]; row.intent.id == id && row.attempts <= AttemptCap(s)
  {
  }

  lemma LegalStep(s: Settings, w: World, e: Effect)
    requires Sound(s, w) && Legal(s, w, e)
    ensures Sound(s, Apply(w, e)) && Progress(w, Apply(w, e))
  {
    var w' := Apply(w, e);
    forall id: IntentId
      ensures OrderProgress(w, w', id) && CountDispatches(w'.dispatches, id) <= AttemptsOf(w', id)
    {
      ProgressStep(s, w, e, id);
      CountsStep(s, w, e, id);
    }
    forall id | id in w'.orders
      ensures w'.orders[id].intent.id == id && w'.orders[id].attempts <= AttemptCap(s)
    {
      RowsStep(s, w, e, id);
    }
    forall r | r in w'.reports && r.status == FILLED
      ensures r.id in w'.orders && w'.orders[r.id].status in {FILLED, RECONCILED}
    {
      ReportsStep(s, w, e, r);
    }
  }

  lemma ProgressReflexive(w: World)
    ensures Progress(w, w)
  {
  }

  lemma ProgressTransitive(a: World, b: World, c: World)
    requires Progress(a, b) && Progress(b, c)
    ensures Progress(a, c)
  {
    forall id: IntentId
      ensures OrderProgress(a, c, id)
    {
      assert OrderProgress(a, b, id) && OrderProgress(b, c, id);
    }
  }

  // The invariant holds and progress is made at every crash point of a legal sequence.
  lemma {:induction false} LegalRun(s: Settings, w: World, es: seq<Effect>, k: nat)
    requires Sound(s, w) && LegalFrom(s, w, es) && k <= |es|
    ensures Sound(s, After(w, es, k)) && Progress(w, After(w, es, k))
    decreases k
  {
    if k == 0 {
      ProgressReflexive(w);
    } else {
      LegalRun(s, w, es, k - 1);
      assert Legal(s, After(w, es, k - 1), es[k - 1]);
      LegalStep(s, After(w, es, k - 1), es[k - 1]);
      ProgressTransitive(w, After(w, es, k - 1), After(w, es, k));
    }
  }

  lemma LegalConcat(s: Settings, w: World, a: seq<Effect>, b: seq<Effect>)
    requires LegalFrom(s, w, a) && LegalFrom(s, ApplyAll(w, a), b)
    ensures LegalFrom(s, w, a + b)
  {
    forall k | 0 <= k < |a + b|
      ensures Legal(s, After(w, a + b, k), (a + b)[k])
    {
      AfterConcat(w, a, b, k);
      if k < |a| {
        assert Legal(s, After(w, a, k), a[k]);
      } else {
        assert Legal(s, After(ApplyAll(w, a), b, k - |a|), b[k - |a|]);
      }
    }
  }

  lemma LegalOne(s: Settings, w: World, e: Effect)
    requires Legal(s, w, e)
    ensures LegalFrom(s, w, [e]) && ApplyAll(w, [e]) == Apply(w, e)
  {
  }

  // Effects that touch neither order rows nor dispatches.
  predicate RowBlind(e: Effect) {
    !e.UpsertOrder? && !e.MarkOrder? && !e.SetAttempts? && !e.Dispatch?
  }

  lemma {:induction false} RowBlindKeeps(w: World, es: seq<Effect>, k: nat)
    requires k <= |es| && forall e | e in es :: RowBlind(e)
    ensures After(w, es, k).orders == w.orders && After(w, es, k).dispatches == w.dispatches
    decreases k
  {
    if k > 0 {
      RowBlindKeeps(w, es, k - 1);
      assert es[k - 1] in es;
    }
  }

  // A filled report may only be stored for an order that is already filled.
  ghost predicate Backed(w: World, r: Report) {
    r.status == FILLED ==> r.id in w.orders && w.orders[r.id].status in {FILLED, RECONCILED}
  }

  lemma RowBlindLegal(s: Settings, w: World, es: seq<Effect>)
    requires forall e | e in es :: RowBlind(e) && (e.SaveReport? ==> Backed(w, e.report))
    ensures LegalFrom(s, w, es)
    ensures ApplyAll(w, es).orders == w.orders && ApplyAll(w, es).dispatches == w.dispatches
  {
    RowBlindKeeps(w, es, |es|);
    forall k | 0 <= k < |es|
      ensures Legal(s, After(w, es, k), es[k])
    {
      assert es[k] in es;
      RowBlindKeeps(w, es, k);
    }
  }

  // persist_pipeline_result: audit rows, the order row, the book.
  lemma ClosingLegal(s: Settings, w: World, audit: seq<Effect>, upsert: Effect, book: seq<Effect>)
    requires forall e | e in audit :: RowBlind(e) && (e.SaveReport? ==> Backed(w, e.report))
    requires forall e | e in book :: RowBlind(e) && !e.SaveReport?
    requires upsert.UpsertOrder? && Legal(s, w, upsert)
    ensures LegalFrom(s, w, audit + [upsert] + book)
  {
    RowBlindLegal(s, w, audit);
    var w1 := ApplyAll(w, audit);
    assert Legal(s, w1, upsert);
    LegalOne(s, w1, upsert);
    LegalConcat(s, w, audit, [upsert]);
    RowBlindLegal(s, ApplyAll(w, audit + [upsert]), book);
    LegalConcat(s, w, audit + [upsert], book);
  }

  // --- execution ---------------------------------------------------------------------------------

  // Four effects in a row, unrolled.
  lemma Four(w: World, es: seq<Effect>)
    requires |es| == 4
    ensures After(w, es, 1) == Apply(w, es[0])
    ensures After(w, es, 2) == Apply(Apply(w, es[0]), es[1])
    ensures After(w, es, 3) == Apply(Apply(Apply(w, es[0]), es[1]), es[2])
    ensures ApplyAll(w, es) == Apply(Apply(Apply(Apply(w, es[0]), es[1]), es[2]), es[3])
  {
  }

  // An order that may be executed: its row, its counter, its dispatches.
  ghost predicate Ready(w: World, id: IntentId, attempts: nat) {
    && id in w.orders
    && w.orders[id].attempts == attempts
    && !Terminal(w.orders[id].status)
    && CountDispatches(w.dispatches, id) <= attempts
  }

  function AttemptStatus(s: Settings, adapter: nat -> Outcome, attempts: nat): Status {
    if adapter(attempts).Reported? then adapter(attempts).status else FailureStatus(s, attempts + 1)
  }

  // Count the attempt, dispatch, mark: the row and the dispatches after them.
  lemma AttemptOpening(s: Settings, w: World, id: IntentId, n: nat, status: Status)
    requires Ready(w, id, n) && n < s.MaxAttempts()
    ensures var w1 := Apply(w, SetAttempts(id, n + 1));
      var w2 := Apply(w1, Dispatch(id));
      var w3 := Apply(w2, MarkOrder(id, status));
      && Legal(s, w, SetAttempts(id, n + 1))
      && Legal(s, w1, Dispatch(id))
      && Legal(s, w2, MarkOrder(id, status))
      && w3.orders == w.orders[id := w.orders[id].(attempts := n + 1, status := status)]
      && CountDispatches(w3.dispatches, id) == CountDispatches(w.dispatches, id) + 1
  {
  }

  lemma AttemptLegal(s: Settings, w: World, intent: Intent, adjusted: real, at: int, adapter: nat -> Outcome, n: nat)
    requires Ready(w, intent.id, n) && n < s.MaxAttempts()
    ensures var es := AttemptEffects(s, intent, adjusted, at, adapter, n);
      var w' := ApplyAll(w, es);
      && LegalFrom(s, w, es)
      && w'.orders == w.orders[intent.id := Attempted(s, w.orders[intent.id], adapter, n)]
      && CountDispatches(w'.dispatches, intent.id) == CountDispatches(w.dispatches, intent.id) + 1
  {
    var es := AttemptEffects(s, intent, adjusted, at, adapter, n);
    var status := AttemptStatus(s, adapter, n);
    assert es[0] == SetAttempts(intent.id, n + 1) && es[1] == Dispatch(intent.id);
    assert es[2] == MarkOrder(intent.id, status);
    AttemptOpening(s, w, intent.id, n, status);
    Four(w, es);
    var w3 := Apply(Apply(Apply(w, es[0]), es[1]), es[2]);
    assert w3.orders[intent.id].status == status;
    assert Legal(s, w3, es[3]);
    LegalFour(s, w, es);
  }

  lemma LegalFour(s: Settings, w: World, es: seq<Effect>)
    requires |es| == 4
    requires Legal(s, w, es[0]) && Legal(s, Apply(w, es[0]), es[1])
    requires Legal(s, Apply(Apply(w, es[0]), es[1]), es[2])
    requires Legal(s, Apply(Apply(Apply(w, es[0]), es[1]), es[2]), es[3])
    ensures LegalFrom(s, w, es)
  {
  }

  // The order row after _execute_intent.
  function Executed(s: Settings, row: Order, intent: Intent, adapter: nat -> Outcome, n: nat): Order {
    var result := ExecuteResult(s, intent, adapter, n);
    row.(
      attempts := if n < s.MaxAttempts() then LastAttempt(s, adapter, n) else row.attempts,
      status :=
        if result.Some? then result.value.status
        else if n < s.MaxAttempts() then REJECTED
        else row.status)
  }

  function Attempted(s: Settings, row: Order, adapter: nat -> Outcome, n: nat): Order {
    row.(attempts := n + 1, status := AttemptStatus(s, adapter, n))
  }

  // One attempt, then the rest of the loop, leaves the row the whole loop leaves.
  lemma ExecutedNext(s: Settings, row: Order, intent: Intent, adapter: nat -> Outcome, n: nat)
    requires n < s.MaxAttempts()
    ensures Executed(s, row, intent, adapter, n) ==
      if adapter(n).Reported? then Attempted(s, row, adapter, n)
      else Executed(s, Attempted(s, row, adapter, n), intent, adapter, n + 1)
  {
  }

  // What the loop still does after attempt n.
  function Remaining(
    s: Settings, intent: Intent, adjusted: real, at: int, adapter: nat -> Outcome, n: nat): seq<Effect>
  {
    if adapter(n).Reported? then [] else ExecuteEffects(s, intent, adjusted, at, adapter, n + 1)
  }

  // One attempt from a state in which the order may be executed, then whatever remains.
  lemma AttemptThenRest(
    s: Settings, w: World, intent: Intent, adjusted: real, at: int, adapter: nat -> Outcome, n: nat,
    rest: seq<Effect>, row: Order)
    requires Ready(w, intent.id, n) && n < s.MaxAttempts()
    requires Runs(s, ApplyAll(w, AttemptEffects(s, intent, adjusted, at, adapter, n)), intent, rest, row)
    ensures Runs(s, w, intent, AttemptEffects(s, intent, adjusted, at, adapter, n) + rest, row)
  {
    var first := AttemptEffects(s, intent, adjusted, at, adapter, n);
    AttemptLegal(s, w, intent, adjusted, at, adapter, n);
    LegalConcat(s, w, first, rest);
    ApplyAllConcat(w, first, rest);
    TwiceUpdated(w.orders, intent.id, Attempted(s, w.orders[intent.id], adapter, n), row);
  }

  // Where the retry loop leaves the world, legally all the way.
  ghost predicate Runs(s: Settings, w: World, intent: Intent, es: seq<Effect>, row: Order) {
    LegalFrom(s, w, es) && ApplyAll(w, es).orders == w.orders[intent.id := row]
  }

  lemma NothingLeft(s: Settings, w: World, intent: Intent)
    requires intent.id in w.orders
    ensures Runs(s, w, intent, [], w.orders[intent.id])
  {
  }

  lemma ReadyAgain(s: Settings, w: World, intent: Intent, adjusted: real, at: int, adapter: nat -> Outcome, n: nat)
    requires Ready(w, intent.id, n) && n + 1 < s.MaxAttempts() && adapter(n).Raised?
    ensures Ready(ApplyAll(w, AttemptEffects(s, intent, adjusted, at, adapter, n)), intent.id, n + 1)
  {
  }

  lemma {:induction false} ExecuteLegal(
    s: Settings, w: World, intent: Intent, adjusted: real, at: int, adapter: nat -> Outcome, n: nat)
    requires Ready(w, intent.id, n)
    ensures Runs(
      s, w, intent, ExecuteEffects(s, intent, adjusted, at, adapter, n),
      Executed(s, w.orders[intent.id], intent, adapter, n))
    decreases s.MaxAttempts() - n
  {
    if n >= s.MaxAttempts() {
      NothingLeft(s, w, intent);
    } else {
      var w' := ApplyAll(w, AttemptEffects(s, intent, adjusted, at, adapter, n));
      var rest := Remaining(s, intent, adjusted, at, adapter, n);
      var row := Executed(s, w.orders[intent.id], intent, adapter, n);
      AttemptLegal(s, w, intent, adjusted, at, adapter, n);
      ExecutedNext(s, w.orders[intent.id], intent, adapter, n);
      assert Runs(s, w', intent, rest, row) by {
        if adapter(n).Raised? && n + 1 < s.MaxAttempts() {
          ReadyAgain(s, w, intent, adjusted, at, adapter, n);
          ExecuteLegal(s, w', intent, adjusted, at, adapter, n + 1);
        } else {
          NothingLeft(s, w', intent);
        }
      }
      AttemptThenRest(s, w, intent, adjusted, at, adapter, n, rest, row);
    }
  }

  lemma TwiceUpdated(m: map<IntentId, Order>, id: IntentId, a: Order, b: Order)
    ensures m[id := a][id := b] == m[id := b]
  {
  }

  // --- process_events is legal -------------------------------------------------------------------

  lemma SubmissionLegal(s: Settings, w: World, intent: Intent, adjusted: real, at: int)
    requires Sound(s, w) && !AlreadyTerminal(w, intent.id)
    ensures var es := SubmissionEffects(w, intent, adjusted, at);
      var w' := ApplyAll(w, es);
      && LegalFrom(s, w, es)
      && w'.orders == w.orders[intent.id :=
           Order(intent, adjusted, StatusOf(w, intent.id).GetOr(SUBMITTED), AttemptsOf(w, intent.id))]
      && w'.dispatches == w.dispatches
      && Ready(w', intent.id, AttemptsOf(w, intent.id))
  {
  }

  lemma OpeningLegal(s: Settings, w: World, input: Input, intent: Intent, adjusted: real)
    requires Sound(s, w) && !AlreadyTerminal(w, intent.id)
    ensures var es := OpeningEffects(s, w, input, intent, adjusted);
      var n := AttemptsOf(w, intent.id);
      var row := Order(intent, adjusted, StatusOf(w, intent.id).GetOr(SUBMITTED), n);
      && LegalFrom(s, w, es)
      && ApplyAll(w, es).orders == w.orders[intent.id := Executed(s, row, intent, input.adapter, n)]
  {
    var n := AttemptsOf(w, intent.id);
    var at := input.signal.timestamp;
    var submission := SubmissionEffects(w, intent, adjusted, at);
    var row := Order(intent, adjusted, StatusOf(w, intent.id).GetOr(SUBMITTED), n);
    SubmissionLegal(s, w, intent, adjusted, at);
    var w1 := ApplyAll(w, submission);
    ExecuteLegal(s, w1, intent, adjusted, at, input.adapter, n);
    var execution := ExecuteEffects(s, intent, adjusted, at, input.adapter, n);
    LegalConcat(s, w, submission, execution);
    ApplyAllConcat(w, submission, execution);
    TwiceUpdated(w.orders, intent.id, row, Executed(s, row, intent, input.adapter, n));
  }

  lemma TradeLegal(s: Settings, w: World, p: Plan, input: Input, intent: Intent, adjusted: real)
    requires Sound(s, w) && !AlreadyTerminal(w, intent.id)
    ensures LegalFrom(s, w, TradeEffects(s, w, p, input, intent, adjusted))
  {
    var n := AttemptsOf(w, intent.id);
    var result := ExecuteResult(s, intent, input.adapter, n);
    var opening := OpeningEffects(s, w, input, intent, adjusted);
    OpeningLegal(s, w, input, intent, adjusted);
    if result.None? {
      assert opening + [] == opening;
    } else {
      var w1 := ApplyAll(w, opening);
      var last := LastAttempt(s, input.adapter, n);
      ResultWithinCap(s, intent, input.adapter, n);
      FilledClosingLegal(s, w1, p, input, intent, result.value, adjusted, last);
      LegalConcat(s, w, opening, FilledClosing(p, input, intent, result.value, adjusted, last));
    }
  }

  lemma {:induction false} ResultWithinCap(s: Settings, intent: Intent, adapter: nat -> Outcome, n: nat)
    ensures ExecuteResult(s, intent, adapter, n).Some? ==> n < s.MaxAttempts()
  {
  }

  lemma FilledClosingLegal(
    s: Settings, w: World, p: Plan, input: Input, intent: Intent, report: Report, adjusted: real, attempts: nat)
    requires intent.id in w.orders && report.id == intent.id
    requires w.orders[intent.id].status == report.status && w.orders[intent.id].attempts == attempts
    ensures LegalFrom(s, w, FilledClosing(p, input, intent, report, adjusted, attempts))
  {
    var audit := AuditEffects(
      Decisions(input.signal, p.transition, Some(intent), true), Some(Noted(p, report)),
      Settled(p, input, intent, report), FilledEntries(p, input, Noted(p, report), adjusted));
    ClosingLegal(
      s, w, audit, UpsertOrder(intent, adjusted, report.status, attempts),
      BookEffects(p, input, Settled(p, input, intent, report)));
  }

  lemma RejectedClosingLegal(s: Settings, w: World, p: Plan, input: Input, intent: Intent)
    requires !AlreadyTerminal(w, intent.id)
    ensures LegalFrom(s, w, RejectedClosing(w, p, input, intent))
  {
    var result := Reconciler.Verdict(p.position, p.portfolio, Some(intent), false, None, input.reconciledAt);
    var audit := AuditEffects(
      Decisions(input.signal, p.transition, Some(intent), false), None, result, RejectionEntries(p, input, intent.id));
    ClosingLegal(
      s, w, audit, UpsertOrder(intent, 0.0, REJECTED, AttemptsOf(w, intent.id)), BookEffects(p, input, result));
  }

  lemma ProcessLegal(s: Settings, w: World, input: Input)
    requires Sound(s, w)
    ensures LegalFrom(s, w, ProcessEffects(s, w, input))
  {
    var p := PlanOf(s, w, input);
    if p.intent.None? {
      RowBlindLegal(s, w, IdleClosing(p, input));
    } else if AlreadyTerminal(w, p.intent.value.id) {
      RowBlindLegal(s, w, ProcessEffects(s, w, input));
    } else if !Allowed(s, p, input) {
      RejectedClosingLegal(s, w, p, input, p.intent.value);
    } else {
      TradeLegal(s, w, p, input, p.intent.value, Adjusted(s, p, input));
    }
  }

  // --- effects about other orders ----------------------------------------------------------------

  // Whether an effect can change anything recorded about an order.
  predicate Concerns(e: Effect, id: IntentId) {
    match e
    case UpsertOrder(intent, _, _, _) => intent.id == id
    case MarkOrder(i, _) => i == id
    case SetAttempts(i, _) => i == id
    case Dispatch(i) => i == id
    case SaveReport(r) => r.id == id
    case AppendLedger(entries) => exists i | 0 <= i < |entries| :: entries[i].id == id
    case _ => false
  }

  // Row, dispatches, latest report and ledger statuses of one order are the same in both states.
  ghost predicate SameOrder(w: World, w': World, id: IntentId) {
    && (id in w.orders <==> id in w'.orders)
    && (id in w.orders ==> w.orders[id] == w'.orders[id])
    && CountDispatches(w.dispatches, id) == CountDispatches(w'.dispatches, id)
    && LatestReport(w.reports, id) == LatestReport(w'.reports, id)
    && (forall status: Status :: HasStatus(w.ledger, id, status) <==> HasStatus(w'.ledger, id, status))
  }

  lemma SameStep(w: World, e: Effect, id: IntentId)
    requires !Concerns(e, id)
    ensures SameOrder(w, Apply(w, e), id)
  {
    match e {
      case Dispatch(sent) => DispatchCounted(w, sent, id);
      case SaveReport(r) => OtherReportKept(w.reports, r, id);
      case AppendLedger(entries) =>
        forall status: Status
          ensures HasStatus(w.ledger, id, status) <==> HasStatus(Apply(w, e).ledger, id, status)
        {
          AppendedStatus(w.ledger, entries, id, status);
        }
      case _ =>
    }
  }

  lemma {:induction false} SameRun(w: World, es: seq<Effect>, k: nat, id: IntentId)
    requires k <= |es| && forall e | e in es :: !Concerns(e, id)
    ensures SameOrder(w, After(w, es, k), id)
    decreases k
  {
    if k > 0 {
      SameRun(w, es, k - 1, id);
      assert es[k - 1] in es;
      SameStep(After(w, es, k - 1), es[k - 1], id);
    }
  }

  ghost predicate AboutOnly(es: seq<Effect>, id: IntentId) {
    forall e, other: IntentId | e in es && other != id :: !Concerns(e, other)
  }

  lemma AboutConcat(a: seq<Effect>, b: seq<Effect>, id: IntentId)
    requires AboutOnly(a, id) && AboutOnly(b, id)
    ensures AboutOnly(a + b, id)
  {
  }

  lemma {:induction false} ExecuteAboutOnly(
    s: Settings, intent: Intent, adjusted: real, at: int, adapter: nat -> Outcome, n: nat)
    ensures AboutOnly(ExecuteEffects(s, intent, adjusted, at, adapter, n), intent.id)
    decreases s.MaxAttempts() - n
  {
    if n < s.MaxAttempts() {
      var first := AttemptEffects(s, intent, adjusted, at, adapter, n);
      AttemptAboutOnly(s, intent, adjusted, at, adapter, n);
      if adapter(n).Raised? {
        ExecuteAboutOnly(s, intent, adjusted, at, adapter, n + 1);
        AboutConcat(first, ExecuteEffects(s, intent, adjusted, at, adapter, n + 1), intent.id);
      } else {
        AboutConcat(first, [], intent.id);
      }
    }
  }

  lemma AttemptAboutOnly(s: Settings, intent: Intent, adjusted: real, at: int, adapter: nat -> Outcome, n: nat)
    ensures AboutOnly(AttemptEffects(s, intent, adjusted, at, adapter, n), intent.id)
  {
  }

  lemma RecoverAboutOnly(s: Settings, w: World, r: Recoverable, env: Env)
    ensures AboutOnly(RecoverOne(s, w, r, env), r.intent.id)
  {
    var id := r.intent.id;
    var report := RecoveredReport(s, w, r, env);
    var notice := [AppendLedger([RecoveryEntry(r, env.recoveredAt)])];
    ExecuteAboutOnly(s, r.intent, r.adjustedUsd, env.riskAt, env.adapter, AttemptsOf(w, id));
    AboutConcat(notice, RecoveryExecution(s, w, r, env), id);
    var closing := if report.None? then [] else RecoveryClosing(w, r, report.value, env);
    AboutConcat(notice + RecoveryExecution(s, w, r, env), closing, id);
  }

  // --- recovery is legal -------------------------------------------------------------------------

  lemma RecoveryClosingLegal(s: Settings, w: World, w1: World, r: Recoverable, report: Report, env: Env)
    requires r.intent.id in w1.orders
    requires w1.orders[r.intent.id].status == FILLED || !Terminal(w1.orders[r.intent.id].status)
    ensures LegalFrom(s, w1, RecoveryClosing(w, r, report, env))
  {
    var es := RecoveryClosing(w, r, report, env);
    var book, mark, entry := es[..3], [es[3]], [es[4]];
    RowBlindLegal(s, w1, book);
    LegalOne(s, ApplyAll(w1, book), es[3]);
    LegalConcat(s, w1, book, mark);
    RowBlindLegal(s, ApplyAll(w1, book + mark), entry);
    LegalConcat(s, w1, book + mark, entry);
    assert es == book + mark + entry;
  }

  lemma RecoverOneLegal(s: Settings, w: World, r: Recoverable, env: Env)
    requires Sound(s, w) && IsRow(w, r)
    ensures LegalFrom(s, w, RecoverOne(s, w, r, env))
  {
    var id, n := r.intent.id, AttemptsOf(w, r.intent.id);
    var report := RecoveredReport(s, w, r, env);
    var notice := [AppendLedger([RecoveryEntry(r, env.recoveredAt)])];
    RowBlindLegal(s, w, notice);
    var w1 := ApplyAll(w, notice);
    var run := RecoveryExecution(s, w, r, env);
    if r.status != FILLED {
      assert CountDispatches(w.dispatches, id) <= AttemptsOf(w, id);
      ExecuteLegal(s, w1, r.intent, r.adjustedUsd, env.riskAt, env.adapter, n);
    }
    LegalConcat(s, w, notice, run);
    ApplyAllConcat(w, notice, run);
    if report.Some? {
      RecoveryClosingLegal(s, w, ApplyAll(w1, run), r, report.value, env);
      LegalConcat(s, w, notice + run, RecoveryClosing(w, r, report.value, env));
    } else {
      assert notice + run + [] == notice + run;
    }
  }

  // Rows that recovery has not reached yet are still as the query read them.
  lemma {:induction false} RowUntouched(
    s: Settings, w: World, rs: seq<Recoverable>, env: IntentId -> Env, n: nat, id: IntentId)
    requires n <= |rs| && forall i | 0 <= i < n :: rs[i].intent.id != id
    ensures SameOrder(w, RecoverState(s, w, rs[..n], env), id)
    decreases n
  {
    if n > 0 {
      RowUntouched(s, w, rs, env, n - 1, id);
      RecoverNext(s, w, rs, env, n - 1);
      var before := RecoverState(s, w, rs[..n - 1], env);
      var es := RecoverOne(s, before, rs[n - 1], env(rs[n - 1].intent.id));
      RecoverAboutOnly(s, before, rs[n - 1], env(rs[n - 1].intent.id));
      SameRun(before, es, |es|, id);
    }
  }

  lemma {:induction false} RecoverLegal(s: Settings, w: World, rs: seq<Recoverable>, env: IntentId -> Env, n: nat)
    requires Sound(s, w) && Enumerates(w, rs) && n <= |rs|
    ensures LegalFrom(s, w, RecoverEffects(s, w, rs[..n], env))
    decreases n
  {
    if n > 0 {
      RecoverLegal(s, w, rs, env, n - 1);
      RecoverNext(s, w, rs, env, n - 1);
      var es := RecoverEffects(s, w, rs[..n - 1], env);
      var r := rs[n - 1];
      var before := ApplyAll(w, es);
      LegalRun(s, w, es, |es|);
      RowUntouched(s, w, rs, env, n - 1, r.intent.id);
      assert IsRow(w, r);
      RowMoves(w, before, r);
      RecoverOneLegal(s, before, r, env(r.intent.id));
      LegalConcat(s, w, es, RecoverOne(s, before, r, env(r.intent.id)));
    }
  }

  lemma RowMoves(w: World, w': World, r: Recoverable)
    requires IsRow(w, r) && SameOrder(w, w', r.intent.id)
    ensures IsRow(w', r)
  {
  }

  // --- whole runs --------------------------------------------------------------------------------

  // One call of the worker, cut off after some number of effects by a crash or an exception; a cut at or
  // beyond the end is a call that completes.
  datatype Step =
    | Process(input: Input, cut: nat)
    | Recover(rows: seq<Recoverable>, env: IntentId -> Env, cut: nat)

  ghost function StepEffects(s: Settings, w: World, step: Step): seq<Effect> {
    match step
    case Process(input, _) => ProcessEffects(s, w, input)
    case Recover(rows, env, _) => RecoverEffects(s, w, rows, env)
  }

  ghost predicate Possible(w: World, step: Step) { step.Recover? ==> Enumerates(w, step.rows) }

  ghost function Next(s: Settings, w: World, step: Step): World {
    var es := StepEffects(s, w, step);
    After(w, es, if step.cut <= |es| then step.cut else |es|)
  }

  ghost predicate Moves(s: Settings, w: World, step: Step, w': World) {
    Possible(w, step) && w' == Next(s, w, step)
  }

  // The states between the steps of a run.
  ghost predicate Run(s: Settings, states: seq<World>, steps: seq<Step>) {
    && |states| == |steps| + 1
    && forall k | 0 <= k < |steps| :: Moves(s, states[k], steps[k], states[k + 1])
  }

  lemma StepLegal(s: Settings, w: World, step: Step)
    requires Sound(s, w) && Possible(w, step)
    ensures LegalFrom(s, w, StepEffects(s, w, step))
  {
    match step {
      case Process(input, _) => ProcessLegal(s, w, input);
      case Recover(rows, env, _) =>
        assert rows[..|rows|] == rows;
        RecoverLegal(s, w, rows, env, |rows|);
    }
  }

  lemma MoveSound(s: Settings, w: World, step: Step, w': World)
    requires Sound(s, w) && Moves(s, w, step, w')
    ensures Sound(s, w') && Progress(w, w')
  {
    var es := StepEffects(s, w, step);
    StepLegal(s, w, step);
    LegalRun(s, w, es, if step.cut <= |es| then step.cut else |es|);
  }

  lemma EmptySound(s: Settings)
    ensures Sound(s, EMPTY)
  {
  }

  lemma {:induction false} RunSound(s: Settings, states: seq<World>, steps: seq<Step>, k: nat)
    requires Run(s, states, steps) && Sound(s, states[0]) && k < |states|
    ensures Sound(s, states[k])
    decreases k
  {
    if k > 0 {
      RunSound(s, states, steps, k - 1);
      MoveSound(s, states[k - 1], steps[k - 1], states[k]);
    }
  }

  // Over every run of processing, crashes and recoveries from an empty database, in every state reached:
  // an intent has been dispatched at most as often as its stored counter says, and that is at most
  // max_retries + 1, restarts included.
  lemma LifetimeRetryBound(s: Settings, states: seq<World>, steps: seq<Step>, k: nat, id: IntentId)
    requires Run(s, states, steps) && states[0] == EMPTY && k < |states|
    ensures CountDispatches(states[k].dispatches, id) <= AttemptsOf(states[k], id) <= AttemptCap(s)
  {
    EmptySound(s);
    RunSound(s, states, steps, k);
  }

  lemma RunAdvances(s: Settings, states: seq<World>, steps: seq<Step>, k: nat)
    requires Run(s, states, steps) && states[0] == EMPTY && k < |steps|
    ensures Progress(states[k], states[k + 1])
  {
    EmptySound(s);
    RunSound(s, states, steps, k);
    MoveSound(s, states[k], steps[k], states[k + 1]);
  }

  lemma {:induction false} ProgressChain(states: seq<World>, i: nat, j: nat)
    requires i <= j < |states|
    requires forall k | 0 < k < |states| :: Progress(states[k - 1], states[k])
    ensures Progress(states[i], states[j])
    decreases j - i
  {
    if i == j {
      ProgressReflexive(states[i]);
    } else {
      ProgressChain(states, i, j - 1);
      ProgressTransitive(states[i], states[j - 1], states[j]);
    }
  }

  // Between any two moments of any run: attempts never decrease; REJECTED and RECONCILED are final and
  // FILLED can only become RECONCILED; and a terminal order is never dispatched again.
  lemma TerminalOrdersAbsorbing(s: Settings, states: seq<World>, steps: seq<Step>, i: nat, j: nat)
    requires Run(s, states, steps) && states[0] == EMPTY && i <= j < |states|
    ensures Progress(states[i], states[j])
  {
    forall k | 0 < k < |states|
      ensures Progress(states[k - 1], states[k])
    {
      RunAdvances(s, states, steps, k - 1);
    }
    ProgressChain(states, i, j);
  }
}
