// Crash windows of core/pipeline.py: for every point at which a batch can die, what its order is left as, and exactly
// what the next recovery makes of it, dispatches included.
module CrashWindows {
  import opened Schemas
  import opened World
  import opened Pipeline
  import opened OrderLifecycle
  import opened Books
  import opened CrashRecovery
  import Reconciler
  import Router

  // Risk let x through.
  ghost predicate Permits(s: Settings, w: World, input: Input, x: Intent) {
    var p := PlanOf(s, w, input);
    p.intent == Some(x) && !AlreadyTerminal(w, x.id) && Allowed(s, p, input)
  }

  // --- what a batch has done when it dies --------------------------------------------------------

  lemma RejectedAbout(s: Settings, w: World, input: Input, x: Intent)
    requires var p := PlanOf(s, w, input);
      p.intent == Some(x) && !AlreadyTerminal(w, x.id) && !Allowed(s, p, input)
    ensures AboutOnly(ProcessEffects(s, w, input), x.id)
  {
    var p, es := PlanOf(s, w, input), ProcessEffects(s, w, input);
    var entries := RejectionEntries(p, input, x.id);
    assert |es| == 7 && es[2] == AppendLedger(entries);
    forall k, other: IntentId | 0 <= k < 7 && other != x.id
      ensures !Concerns(es[k], other)
    {
      assert k == 0 || k == 1 || k == 2 || k == 3 || k == 4 || k == 5 || k == 6;
    }
  }

  // Only the routed order is concerned.
  lemma ProcessAbout(s: Settings, w: World, input: Input, x: Intent)
    requires PlanOf(s, w, input).intent == Some(x)
    ensures AboutOnly(ProcessEffects(s, w, input), x.id)
  {
    var p := PlanOf(s, w, input);
    if !AlreadyTerminal(w, x.id) {
      if !Allowed(s, p, input) {
        RejectedAbout(s, w, input, x);
      } else if Exhausted(s, w, input) {
        ExhaustedAbout(s, w, input, x);
      } else {
        FillAboutOnly(s, w, input, x, ExecuteResult(s, x, input.adapter, AttemptsOf(w, x.id)).value);
      }
    }
  }

  lemma ExhaustedAbout(s: Settings, w: World, input: Input, x: Intent)
    requires Exhausted(s, w, input) && PlanOf(s, w, input).intent == Some(x)
    ensures ProcessEffects(s, w, input) == Opening(s, w, input, x) && AboutOnly(Opening(s, w, input, x), x.id)
  {
    var adjusted, at, n := Adjusted(s, PlanOf(s, w, input), input), input.signal.timestamp, AttemptsOf(w, x.id);
    assert Opening(s, w, input, x) + [] == Opening(s, w, input, x);
    ExecuteAboutOnly(s, x, adjusted, at, input.adapter, n);
    AboutConcat(SubmissionEffects(w, x, adjusted, at), ExecuteEffects(s, x, adjusted, at, input.adapter, n), x.id);
  }

  lemma OpeningKeepsBook(s: Settings, w: World, input: Input, x: Intent, k: nat)
    requires k <= |Opening(s, w, input, x)|
    ensures SameBook(w, After(w, Opening(s, w, input, x), k))
  {
    ExecuteKeepsBook(
      s, x, Adjusted(s, PlanOf(s, w, input), input), input.signal.timestamp, input.adapter, AttemptsOf(w, x.id));
    BookKeptSame(w, Opening(s, w, input, x), k);
  }

  lemma FilledBookBefore(s: Settings, w: World, input: Input, x: Intent, report: Report, k: nat)
    requires Sound(s, w) && Fills(s, w, input, x, report)
    requires k <= |Opening(s, w, input, x)| + 5 && k <= |ProcessEffects(s, w, input)|
    ensures SameBook(w, After(w, ProcessEffects(s, w, input), k))
  {
    FillsEffects(s, w, input, x, report);
    if k < |Opening(s, w, input, x)| {
      AfterConcat(w, Opening(s, w, input, x), Closing(s, w, input, x, report), k);
      OpeningKeepsBook(s, w, input, x, k);
    } else {
      CrashedBook(s, w, input, x, report, k);
    }
  }

  // --- the order that may be live ----------------------------------------------------------------

  // Every order write of these effects is about x itself, at this size.
  predicate Upserts(es: seq<Effect>, x: Intent, adjusted: real) {
    forall e | e in es && e.UpsertOrder? :: e.intent == x && e.adjustedUsd == adjusted
  }

  lemma {:induction false} ExecuteUpserts(
    s: Settings, intent: Intent, adjusted: real, at: int, adapter: nat -> Outcome, n: nat)
    ensures forall e | e in ExecuteEffects(s, intent, adjusted, at, adapter, n) :: !e.UpsertOrder?
    decreases s.MaxAttempts() - n
  {
    if n < s.MaxAttempts() {
      ExecuteUpserts(s, intent, adjusted, at, adapter, n + 1);
    }
  }

  lemma TradeUpserts(s: Settings, w: World, input: Input, x: Intent)
    requires Permits(s, w, input, x)
    ensures var es, adjusted := ProcessEffects(s, w, input), Adjusted(s, PlanOf(s, w, input), input);
      |es| > 0 && es[0].UpsertOrder? && Upserts(es, x, adjusted)
  {
    var n := AttemptsOf(w, x.id);
    ExecuteUpserts(s, x, Adjusted(s, PlanOf(s, w, input), input), input.signal.timestamp, input.adapter, n);
    var opening := Opening(s, w, input, x);
    assert opening[0].UpsertOrder? && Upserts(opening, x, Adjusted(s, PlanOf(s, w, input), input));
    if Exhausted(s, w, input) {
      ExhaustedAbout(s, w, input, x);
    } else {
      var report := ExecuteResult(s, x, input.adapter, n).value;
      FillsEffects(s, w, input, x, report);
      ClosingUpserts(s, w, input, x, report);
    }
  }

  lemma ClosingUpserts(s: Settings, w: World, input: Input, x: Intent, report: Report)
    requires Fills(s, w, input, x, report)
    ensures Upserts(Closing(s, w, input, x, report), x, Adjusted(s, PlanOf(s, w, input), input))
  {
    ClosingShape(s, w, input, x, report);
  }

  lemma {:induction false} IntentKept(w: World, es: seq<Effect>, x: Intent, adjusted: real, k: nat)
    requires 0 < k <= |es| && es[0].UpsertOrder? && Upserts(es, x, adjusted)
    ensures var c := After(w, es, k);
      x.id in c.orders && c.orders[x.id].intent == x && c.orders[x.id].adjustedUsd == adjusted
    decreases k
  {
    assert es[k - 1] in es && es[0] in es;
    if k > 1 {
      IntentKept(w, es, x, adjusted, k - 1);
    }
  }

  // Recovery can act on x only, if on any order.
  ghost predicate OneCandidate(s: Settings, c: World, x: Intent) {
    && (forall id | id in c.orders && IsRecoverable(c, id) && id != x.id :: Inert(s, c, id))
    && (x.id in c.orders && IsRecoverable(c, x.id) ==> Inert(s, c, x.id) || c.orders[x.id].intent == x)
  }

  lemma OthersStayInert(s: Settings, w: World, input: Input, x: Intent, k: nat, id: IntentId)
    requires Quiescent(s, w) && k <= |ProcessEffects(s, w, input)|
    requires PlanOf(s, w, input).intent == Some(x) && id != x.id
    requires var c := After(w, ProcessEffects(s, w, input), k); id in c.orders && IsRecoverable(c, id)
    ensures Inert(s, After(w, ProcessEffects(s, w, input), k), id)
  {
    var c := After(w, ProcessEffects(s, w, input), k);
    ProcessAbout(s, w, input, x);
    SameRun(w, ProcessEffects(s, w, input), k, id);
    RecoverableMoves(w, c, id);
    InertMoves(s, w, c, id);
  }

  // Wherever a batch dies, recovery can act on the permitted order only.
  lemma PermittedCandidate(s: Settings, w: World, input: Input, x: Intent, k: nat)
    requires Quiescent(s, w) && Permits(s, w, input, x) && k <= |ProcessEffects(s, w, input)|
    ensures OneCandidate(s, After(w, ProcessEffects(s, w, input), k), x)
  {
    var es := ProcessEffects(s, w, input);
    TradeUpserts(s, w, input, x);
    if k > 0 {
      IntentKept(w, es, x, Adjusted(s, PlanOf(s, w, input), input), k);
    }
    forall id | id in After(w, es, k).orders && IsRecoverable(After(w, es, k), id) && id != x.id
      ensures Inert(s, After(w, es, k), id)
    {
      OthersStayInert(s, w, input, x, k, id);
    }
  }

  // --- recovering it -----------------------------------------------------------------------------

  // The report that recovery applies to x in this state, if any: the stored one of a FILLED order, or what a new
  // execution returns.
  function Answer(s: Settings, c: World, x: Intent, adapter: nat -> Outcome): Option<Report> {
    if !(x.id in c.orders && IsRecoverable(c, x.id)) then None
    else if c.orders[x.id].status == FILLED then LatestReport(c.reports, x.id)
    else ExecuteResult(s, x, adapter, AttemptsOf(c, x.id))
  }

  // How often it dispatches x.
  function Redispatches(s: Settings, c: World, id: IntentId, adapter: nat -> Outcome): (n: nat)
    ensures n > 0 <==>
      id in c.orders && IsRecoverable(c, id) && c.orders[id].status != FILLED && AttemptsOf(c, id) < s.MaxAttempts()
  {
    if !(id in c.orders && IsRecoverable(c, id)) || c.orders[id].status == FILLED then 0
    else LastAttempt(s, adapter, AttemptsOf(c, id)) - AttemptsOf(c, id)
  }

  ghost predicate Outcome(
    s: Settings, c: World, d: World, x: Intent, answer: Option<Report>, dispatched: nat)
  {
    && (match answer
        case Some(report) => AppliedOnce(c, d, x, report)
        case None => SameBook(c, d))
    && CountDispatches(d.dispatches, x.id) == CountDispatches(c.dispatches, x.id) + dispatched
  }

  lemma OthersAround(s: Settings, c: World, rows: seq<Recoverable>, x: Intent, i: nat)
    requires Enumerates(c, rows) && OneCandidate(s, c, x) && i < |rows| && rows[i].intent.id == x.id
    ensures forall j | 0 <= j < |rows| && j != i :: Inert(s, c, rows[j].intent.id)
  {
    forall j | 0 <= j < |rows| && j != i
      ensures Inert(s, c, rows[j].intent.id)
    {
      assert IsRow(c, rows[j]);
      assert rows[j].intent.id != x.id;
    }
  }

  lemma DispatchedSnoc(ids: seq<IntentId>, sent: IntentId, id: IntentId)
    ensures CountDispatches(ids + [sent], id) == CountDispatches(ids, id) + if sent == id then 1 else 0
  {
  }

  lemma {:induction false} DispatchesKept(w: World, es: seq<Effect>, k: nat)
    requires k <= |es| && forall i | 0 <= i < k :: !es[i].Dispatch?
    ensures After(w, es, k).dispatches == w.dispatches
    decreases k
  {
    if k > 0 {
      DispatchesKept(w, es, k - 1);
    }
  }

  lemma AttemptDispatches(
    s: Settings, w: World, intent: Intent, adjusted: real, at: int, adapter: nat -> Outcome, n: nat)
    ensures ApplyAll(w, AttemptEffects(s, intent, adjusted, at, adapter, n)).dispatches == w.dispatches + [intent.id]
  {
    Four(w, AttemptEffects(s, intent, adjusted, at, adapter, n));
  }

  // An execution dispatches once for each attempt it makes.
  lemma {:induction false} ExecuteDispatches(
    s: Settings, w: World, intent: Intent, adjusted: real, at: int, adapter: nat -> Outcome, n: nat)
    ensures CountDispatches(
        ApplyAll(w, ExecuteEffects(s, intent, adjusted, at, adapter, n)).dispatches, intent.id)
      == CountDispatches(w.dispatches, intent.id) + LastAttempt(s, adapter, n) - n
    decreases s.MaxAttempts() - n
  {
    if n < s.MaxAttempts() {
      var first := AttemptEffects(s, intent, adjusted, at, adapter, n);
      AttemptDispatches(s, w, intent, adjusted, at, adapter, n);
      DispatchedSnoc(w.dispatches, intent.id, intent.id);
      ApplyAllConcat(w, first, Remaining(s, intent, adjusted, at, adapter, n));
      if adapter(n).Raised? {
        ExecuteDispatches(s, ApplyAll(w, first), intent, adjusted, at, adapter, n + 1);
      }
    }
  }

  lemma RecoverOneDispatches(s: Settings, w: World, r: Recoverable, env: Env)
    ensures CountDispatches(ApplyAll(w, RecoverOne(s, w, r, env)).dispatches, r.intent.id)
      == CountDispatches(w.dispatches, r.intent.id)
         + if r.status == FILLED then 0
           else LastAttempt(s, env.adapter, AttemptsOf(w, r.intent.id)) - AttemptsOf(w, r.intent.id)
  {
    var report := RecoveredReport(s, w, r, env);
    var w1, run := ApplyAll(w, [Notice(r, env)]), RecoveryExecution(s, w, r, env);
    var closing := if report.None? then [] else RecoveryClosing(w, r, report.value, env);
    ApplyAllOne(w, Notice(r, env));
    ApplyAllConcat(w, [Notice(r, env)], run);
    ApplyAllConcat(w, [Notice(r, env)] + run, closing);
    DispatchesKept(ApplyAll(w1, run), closing, |closing|);
    if r.status != FILLED {
      ExecuteDispatches(s, w1, r.intent, r.adjustedUsd, env.riskAt, env.adapter, AttemptsOf(w, r.intent.id));
    }
  }

  // With at most one order to act on, recovery applies its answer, or leaves the book alone, and dispatches that
  // order once for each attempt it has left to make.
  lemma CandidateRecovery(s: Settings, c: World, rows: seq<Recoverable>, env: IntentId -> Env, x: Intent)
    requires Sound(s, c) && Enumerates(c, rows) && OneCandidate(s, c, x)
    ensures var adapter := env(x.id).adapter;
      Outcome(
        s, c, RecoverState(s, c, rows, env), x, Answer(s, c, x, adapter), Redispatches(s, c, x.id, adapter))
  {
    assert rows[..0] == [] && rows[..|rows|] == rows;
    if i: nat :| i < |rows| && rows[i].intent.id == x.id && !Inert(s, c, x.id) {
      assert IsRow(c, rows[i]);
      OthersAround(s, c, rows, x, i);
      CandidateRow(s, c, rows, env, x, i);
    } else {
      NoCandidate(s, c, rows, env, x);
    }
  }

  lemma NoCandidate(s: Settings, c: World, rows: seq<Recoverable>, env: IntentId -> Env, x: Intent)
    requires Sound(s, c) && Enumerates(c, rows) && OneCandidate(s, c, x)
    requires forall i: nat | i < |rows| && rows[i].intent.id == x.id :: Inert(s, c, x.id)
    ensures var adapter := env(x.id).adapter;
      Outcome(
        s, c, RecoverState(s, c, rows, env), x, Answer(s, c, x, adapter), Redispatches(s, c, x.id, adapter))
  {
    forall id | id in c.orders && IsRecoverable(c, id)
      ensures Inert(s, c, id)
    {
      var i: nat :| i < |rows| && rows[i].intent.id == id;
    }
    QuiescentRecovery(s, c, rows, env);
    InertDispatches(s, c, rows, env, |rows|, x.id);
    assert rows[..|rows|] == rows;
  }

  lemma {:induction false} InertDispatches(
    s: Settings, c: World, rows: seq<Recoverable>, env: IntentId -> Env, n: nat, id: IntentId)
    requires Sound(s, c) && Enumerates(c, rows) && Quiescent(s, c) && n <= |rows|
    ensures CountDispatches(RecoverState(s, c, rows[..n], env).dispatches, id) == CountDispatches(c.dispatches, id)
    decreases n
  {
    if n > 0 {
      var v, r := RecoverState(s, c, rows[..n - 1], env), rows[n - 1];
      InertDispatches(s, c, rows, env, n - 1, id);
      AtRow(s, c, rows, env, n - 1);
      assert IsRow(c, r);
      InertMoves(s, c, v, r.intent.id);
      InertOnlyNoticed(s, v, r, env(r.intent.id));
      RecoverNext(s, c, rows, env, n - 1);
      DispatchesKept(v, [Notice(r, env(r.intent.id))], 1);
    }
  }

  lemma CandidateRow(s: Settings, c: World, rows: seq<Recoverable>, env: IntentId -> Env, x: Intent, i: nat)
    requires Sound(s, c) && Enumerates(c, rows) && i < |rows| && rows[i].intent == x
    requires forall j | 0 <= j < |rows| && j != i :: Inert(s, c, rows[j].intent.id)
    ensures var adapter := env(x.id).adapter;
      Outcome(
        s, c, RecoverState(s, c, rows, env), x, Answer(s, c, x, adapter), Redispatches(s, c, x.id, adapter))
  {
    var v, v', d :=
      RecoverState(s, c, rows[..i], env), RecoverState(s, c, rows[..i + 1], env), RecoverState(s, c, rows, env);
    RecoverWhole(s, c, rows, env);
    InertRows(s, c, rows, env, 0, i);
    InertRows(s, c, rows, env, i + 1, |rows|);
    OtherRows(s, c, rows, env, i);
    CandidateStep(s, c, rows, env, x, i);
    var adapter := env(x.id).adapter;
    OutcomeAround(s, c, v, v', d, x, Answer(s, c, x, adapter), Redispatches(s, c, x.id, adapter));
  }

  lemma RecoverWhole(s: Settings, c: World, rows: seq<Recoverable>, env: IntentId -> Env)
    ensures RecoverState(s, c, rows[..0], env) == c
    ensures RecoverState(s, c, rows[..|rows|], env) == RecoverState(s, c, rows, env)
  {
    assert rows[..0] == [] && rows[..|rows|] == rows;
  }

  lemma OutcomeAround(
    s: Settings, c: World, v: World, v': World, d: World, x: Intent, answer: Option<Report>, dispatched: nat)
    requires SameBook(c, v) && CountDispatches(v.dispatches, x.id) == CountDispatches(c.dispatches, x.id)
    requires Outcome(s, v, v', x, answer, dispatched)
    requires SameBook(v', d) && CountDispatches(d.dispatches, x.id) == CountDispatches(v'.dispatches, x.id)
    ensures Outcome(s, c, d, x, answer, dispatched)
  {
    if answer.Some? {
      SameThenApplied(c, v, v', x, answer.value);
      AppliedThenSame(c, v', d, x, answer.value);
    }
  }

  // The other rows do not dispatch x.
  lemma OtherRows(s: Settings, c: World, rows: seq<Recoverable>, env: IntentId -> Env, i: nat)
    requires Enumerates(c, rows) && i < |rows|
    ensures var id := rows[i].intent.id;
      && CountDispatches(RecoverState(s, c, rows[..i], env).dispatches, id) == CountDispatches(c.dispatches, id)
      && CountDispatches(RecoverState(s, c, rows, env).dispatches, id)
           == CountDispatches(RecoverState(s, c, rows[..i + 1], env).dispatches, id)
  {
    RowUntouched(s, c, rows, env, i, rows[i].intent.id);
    LaterRows(s, c, rows, env, i);
  }

  lemma LaterRows(s: Settings, c: World, rows: seq<Recoverable>, env: IntentId -> Env, i: nat)
    requires Enumerates(c, rows) && i < |rows|
    ensures SameOrder(RecoverState(s, c, rows[..i + 1], env), RecoverState(s, c, rows, env), rows[i].intent.id)
  {
    Apart(s, c, rows, env, i + 1, |rows|, rows[i].intent.id);
    RecoverWhole(s, c, rows, env);
  }

  lemma CandidateStep(s: Settings, c: World, rows: seq<Recoverable>, env: IntentId -> Env, x: Intent, i: nat)
    requires Sound(s, c) && Enumerates(c, rows) && i < |rows| && rows[i].intent == x
    ensures var adapter := env(x.id).adapter;
      Outcome(
        s, RecoverState(s, c, rows[..i], env), RecoverState(s, c, rows[..i + 1], env), x,
        Answer(s, c, x, adapter), Redispatches(s, c, x.id, adapter))
  {
    var v := RecoverState(s, c, rows[..i], env);
    AtRow(s, c, rows, env, i);
    assert IsRow(c, rows[i]);
    RecoverOneOutcome(s, v, rows[i], env(x.id));
    RecoverOneDispatches(s, v, rows[i], env(x.id));
    RecoverNext(s, c, rows, env, i);
    assert RecoveredReport(s, v, rows[i], env(x.id)) == Answer(s, c, x, env(x.id).adapter);
  }

  // --- dying after the report is stored ----------------------------------------------------------

  // A FILLED order whose closing ledger entry is not written yet, and whose ledger was not closed before.
  predicate Recovers(w: World, x: Intent, report: Report, j: int) {
    report.status == FILLED && j <= 3 && OpenLedger(w, x.id)
  }

  // The same for an order that was only submitted, as a venue that settles later reports it.
  predicate Resubmits(w: World, x: Intent, report: Report, j: int) {
    report.status == SUBMITTED && j <= 3 && OpenLedger(w, x.id)
  }

  // The attempts that the batch has used up.
  function AttemptsUsed(s: Settings, w: World, input: Input, x: Intent): nat {
    LastAttempt(s, input.adapter, AttemptsOf(w, x.id))
  }

  lemma ClosingAttempts(w1: World, es: seq<Effect>, x: Intent, j: nat)
    requires |es| == 8 && j <= 8 && es[4].UpsertOrder? && es[4].intent == x
    requires AttemptsOf(w1, x.id) == es[4].attempts
    requires forall i | 0 <= i < 8 && i != 4 :: RowBlind(es[i])
    ensures AttemptsOf(After(w1, es, j), x.id) == es[4].attempts
  {
    RowBlindPrefix(w1, es, 0, if j <= 4 then j else 4);
    if j >= 5 {
      assert After(w1, es, 5) == Apply(After(w1, es, 4), es[4]);
      RowBlindPrefix(w1, es, 5, j);
    }
  }

  lemma CrashedAttempts(s: Settings, w: World, input: Input, x: Intent, report: Report, k: nat)
    requires Sound(s, w) && Fills(s, w, input, x, report)
    requires |Opening(s, w, input, x)| <= k <= |ProcessEffects(s, w, input)|
    ensures AttemptsOf(After(w, ProcessEffects(s, w, input), k), x.id) == AttemptsUsed(s, w, input, x)
  {
    CrashSplit(s, w, input, x, report, k);
    OpenedAttempts(s, w, input, x, report);
    ClosingUpsert(s, w, input, x, report);
    ClosingAttempts(
      ApplyAll(w, Opening(s, w, input, x)), Closing(s, w, input, x, report), x, k - |Opening(s, w, input, x)|);
  }

  lemma OpenedAttempts(s: Settings, w: World, input: Input, x: Intent, report: Report)
    requires Sound(s, w) && Fills(s, w, input, x, report)
    ensures AttemptsOf(ApplyAll(w, Opening(s, w, input, x)), x.id) == AttemptsUsed(s, w, input, x)
  {
    OpeningLegal(s, w, input, x, Adjusted(s, PlanOf(s, w, input), input));
    ResultWithinCap(s, x, input.adapter, AttemptsOf(w, x.id));
  }

  lemma ClosingUpsert(s: Settings, w: World, input: Input, x: Intent, report: Report)
    requires Fills(s, w, input, x, report)
    ensures var es := Closing(s, w, input, x, report);
      && |es| == 8 && es[4].UpsertOrder? && es[4].intent == x && es[4].attempts == AttemptsUsed(s, w, input, x)
      && forall i | 0 <= i < 8 && i != 4 :: RowBlind(es[i])
  {
    ClosingShape(s, w, input, x, report);
  }

  // What recovery finds there.
  lemma AnswerAfterReport(
    s: Settings, w: World, input: Input, x: Intent, report: Report, k: nat, adapter: nat -> Outcome)
    requires Sound(s, w) && Fills(s, w, input, x, report)
    requires |Opening(s, w, input, x)| <= k <= |ProcessEffects(s, w, input)|
    ensures var c, j := After(w, ProcessEffects(s, w, input), k), k - |Opening(s, w, input, x)|;
      var answer, used := Answer(s, c, x, adapter), AttemptsUsed(s, w, input, x);
      && (Recovers(w, x, report, j) ==> answer.Some? && SameFill(answer.value, report))
      && (Resubmits(w, x, report, j) ==> answer == ExecuteResult(s, x, adapter, used))
      && (!Recovers(w, x, report, j) && !Resubmits(w, x, report, j) ==> answer == None)
      && (Redispatches(s, c, x.id, adapter) > 0 <==> Resubmits(w, x, report, j) && used < s.MaxAttempts())
  {
    CrashedOrderAt(s, w, input, x, report, k);
    CrashedAttempts(s, w, input, x, report, k);
    if report.status == FILLED {
      var stored := CrashedReportAt(s, w, input, x, report, k);
    }
  }

  lemma FillsPermits(s: Settings, w: World, input: Input, x: Intent, report: Report)
    requires Fills(s, w, input, x, report)
    ensures Permits(s, w, input, x)
  {
  }

  // For every crash point after the report is stored, what the next recovery leaves. Up to the closing ledger entry:
  // the fill, if it is FILLED and the ledger was open before; a second execution's, if it is SUBMITTED; else nothing.
  // From there to the position write: nothing. At the next point: the position without the portfolio. After that:
  // the fill. And the order is dispatched again exactly in the second case, if it has attempts left.
  lemma CrashAfterFill(
    s: Settings, w: World, input: Input, x: Intent, report: Report, k: nat, rs: seq<Recoverable>, env: IntentId -> Env)
    requires Sound(s, w) && Quiescent(s, w) && Fills(s, w, input, x, report)
    requires |Opening(s, w, input, x)| <= k <= |ProcessEffects(s, w, input)|
    requires Enumerates(After(w, ProcessEffects(s, w, input), k), rs)
    ensures var c, j := After(w, ProcessEffects(s, w, input), k), k - |Opening(s, w, input, x)|;
      var recovered := RecoverState(s, c, rs, env);
      var b := FillOf(BookOf(w, x.Token()), x, report);
      var again := ExecuteResult(s, x, env(x.id).adapter, AttemptsUsed(s, w, input, x));
      && (if j >= 7 || Recovers(w, x, report, j) then
            AppliedOnce(w, recovered, x, report)
          else if j == 6 then
            Rebooked(w, recovered, x.Token(), Reconciler.Book(b.position, PortfolioOf(w)))
          else if Resubmits(w, x, report, j) && again.Some? then
            AppliedOnce(w, recovered, x, again.value)
          else
            SameBook(w, recovered))
      && (CountDispatches(recovered.dispatches, x.id) > CountDispatches(c.dispatches, x.id)
          <==> Resubmits(w, x, report, j) && AttemptsUsed(s, w, input, x) < s.MaxAttempts())
  {
    var c, j := After(w, ProcessEffects(s, w, input), k), k - |Opening(s, w, input, x)|;
    var adapter := env(x.id).adapter;
    FillsPermits(s, w, input, x, report);
    CrashSound(s, w, input, k);
    PermittedCandidate(s, w, input, x, k);
    CandidateRecovery(s, c, rs, env, x);
    AnswerAfterReport(s, w, input, x, report, k, adapter);
    CrashedBook(s, w, input, x, report, k);
    BookAfterCrash(s, w, c, RecoverState(s, c, rs, env), x, report, j, Answer(s, c, x, adapter));
  }

  lemma BookAfterCrash(
    s: Settings, w: World, c: World, d: World, x: Intent, report: Report, j: int, answer: Option<Report>)
    requires var b := FillOf(BookOf(w, x.Token()), x, report);
      && (j <= 5 ==> SameBook(w, c))
      && (j == 6 ==> Rebooked(w, c, x.Token(), Reconciler.Book(b.position, PortfolioOf(w))))
      && (j >= 7 ==> AppliedOnce(w, c, x, report))
    requires match answer
      case Some(r) => AppliedOnce(c, d, x, r)
      case None => SameBook(c, d)
    requires j >= 4 ==> answer == None
    requires Recovers(w, x, report, j) ==> answer.Some? && SameFill(answer.value, report)
    ensures var b := FillOf(BookOf(w, x.Token()), x, report);
      if j >= 7 || Recovers(w, x, report, j) then AppliedOnce(w, d, x, report)
      else if j == 6 then Rebooked(w, d, x.Token(), Reconciler.Book(b.position, PortfolioOf(w)))
      else if answer.Some? then AppliedOnce(w, d, x, answer.value)
      else SameBook(w, d)
  {
    if answer.Some? {
      SameThenApplied(w, c, d, x, answer.value);
    } else if j >= 7 {
      AppliedThenSame(w, c, d, x, report);
    }
  }

  // What recovery has applied of a batch that died j writes after its report, where it has: the fill, or that of a
  // second execution.
  function RecoveredFill(
    s: Settings, w: World, input: Input, x: Intent, report: Report, j: int, adapter: nat -> Outcome): Option<Report>
  {
    if j >= 7 || Recovers(w, x, report, j) then Some(report)
    else if Resubmits(w, x, report, j) then ExecuteResult(s, x, adapter, AttemptsUsed(s, w, input, x))
    else None
  }

  // Crash-recovery equivalence, exactly: when the fill moves the portfolio at all, as every BUY does, the crashed and
  // recovered book equals the uninterrupted one if and only if recovery has applied the fill, or a second execution
  // that leaves the same book. The fill itself is applied if the process died before the closing ledger entry, with
  // a FILLED order whose ledger was open, or after the portfolio write.
  lemma ExactlyOnceWindows(
    s: Settings, w: World, input: Input, x: Intent, report: Report, k: nat, rs: seq<Recoverable>, env: IntentId -> Env)
    requires Sound(s, w) && Quiescent(s, w) && Fills(s, w, input, x, report)
    requires |Opening(s, w, input, x)| <= k <= |ProcessEffects(s, w, input)|
    requires Enumerates(After(w, ProcessEffects(s, w, input), k), rs)
    ensures var es, j := ProcessEffects(s, w, input), k - |Opening(s, w, input, x)|;
      var done, recovered := ApplyAll(w, es), RecoverState(s, After(w, es, k), rs, env);
      var fill, b := RecoveredFill(s, w, input, x, report, j, env(x.id).adapter), BookOf(w, x.Token());
      var same := fill.Some? && FillOf(b, x, fill.value) == FillOf(b, x, report);
      && (same ==> SameBook(recovered, done))
      && (PortfolioOf(done) != PortfolioOf(w) ==> (SameBook(recovered, done) <==> same))
      && (x.Action() == BUY ==> PortfolioOf(done) != PortfolioOf(w))
      && (Resubmits(w, x, report, j) || fill == None || fill == Some(report))
  {
    CrashAfterFill(s, w, input, x, report, k, rs, env);
    Uninterrupted(s, w, input, x, report);
    var es, j := ProcessEffects(s, w, input), k - |Opening(s, w, input, x)|;
    SameWhenRecovered(
      w, ApplyAll(w, es), RecoverState(s, After(w, es, k), rs, env), x, report,
      RecoveredFill(s, w, input, x, report, j, env(x.id).adapter), j == 6);
  }

  lemma SameWhenRecovered(
    w: World, done: World, recovered: World, x: Intent, report: Report, fill: Option<Report>, half: bool)
    requires AppliedOnce(w, done, x, report)
    requires var b := FillOf(BookOf(w, x.Token()), x, report);
      if fill.Some? then AppliedOnce(w, recovered, x, fill.value)
      else if half then Rebooked(w, recovered, x.Token(), Reconciler.Book(b.position, PortfolioOf(w)))
      else SameBook(w, recovered)
    ensures var b := BookOf(w, x.Token());
      var same := fill.Some? && FillOf(b, x, fill.value) == FillOf(b, x, report);
      && (same ==> SameBook(recovered, done))
      && (PortfolioOf(done) != PortfolioOf(w) ==> (SameBook(recovered, done) <==> same))
  {
    var b, token := BookOf(w, x.Token()), x.Token();
    assert PositionOf(done, token) == FillOf(b, x, report).position;
    if fill.Some? {
      assert PositionOf(recovered, token) == FillOf(b, x, fill.value).position;
    }
  }

  // --- dying before it is stored -----------------------------------------------------------------

  // The order between two effects of its execution: FILLED only once the last attempt has marked it so.
  ghost predicate RowBetween(w: World, v: World, intent: Intent, filled: bool) {
    && intent.id in w.orders && intent.id in v.orders
    && v.orders[intent.id].intent == w.orders[intent.id].intent
    && v.orders[intent.id].adjustedUsd == w.orders[intent.id].adjustedUsd
    && (v.orders[intent.id].status == FILLED <==> filled)
  }

  predicate ReportsFill(s: Settings, intent: Intent, adapter: nat -> Outcome, n: nat) {
    var r := ExecuteResult(s, intent, adapter, n); r.Some? && r.value.status == FILLED
  }

  lemma AttemptRows(
    s: Settings, w: World, intent: Intent, adjusted: real, at: int, adapter: nat -> Outcome, n: nat, k: nat)
    requires Ready(w, intent.id, n) && n < s.MaxAttempts() && k <= 4
    ensures RowBetween(
      w, After(w, AttemptEffects(s, intent, adjusted, at, adapter, n), k), intent,
      adapter(n).Reported? && adapter(n).status == FILLED && k >= 3)
  {
    Four(w, AttemptEffects(s, intent, adjusted, at, adapter, n));
    assert k == 0 || k == 1 || k == 2 || k == 3 || k == 4;
  }

  lemma {:induction false} ExecuteRows(
    s: Settings, w: World, intent: Intent, adjusted: real, at: int, adapter: nat -> Outcome, n: nat, k: nat)
    requires Ready(w, intent.id, n) && k <= |ExecuteEffects(s, intent, adjusted, at, adapter, n)|
    ensures var es := ExecuteEffects(s, intent, adjusted, at, adapter, n);
      RowBetween(w, After(w, es, k), intent, ReportsFill(s, intent, adapter, n) && k >= |es| - 1)
    decreases s.MaxAttempts() - n
  {
    if n < s.MaxAttempts() {
      var first := AttemptEffects(s, intent, adjusted, at, adapter, n);
      var rest := Remaining(s, intent, adjusted, at, adapter, n);
      AttemptRows(s, w, intent, adjusted, at, adapter, n, if k <= 4 then k else 4);
      if adapter(n).Raised? && n + 1 < s.MaxAttempts() {
        ExecuteRowsLater(s, w, intent, adjusted, at, adapter, n, k);
      } else {
        assert rest == [] && ExecuteEffects(s, intent, adjusted, at, adapter, n) == first;
        assert adapter(n).Raised? ==> ExecuteResult(s, intent, adapter, n + 1) == None;
      }
    }
  }

  // After a failed attempt with attempts left.
  lemma {:induction false} ExecuteRowsLater(
    s: Settings, w: World, intent: Intent, adjusted: real, at: int, adapter: nat -> Outcome, n: nat, k: nat)
    requires Ready(w, intent.id, n) && adapter(n).Raised? && n + 1 < s.MaxAttempts()
    requires k <= |ExecuteEffects(s, intent, adjusted, at, adapter, n)|
    ensures var es := ExecuteEffects(s, intent, adjusted, at, adapter, n);
      RowBetween(w, After(w, es, k), intent, ReportsFill(s, intent, adapter, n) && k >= |es| - 1)
    decreases s.MaxAttempts() - n, 0
  {
    var first := AttemptEffects(s, intent, adjusted, at, adapter, n);
    var w' := ApplyAll(w, first);
    AfterConcat(w, first, ExecuteEffects(s, intent, adjusted, at, adapter, n + 1), k);
    AttemptRows(s, w, intent, adjusted, at, adapter, n, if k <= 4 then k else 4);
    AnotherAttempt(s, intent, adjusted, at, adapter, n + 1);
    if k > 4 {
      AttemptRows(s, w, intent, adjusted, at, adapter, n, 4);
      ReadyAgain(s, w, intent, adjusted, at, adapter, n);
      ExecuteRows(s, w', intent, adjusted, at, adapter, n + 1, k - 4);
    }
  }

  lemma AnotherAttempt(
    s: Settings, intent: Intent, adjusted: real, at: int, adapter: nat -> Outcome, n: nat)
    requires n < s.MaxAttempts()
    ensures |ExecuteEffects(s, intent, adjusted, at, adapter, n)| >= 4
  {
  }

  // The order's row at each point of submission and execution.
  lemma OpeningRow(s: Settings, w: World, input: Input, x: Intent, k: nat)
    requires Sound(s, w) && Permits(s, w, input, x) && 0 < k <= |Opening(s, w, input, x)|
    ensures var c, adjusted := After(w, Opening(s, w, input, x), k), Adjusted(s, PlanOf(s, w, input), input);
      && x.id in c.orders && c.orders[x.id].intent == x && c.orders[x.id].adjustedUsd == adjusted
      && (c.orders[x.id].status == FILLED
          <==> ReportsFill(s, x, input.adapter, AttemptsOf(w, x.id)) && k >= |Opening(s, w, input, x)| - 1)
  {
    var adjusted, at, n := Adjusted(s, PlanOf(s, w, input), input), input.signal.timestamp, AttemptsOf(w, x.id);
    var submission := SubmissionEffects(w, x, adjusted, at);
    var execution := ExecuteEffects(s, x, adjusted, at, input.adapter, n);
    AfterConcat(w, submission, execution, k);
    if ReportsFill(s, x, input.adapter, n) {
      FillTakesAnAttempt(s, x, adjusted, at, input.adapter, n);
    }
    if k == 1 {
      FirstWrite(w, x, adjusted, at);
    } else {
      ExecutionRow(s, w, x, adjusted, at, input.adapter, k - 2);
    }
  }

  lemma ExecutionRow(
    s: Settings, w: World, x: Intent, adjusted: real, at: int, adapter: nat -> Outcome, k: nat)
    requires Sound(s, w) && !AlreadyTerminal(w, x.id)
    requires k <= |ExecuteEffects(s, x, adjusted, at, adapter, AttemptsOf(w, x.id))|
    ensures var n := AttemptsOf(w, x.id);
      var es := ExecuteEffects(s, x, adjusted, at, adapter, n);
      var c := After(ApplyAll(w, SubmissionEffects(w, x, adjusted, at)), es, k);
      && x.id in c.orders && c.orders[x.id].intent == x && c.orders[x.id].adjustedUsd == adjusted
      && (c.orders[x.id].status == FILLED <==> ReportsFill(s, x, adapter, n) && k >= |es| - 1)
  {
    SubmissionLegal(s, w, x, adjusted, at);
    ExecuteRows(
      s, ApplyAll(w, SubmissionEffects(w, x, adjusted, at)), x, adjusted, at, adapter, AttemptsOf(w, x.id), k);
  }

  lemma FirstWrite(w: World, x: Intent, adjusted: real, at: int)
    requires !AlreadyTerminal(w, x.id)
    ensures var c := After(w, SubmissionEffects(w, x, adjusted, at), 1);
      && x.id in c.orders && c.orders[x.id].intent == x && c.orders[x.id].adjustedUsd == adjusted
      && c.orders[x.id].status != FILLED
  {
    var es := SubmissionEffects(w, x, adjusted, at);
    assert After(w, es, 1) == Apply(After(w, es, 0), es[0]);
  }

  lemma FillTakesAnAttempt(
    s: Settings, intent: Intent, adjusted: real, at: int, adapter: nat -> Outcome, n: nat)
    requires ReportsFill(s, intent, adapter, n)
    ensures |ExecuteEffects(s, intent, adjusted, at, adapter, n)| >= 4
  {
  }

  // Only failed attempts are entered in the ledger while an order executes.
  predicate OnlyFailures(es: seq<Effect>) {
    forall e | e in es && e.AppendLedger? :: |e.entries| == 1 && e.entries[0].status == RETRYABLE_ERROR
  }

  lemma {:induction false} ExecuteFailures(
    s: Settings, intent: Intent, adjusted: real, at: int, adapter: nat -> Outcome, n: nat)
    ensures OnlyFailures(ExecuteEffects(s, intent, adjusted, at, adapter, n))
    decreases s.MaxAttempts() - n
  {
    if n < s.MaxAttempts() {
      ExecuteFailures(s, intent, adjusted, at, adapter, n + 1);
      assert OnlyFailures(AttemptEffects(s, intent, adjusted, at, adapter, n));
    }
  }

  lemma {:induction false} FailuresKeep(w: World, es: seq<Effect>, k: nat, id: IntentId, status: Status)
    requires OnlyFailures(es) && k <= |es| && status != RETRYABLE_ERROR
    ensures HasStatus(After(w, es, k).ledger, id, status) <==> HasStatus(w.ledger, id, status)
    decreases k
  {
    if k > 0 {
      FailuresKeep(w, es, k - 1, id, status);
      assert es[k - 1] in es;
      if es[k - 1].AppendLedger? {
        assert es[k - 1].entries == [es[k - 1].entries[0]];
        FailureLedger(After(w, es, k - 1).ledger, es[k - 1].entries[0], id, status);
      }
    }
  }

  // Its ledger there.
  lemma OpeningLedger(s: Settings, w: World, input: Input, x: Intent, k: nat, status: Status)
    requires k <= |Opening(s, w, input, x)| && status != RETRYABLE_ERROR
    ensures HasStatus(After(w, Opening(s, w, input, x), k).ledger, x.id, status)
      <==> HasStatus(w.ledger, x.id, status) || (status == SUBMITTED && k >= 2)
  {
    var adjusted, at, n := Adjusted(s, PlanOf(s, w, input), input), input.signal.timestamp, AttemptsOf(w, x.id);
    var submission := SubmissionEffects(w, x, adjusted, at);
    var execution := ExecuteEffects(s, x, adjusted, at, input.adapter, n);
    AfterConcat(w, submission, execution, k);
    if k <= 1 {
      LedgerKept(w, submission, 0, k);
    } else {
      SubmittedStatus(w, x, adjusted, at, status);
      ExecuteFailures(s, x, adjusted, at, input.adapter, n);
      FailuresKeep(ApplyAll(w, submission), execution, k - 2, x.id, status);
    }
  }

  lemma {:induction false} NothingStored(
    s: Settings, intent: Intent, adjusted: real, at: int, adapter: nat -> Outcome, n: nat)
    requires ExecuteResult(s, intent, adapter, n) == None
    ensures forall e | e in ExecuteEffects(s, intent, adjusted, at, adapter, n) :: !e.SaveReport?
    decreases s.MaxAttempts() - n
  {
    if n < s.MaxAttempts() {
      NothingStored(s, intent, adjusted, at, adapter, n + 1);
      assert forall e | e in AttemptEffects(s, intent, adjusted, at, adapter, n) :: !e.SaveReport?;
    }
  }

  // The batch dies before it has stored a report.
  ghost predicate Unreported(s: Settings, w: World, input: Input, x: Intent, k: nat) {
    && k <= |ProcessEffects(s, w, input)|
    && (k < |Opening(s, w, input, x)| || Exhausted(s, w, input))
  }

  // It dies between marking the order FILLED and storing its report.
  ghost predicate Unstored(s: Settings, w: World, input: Input, x: Intent, k: nat) {
    ReportsFill(s, x, input.adapter, AttemptsOf(w, x.id)) && k == |Opening(s, w, input, x)| - 1
  }

  lemma OpeningPrefix(s: Settings, w: World, input: Input, x: Intent, k: nat)
    requires Permits(s, w, input, x) && Unreported(s, w, input, x, k)
    ensures k <= |Opening(s, w, input, x)|
    ensures After(w, ProcessEffects(s, w, input), k) == After(w, Opening(s, w, input, x), k)
    ensures After(w, Opening(s, w, input, x), k).reports == w.reports
  {
    var es, n := Opening(s, w, input, x), AttemptsOf(w, x.id);
    var adjusted, at := Adjusted(s, PlanOf(s, w, input), input), input.signal.timestamp;
    if Exhausted(s, w, input) {
      ExhaustedAbout(s, w, input, x);
      NothingStored(s, x, adjusted, at, input.adapter, n);
      assert forall e | e in es :: !e.SaveReport?;
    } else {
      var report := ExecuteResult(s, x, input.adapter, n).value;
      FillsEffects(s, w, input, x, report);
      OpeningEnds(s, w, input, x, report);
      AfterConcat(w, es, Closing(s, w, input, x, report), k);
    }
    ReportsKept(w, es, 0, k);
    assert After(w, es, 0) == w;
  }

  // The order may be executed again by recovery.
  ghost predicate Unfinished(s: Settings, w: World, input: Input, x: Intent, k: nat)
    requires k <= |ProcessEffects(s, w, input)|
  {
    && StatusOf(After(w, ProcessEffects(s, w, input), k), x.id) in {Some(SUBMITTED), Some(RETRY)}
    && OpenLedger(w, x.id) && (k >= 2 || HasStatus(w.ledger, x.id, SUBMITTED))
  }

  lemma UnreportedOrder(s: Settings, w: World, input: Input, x: Intent, k: nat)
    requires Sound(s, w) && Permits(s, w, input, x) && Unreported(s, w, input, x, k)
    ensures var c := After(w, ProcessEffects(s, w, input), k);
      && (StatusOf(c, x.id) == Some(FILLED) <==> Unstored(s, w, input, x, k))
      && (x.id in c.orders && IsRecoverable(c, x.id) && !Unstored(s, w, input, x, k)
          <==> Unfinished(s, w, input, x, k))
      && (Unstored(s, w, input, x, k) ==>
            x.id in c.orders && (IsRecoverable(c, x.id) <==> OpenLedger(w, x.id)))
  {
    var c := After(w, ProcessEffects(s, w, input), k);
    CrashSound(s, w, input, k);
    UnreportedStatus(s, w, input, x, k);
    UnreportedLedger(s, w, input, x, k);
  }

  lemma UnreportedStatus(s: Settings, w: World, input: Input, x: Intent, k: nat)
    requires Sound(s, w) && Permits(s, w, input, x) && Unreported(s, w, input, x, k)
    ensures var c := After(w, ProcessEffects(s, w, input), k);
      StatusOf(c, x.id) == Some(FILLED) <==> Unstored(s, w, input, x, k)
  {
    OpeningPrefix(s, w, input, x, k);
    if Exhausted(s, w, input) {
      assert !ReportsFill(s, x, input.adapter, AttemptsOf(w, x.id));
    }
    if k > 0 {
      OpeningRow(s, w, input, x, k);
    }
    if ReportsFill(s, x, input.adapter, AttemptsOf(w, x.id)) {
      FillTakesAnAttempt(
        s, x, Adjusted(s, PlanOf(s, w, input), input), input.signal.timestamp, input.adapter, AttemptsOf(w, x.id));
    }
  }

  lemma UnreportedLedger(s: Settings, w: World, input: Input, x: Intent, k: nat)
    requires Permits(s, w, input, x) && Unreported(s, w, input, x, k)
    ensures var c := After(w, ProcessEffects(s, w, input), k);
      && (OpenLedger(c, x.id) <==> OpenLedger(w, x.id))
      && (HasStatus(c.ledger, x.id, SUBMITTED) <==> k >= 2 || HasStatus(w.ledger, x.id, SUBMITTED))
    ensures Unstored(s, w, input, x, k) ==> k >= 2
  {
    OpeningPrefix(s, w, input, x, k);
    OpeningLedger(s, w, input, x, k, SUBMITTED);
    OpeningLedger(s, w, input, x, k, RECONCILED);
    OpeningLedger(s, w, input, x, k, REJECTED);
    if Unstored(s, w, input, x, k) {
      FillTakesAnAttempt(
        s, x, Adjusted(s, PlanOf(s, w, input), input), input.signal.timestamp, input.adapter, AttemptsOf(w, x.id));
    }
  }

  // For every crash point before a report is stored, what the next recovery leaves. If the order is not marked
  // FILLED yet: what a new execution returns, dispatched once for each attempt left, if the submission is in an open
  // ledger and the order SUBMITTED or RETRY; else nothing. If it is: the last report stored before this batch, if
  // there is one and the ledger is open, so a fill is replaced by an older report or lost.
  lemma CrashBeforeReport(
    s: Settings, w: World, input: Input, x: Intent, k: nat, rs: seq<Recoverable>, env: IntentId -> Env)
    requires Sound(s, w) && Quiescent(s, w) && Permits(s, w, input, x) && Unreported(s, w, input, x, k)
    requires Enumerates(After(w, ProcessEffects(s, w, input), k), rs)
    ensures var c := After(w, ProcessEffects(s, w, input), k);
      var recovered := RecoverState(s, c, rs, env);
      var again := ExecuteResult(s, x, env(x.id).adapter, AttemptsOf(c, x.id));
      var stored := LatestReport(w.reports, x.id);
      && (if Unfinished(s, w, input, x, k) && again.Some? then
            AppliedOnce(w, recovered, x, again.value)
          else if Unstored(s, w, input, x, k) && OpenLedger(w, x.id) && stored.Some? then
            AppliedOnce(w, recovered, x, stored.value)
          else
            SameBook(w, recovered))
      && (CountDispatches(recovered.dispatches, x.id) > CountDispatches(c.dispatches, x.id)
          <==> Unfinished(s, w, input, x, k) && AttemptsOf(c, x.id) < s.MaxAttempts())
  {
    var c := After(w, ProcessEffects(s, w, input), k);
    CrashSound(s, w, input, k);
    PermittedCandidate(s, w, input, x, k);
    CandidateRecovery(s, c, rs, env, x);
    OpeningPrefix(s, w, input, x, k);
    OpeningKeepsBook(s, w, input, x, k);
    UnreportedOrder(s, w, input, x, k);
    var answer := Answer(s, c, x, env(x.id).adapter);
    if answer.Some? {
      SameThenApplied(w, c, RecoverState(s, c, rs, env), x, answer.value);
    }
  }

  // One write before the report of a fill is stored: the venue has executed it and the order is terminal. A first
  // fill is lost for good; with an older report, recovery applies that one.
  lemma UnstoredFill(
    s: Settings, w: World, input: Input, x: Intent, report: Report, rs: seq<Recoverable>, env: IntentId -> Env)
    requires Sound(s, w) && Quiescent(s, w) && Fills(s, w, input, x, report) && report.status == FILLED
    ensures Opening(s, w, input, x) != []
    ensures var c := After(w, Opening(s, w, input, x), |Opening(s, w, input, x)| - 1);
      && StatusOf(c, x.id) == Some(FILLED)
      && (Enumerates(c, rs) ==>
            var recovered, stored := RecoverState(s, c, rs, env), LatestReport(w.reports, x.id);
            if stored.Some? && OpenLedger(w, x.id) then AppliedOnce(w, recovered, x, stored.value)
            else SameBook(w, recovered))
  {
    var k := |Opening(s, w, input, x)| - 1;
    FillsPermits(s, w, input, x, report);
    OpeningEnds(s, w, input, x, report);
    FillsEffects(s, w, input, x, report);
    assert Unreported(s, w, input, x, k) && Unstored(s, w, input, x, k);
    OpeningPrefix(s, w, input, x, k);
    UnreportedOrder(s, w, input, x, k);
    if Enumerates(After(w, Opening(s, w, input, x), k), rs) {
      CrashBeforeReport(s, w, input, x, k, rs, env);
    }
  }
}
