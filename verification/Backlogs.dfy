// What a recovery makes of any number of orders at once, and which orders batches leave to it when their exceptions are
// caught.
module Backlogs {
  import opened Schemas
  import opened World
  import opened Pipeline
  import opened OrderLifecycle
  import opened Books
  import opened CrashRecovery
  import opened CrashWindows
  import opened Lingering
  import opened Lives
  import Reconciler

  // --- fills in turn -----------------------------------------------------------------------------

  // What reconciliation reads of an execution.
  datatype Fill = Fill(intent: Intent, executedUsd: real, at: int)

  function FillFrom(x: Intent, report: Report): Fill { Fill(x, report.executedUsd, report.timestamp) }

  function Filled(b: Reconciler.Book, f: Fill): Reconciler.Book {
    Reconciler.Applied(b, f.intent.Action(), f.intent.VenueType(), f.executedUsd, f.at)
  }

  // The book of one token after these fills, first to last.
  function BookAfter(w: World, fills: seq<Fill>, t: Token): Reconciler.Book
    decreases |fills|
  {
    if fills == [] then BookOf(w, t)
    else
      var b, f := BookAfter(w, fills[..|fills| - 1], t), fills[|fills| - 1];
      if f.intent.Token() == t then Filled(b, f) else Reconciler.Book(b.position, Filled(b, f).portfolio)
  }

  ghost predicate AppliedAll(w: World, w': World, fills: seq<Fill>) {
    forall t: Token :: BookOf(w', t) == BookAfter(w, fills, t)
  }

  lemma PortfolioAlone(b: Reconciler.Book, p: PositionState, f: Fill)
    ensures Filled(b, f).portfolio == Filled(Reconciler.Book(p, b.portfolio), f).portfolio
  {
  }

  lemma AppliedNext(w: World, v: World, v': World, fills: seq<Fill>, x: Intent, report: Report)
    requires AppliedAll(w, v, fills) && AppliedOnce(v, v', x, report)
    ensures AppliedAll(w, v', fills + [FillFrom(x, report)])
  {
    var f := FillFrom(x, report);
    forall t: Token
      ensures BookOf(v', t) == BookAfter(w, fills + [f], t)
    {
      assert (fills + [f])[..|fills|] == fills;
      assert BookOf(v, t) == BookAfter(w, fills, t);
      PortfolioAlone(BookOf(v, x.Token()), PositionOf(v, t), f);
    }
  }

  lemma AppliedSame(w: World, v: World, v': World, fills: seq<Fill>)
    requires AppliedAll(w, v, fills) && SameBook(v, v')
    ensures AppliedAll(w, v', fills)
  {
    forall t: Token
      ensures BookOf(v', t) == BookAfter(w, fills, t)
    {
      assert BookOf(v, t) == BookAfter(w, fills, t);
    }
  }

  // --- any recovery ------------------------------------------------------------------------------

  function FillOfRow(s: Settings, c: World, r: Recoverable, env: IntentId -> Env): Option<Fill> {
    match Answer(s, c, r.intent, env(r.intent.id).adapter)
    case Some(report) => Some(FillFrom(r.intent, report))
    case None => None
  }

  // What recovery has to apply to its first n rows, in their order.
  function RowFills(s: Settings, c: World, rows: seq<Recoverable>, env: IntentId -> Env, n: nat): seq<Fill>
    requires n <= |rows|
  {
    if n == 0 then []
    else
      RowFills(s, c, rows, env, n - 1)
      + match FillOfRow(s, c, rows[n - 1], env) case Some(f) => [f] case None => []
  }

  lemma {:induction false} FoldsTo(s: Settings, c: World, rows: seq<Recoverable>, env: IntentId -> Env, n: nat)
    requires Sound(s, c) && Enumerates(c, rows) && n <= |rows|
    ensures AppliedAll(c, RecoverState(s, c, rows[..n], env), RowFills(s, c, rows, env, n))
    decreases n
  {
    if n == 0 {
      RecoverWhole(s, c, rows, env);
    } else {
      var v, v' := RecoverState(s, c, rows[..n - 1], env), RecoverState(s, c, rows[..n], env);
      var x, fills := rows[n - 1].intent, RowFills(s, c, rows, env, n - 1);
      FoldsTo(s, c, rows, env, n - 1);
      CandidateStep(s, c, rows, env, x, n - 1);
      match Answer(s, c, x, env(x.id).adapter) {
        case Some(report) => AppliedNext(c, v, v', fills, x, report);
        case None =>
          assert RowFills(s, c, rows, env, n) == fills;
          AppliedSame(c, v, v', fills);
      }
    }
  }

  // From any sound state, with any number of orders to act on: recovery applies to each of them its own stored report
  // or what its own new execution returns, once, in the order of the rows, and does nothing else to the book.
  lemma RecoveryFolds(s: Settings, c: World, rows: seq<Recoverable>, env: IntentId -> Env)
    requires Sound(s, c) && Enumerates(c, rows)
    ensures AppliedAll(c, RecoverState(s, c, rows, env), RowFills(s, c, rows, env, |rows|))
  {
    FoldsTo(s, c, rows, env, |rows|);
    RecoverWhole(s, c, rows, env);
  }

  // And it dispatches each of them once for every attempt it has left to make.
  lemma RecoveryDispatches(s: Settings, c: World, rows: seq<Recoverable>, env: IntentId -> Env, i: nat)
    requires Sound(s, c) && Enumerates(c, rows) && i < |rows|
    ensures var id := rows[i].intent.id;
      CountDispatches(RecoverState(s, c, rows, env).dispatches, id)
      == CountDispatches(c.dispatches, id) + Redispatches(s, c, id, env(id).adapter)
  {
    OtherRows(s, c, rows, env, i);
    CandidateStep(s, c, rows, env, rows[i].intent, i);
  }

  // --- orders that batches leave FILLED ----------------------------------------------------------

  // Recovery will find x FILLED with this amount stored.
  ghost predicate Holds(v: World, f: Fill) {
    && f.intent.id in v.orders && IsRecoverable(v, f.intent.id)
    && v.orders[f.intent.id].status == FILLED && v.orders[f.intent.id].intent == f.intent
    && var stored := LatestReport(v.reports, f.intent.id);
       stored.Some? && FillFrom(f.intent, stored.value) == f
  }

  predicate DistinctIds(fills: seq<Fill>) {
    forall i, j | 0 <= i < j < |fills| :: fills[i].intent.id != fills[j].intent.id
  }

  ghost predicate OwedAt(fills: seq<Fill>, id: IntentId) { exists f :: f in fills && f.intent.id == id }

  // Exactly these orders are left to recovery, each FILLED.
  ghost predicate Owes(s: Settings, v: World, fills: seq<Fill>) {
    && Sound(s, v) && DistinctIds(fills)
    && (forall f | f in fills :: Holds(v, f))
    && (forall id: IntentId | Live(s, v, id) :: OwedAt(fills, id))
  }

  lemma SteadyOwesNothing(s: Settings, w: World)
    requires Steady(s, w)
    ensures Owes(s, w, [])
  {
    QuiescentIfNoneLive(s, w);
  }

  // The report that such an order is left with: the batch's own, from storing it until the ledger is closed, or an
  // older one, between the order being marked FILLED and its own report being stored.
  ghost function LeftReport(s: Settings, w: World, l: Life, x: Intent): Option<Report>
    requires l.Raised? && l.cut <= |ProcessEffects(s, w, l.input)|
  {
    if !OpenLedger(w, x.id) || !ReportsFill(s, x, l.input.adapter, AttemptsOf(w, x.id)) then None
    else if Unstored(s, w, l.input, x, l.cut) then LatestReport(w.reports, x.id)
    else if |Opening(s, w, l.input, x)| <= l.cut <= |Opening(s, w, l.input, x)| + 3 then
      ExecuteResult(s, x, l.input.adapter, AttemptsOf(w, x.id))
    else None
  }

  // The fill that a life leaves to recovery, if it does.
  ghost function LeftFill(s: Settings, w: World, l: Life): seq<Fill> {
    if l.Raised? && l.cut <= |ProcessEffects(s, w, l.input)| && Trades(s, w, l.input) then
      var x := PlanOf(s, w, l.input).intent.value;
      match LeftReport(s, w, l, x)
      case Some(report) => [FillFrom(x, report)]
      case None => []
    else []
  }

  lemma LeftHolds(s: Settings, w: World, l: Life, w': World)
    requires Sound(s, w) && Leads(s, w, l, w')
    ensures forall f | f in LeftFill(s, w, l) :: Holds(w', f)
  {
    if LeftFill(s, w, l) != [] {
      var x := PlanOf(s, w, l.input).intent.value;
      if Unstored(s, w, l.input, x, l.cut) {
        UnstoredHolds(s, w, l, w', x);
      } else {
        var report := ExecuteResult(s, x, l.input.adapter, AttemptsOf(w, x.id)).value;
        assert Fills(s, w, l.input, x, report);
        CrashedOrderAt(s, w, l.input, x, report, l.cut);
        var stored := CrashedReportAt(s, w, l.input, x, report, l.cut);
      }
    }
  }

  lemma UnstoredHolds(s: Settings, w: World, l: Life, w': World, x: Intent)
    requires Sound(s, w) && l.Raised? && Leads(s, w, l, w') && Permits(s, w, l.input, x)
    requires Unstored(s, w, l.input, x, l.cut) && OpenLedger(w, x.id) && LatestReport(w.reports, x.id).Some?
    ensures Holds(w', FillFrom(x, LatestReport(w.reports, x.id).value))
  {
    FillTakesAnAttempt(
      s, x, Adjusted(s, PlanOf(s, w, l.input), l.input), l.input.signal.timestamp, l.input.adapter,
      AttemptsOf(w, x.id));
    UnreportedOrder(s, w, l.input, x, l.cut);
    OpeningPrefix(s, w, l.input, x, l.cut);
    TradeUpserts(s, w, l.input, x);
    IntentKept(w, ProcessEffects(s, w, l.input), x, Adjusted(s, PlanOf(s, w, l.input), l.input), l.cut);
  }

  // There is one exactly if the batch leaves its order live and FILLED.
  lemma LeftFilledExactly(s: Settings, w: World, l: Life, w': World)
    requires Sound(s, w) && l.Raised? && Leads(s, w, l, w')
    ensures LeftFill(s, w, l) != [] <==>
      Leaves(s, w, l) && StatusOf(w', PlanOf(s, w, l.input).intent.value.id) == Some(FILLED)
  {
    LeftHolds(s, w, l, w');
    if Trades(s, w, l.input) {
      var x := PlanOf(s, w, l.input).intent.value;
      PermittedLive(s, w, l.input, x, l.cut);
      if Unreported(s, w, l.input, x, l.cut) {
        UnreportedOrder(s, w, l.input, x, l.cut);
      } else {
        var report := ExecuteResult(s, x, l.input.adapter, AttemptsOf(w, x.id)).value;
        assert Fills(s, w, l.input, x, report);
        CrashedOrderAt(s, w, l.input, x, report, l.cut);
      }
    }
  }

  // A batch that completes, or raises and leaves its order FILLED if it leaves it live at all.
  ghost predicate Onward(s: Settings, w: World, l: Life) {
    (l.Ran? || l.Raised?) && (Leaves(s, w, l) ==> LeftFill(s, w, l) != [])
  }

  ghost function CutOf(s: Settings, w: World, l: Life): nat
    requires l.Ran? || l.Raised?
  {
    if l.Ran? then |ProcessEffects(s, w, l.input)| else l.cut
  }

  // An order that is owed already is terminal, so no later batch handles it.
  lemma OwedUntouched(s: Settings, w: World, l: Life, w': World, f: Fill)
    requires (l.Ran? || l.Raised?) && Leads(s, w, l, w') && Holds(w, f)
    ensures !Handles(s, w, l.input, f.intent.id) && Holds(w', f)
  {
    OthersStayLive(s, w, l.input, CutOf(s, w, l), f.intent.id);
    RecoverableMoves(w, w', f.intent.id);
  }

  lemma LiveIsOwed(s: Settings, w: World, l: Life, w': World, fills: seq<Fill>, id: IntentId)
    requires Owes(s, w, fills) && Onward(s, w, l) && Leads(s, w, l, w') && Live(s, w', id)
    ensures OwedAt(fills + LeftFill(s, w, l), id)
  {
    LiveExactly(s, w, l.input, CutOf(s, w, l), id);
    if Live(s, w, id) {
      var f :| f in fills && f.intent.id == id;
      assert f in fills + LeftFill(s, w, l);
    } else {
      if l.Ran? {
        CompletedLeavesNothing(s, w, l.input);
      }
      assert Leaves(s, w, l);
      var f := LeftFill(s, w, l)[0];
      assert f in fills + LeftFill(s, w, l) && f.intent.id == id;
    }
  }

  lemma NewlyOwed(s: Settings, w: World, l: Life, w': World, fills: seq<Fill>)
    requires Owes(s, w, fills) && Onward(s, w, l) && Leads(s, w, l, w')
    ensures DistinctIds(fills + LeftFill(s, w, l))
  {
    var more := LeftFill(s, w, l);
    forall i | 0 <= i < |fills| && more != []
      ensures fills[i].intent.id != more[0].intent.id
    {
      assert fills[i] in fills;
      OwedUntouched(s, w, l, w', fills[i]);
    }
  }

  // Another batch adds what it leaves, and takes nothing away.
  lemma OwesNext(s: Settings, w: World, l: Life, w': World, fills: seq<Fill>)
    requires Owes(s, w, fills) && Onward(s, w, l) && Leads(s, w, l, w')
    ensures Owes(s, w', fills + LeftFill(s, w, l))
  {
    var all := fills + LeftFill(s, w, l);
    LifeSound(s, w, l, w');
    NewlyOwed(s, w, l, w', fills);
    LeftHolds(s, w, l, w');
    forall f | f in all
      ensures Holds(w', f)
    {
      if f in fills {
        OwedUntouched(s, w, l, w', f);
      }
    }
    forall id: IntentId | Live(s, w', id)
      ensures OwedAt(all, id)
    {
      LiveIsOwed(s, w, l, w', fills, id);
    }
  }

  // --- recovering them ---------------------------------------------------------------------------

  lemma {:induction false} CountOnce<T>(a: seq<T>, x: T)
    requires forall i, j | 0 <= i < j < |a| :: a[i] != a[j]
    ensures multiset(a)[x] == if x in a then 1 else 0
    decreases |a|
  {
    if a != [] {
      var n := |a| - 1;
      CountOnce(a[..n], x);
      assert a == a[..n] + [a[n]];
    }
  }

  lemma SameMembers<T>(a: seq<T>, b: seq<T>)
    requires forall i, j | 0 <= i < j < |a| :: a[i] != a[j]
    requires forall i, j | 0 <= i < j < |b| :: b[i] != b[j]
    requires forall x | x in a :: x in b
    requires forall x | x in b :: x in a
    ensures multiset(a) == multiset(b)
  {
    forall x: T
      ensures multiset(a)[x] == multiset(b)[x]
    {
      CountOnce(a, x);
      CountOnce(b, x);
    }
  }

  ghost predicate FromRow(
    s: Settings, c: World, rows: seq<Recoverable>, env: IntentId -> Env, n: nat, f: Fill)
    requires n <= |rows|
  {
    exists i | 0 <= i < n :: FillOfRow(s, c, rows[i], env) == Some(f)
  }

  lemma {:induction false} RowFillsFrom(
    s: Settings, c: World, rows: seq<Recoverable>, env: IntentId -> Env, n: nat, f: Fill)
    requires n <= |rows|
    ensures f in RowFills(s, c, rows, env, n) <==> FromRow(s, c, rows, env, n, f)
    decreases n
  {
    if n > 0 {
      RowFillsFrom(s, c, rows, env, n - 1, f);
    }
  }

  // Each fill comes from a row of its own.
  lemma {:induction false} RowFillsDistinct(
    s: Settings, c: World, rows: seq<Recoverable>, env: IntentId -> Env, n: nat)
    requires n <= |rows|
    requires forall i, j | 0 <= i < j < |rows| :: rows[i].intent.id != rows[j].intent.id
    ensures DistinctIds(RowFills(s, c, rows, env, n))
    decreases n
  {
    if n > 0 {
      RowFillsDistinct(s, c, rows, env, n - 1);
      var before := RowFills(s, c, rows, env, n - 1);
      forall k | 0 <= k < |before|
        ensures before[k].intent.id != rows[n - 1].intent.id
      {
        RowFillsFrom(s, c, rows, env, n - 1, before[k]);
        var i :| 0 <= i < n - 1 && FillOfRow(s, c, rows[i], env) == Some(before[k]);
      }
    }
  }

  lemma OwedRow(s: Settings, v: World, fills: seq<Fill>, rows: seq<Recoverable>, env: IntentId -> Env, f: Fill)
    requires Owes(s, v, fills) && Enumerates(v, rows) && f in fills
    ensures FromRow(s, v, rows, env, |rows|, f)
  {
    var i: nat :| i < |rows| && rows[i].intent.id == f.intent.id;
    assert IsRow(v, rows[i]);
    assert FillOfRow(s, v, rows[i], env) == Some(f);
  }

  lemma RowOwed(s: Settings, v: World, fills: seq<Fill>, rows: seq<Recoverable>, env: IntentId -> Env, i: nat)
    requires Owes(s, v, fills) && Enumerates(v, rows) && i < |rows| && FillOfRow(s, v, rows[i], env).Some?
    ensures FillOfRow(s, v, rows[i], env).value in fills
  {
    var id := rows[i].intent.id;
    assert IsRow(v, rows[i]);
    assert Live(s, v, id);
    var f :| f in fills && f.intent.id == id;
    assert Holds(v, f);
  }

  // The orders that the rows hold are exactly those owed.
  lemma RowsAreOwed(s: Settings, v: World, fills: seq<Fill>, rows: seq<Recoverable>, env: IntentId -> Env)
    requires Owes(s, v, fills) && Enumerates(v, rows)
    ensures multiset(RowFills(s, v, rows, env, |rows|)) == multiset(fills)
  {
    var found := RowFills(s, v, rows, env, |rows|);
    RowFillsDistinct(s, v, rows, env, |rows|);
    forall f | f in fills
      ensures f in found
    {
      OwedRow(s, v, fills, rows, env, f);
      RowFillsFrom(s, v, rows, env, |rows|, f);
    }
    forall f | f in found
      ensures f in fills
    {
      RowFillsFrom(s, v, rows, env, |rows|, f);
      var i :| 0 <= i < |rows| && FillOfRow(s, v, rows[i], env) == Some(f);
      RowOwed(s, v, fills, rows, env, i);
    }
    SameMembers(found, fills);
  }

  // What the first k lives of a run leave to recovery.
  ghost function Backlog(s: Settings, states: seq<World>, lives: seq<Life>, k: nat): seq<Fill>
    requires |states| == |lives| + 1 && k <= |lives|
  {
    if k == 0 then [] else Backlog(s, states, lives, k - 1) + LeftFill(s, states[k - 1], lives[k - 1])
  }

  // From a state with nothing to recover on, through batches that complete or raise without a recovery in between.
  ghost predicate Stretch(s: Settings, states: seq<World>, lives: seq<Life>) {
    && LifeRun(s, states, lives) && Steady(s, states[0])
    && forall i | 0 <= i < |lives| :: Onward(s, states[i], lives[i])
  }

  lemma {:induction false} BacklogOwed(s: Settings, states: seq<World>, lives: seq<Life>, k: nat)
    requires Stretch(s, states, lives) && k <= |lives|
    ensures Owes(s, states[k], Backlog(s, states, lives, k))
    decreases k
  {
    if k == 0 {
      SteadyOwesNothing(s, states[0]);
    } else {
      BacklogOwed(s, states, lives, k - 1);
      OwesNext(s, states[k - 1], lives[k - 1], states[k], Backlog(s, states, lives, k - 1));
    }
  }
}
