// Whole lives of the worker: batches that complete, raise or die anywhere, and recoveries that complete or die, each of
// which changes the book by one fill of one permitted order or not at all.
module Lives {
  import opened Schemas
  import opened World
  import opened Pipeline
  import opened OrderLifecycle
  import opened Books
  import opened CrashRecovery
  import opened CrashWindows
  import opened Lingering
  import Reconciler

  ghost predicate Steady(s: Settings, w: World) { Sound(s, w) && Quiescent(s, w) }

  // --- batches that do not trade -----------------------------------------------------------------

  // Closing writes of a batch without an execution put the same book back.
  lemma {:induction false} BookRewritten(w: World, es: seq<Effect>, k: nat, token: Token)
    requires k <= |es|
    requires forall e | e in es ::
      && (e.SavePosition? ==> e.token == token && e.position == PositionOf(w, token))
      && (e.SavePortfolio? ==> e.portfolio == PortfolioOf(w))
    ensures SameBook(w, After(w, es, k))
    decreases k
  {
    if k > 0 {
      BookRewritten(w, es, k - 1, token);
      assert es[k - 1] in es;
    }
  }

  lemma IdleKeepsBook(s: Settings, w: World, input: Input, k: nat)
    requires !Trades(s, w, input) && k <= |ProcessEffects(s, w, input)|
    ensures SameBook(w, After(w, ProcessEffects(s, w, input), k))
  {
    BookRewritten(w, ProcessEffects(s, w, input), k, input.signal.token);
  }

  lemma ExhaustedKeepsBook(s: Settings, w: World, input: Input)
    requires Exhausted(s, w, input)
    ensures SameBook(w, ApplyAll(w, ProcessEffects(s, w, input)))
  {
    var p := PlanOf(s, w, input);
    var x := p.intent.value;
    var opening := OpeningEffects(s, w, input, x, Adjusted(s, p, input));
    assert ProcessEffects(s, w, input) == opening + [] == opening;
    ExecuteKeepsBook(s, x, Adjusted(s, p, input), input.signal.timestamp, input.adapter, AttemptsOf(w, x.id));
    BookKeptSame(w, opening, |opening|);
  }

  // --- recoveries that die -----------------------------------------------------------------------

  // A recovery that dies after some of its effects.
  datatype Death = Death(rows: seq<Recoverable>, env: IntentId -> Env, cut: nat)

  // It lists the rows it finds, and does not die right after writing a position or the portfolio.
  ghost predicate DiesCleanly(s: Settings, c: World, d: Death) {
    && Enumerates(c, d.rows)
    && var es := RecoverEffects(s, c, d.rows, d.env);
       d.cut <= |es| && (d.cut == 0 || !TouchesBook(es[d.cut - 1]))
  }

  ghost function Fallen(s: Settings, c: World, d: Death): World {
    var es := RecoverEffects(s, c, d.rows, d.env);
    After(c, es, if d.cut <= |es| then d.cut else |es|)
  }

  // After k effects the recovery is j effects into its i-th row, or done.
  ghost predicate DeadAt(
    s: Settings, c: World, rows: seq<Recoverable>, env: IntentId -> Env, k: nat, i: nat, j: nat)
    requires k <= |RecoverEffects(s, c, rows, env)|
  {
    var all := RecoverEffects(s, c, rows, env);
    && i <= |rows|
    && if i == |rows| then After(c, all, k) == RecoverState(s, c, rows, env)
       else
         CutIn(c, all, k, RecoverState(s, c, rows[..i], env), RowEffects(s, c, rows, env, i), j)
  }

  // k effects of all, from c, are j effects of es, from v.
  ghost predicate CutIn(c: World, all: seq<Effect>, k: nat, v: World, es: seq<Effect>, j: nat) {
    && k <= |all| && j <= |es| && After(c, all, k) == After(v, es, j)
    && (j > 0 ==> k > 0 && es[j - 1] == all[k - 1])
  }

  // The effects up to each row, the states they lead to, and the effects of each row.
  datatype Trace = Trace(upTo: seq<seq<Effect>>, states: seq<World>, rows: seq<seq<Effect>>)

  ghost predicate Traces(c: World, t: Trace) {
    && |t.upTo| == |t.states| == |t.rows| + 1 && t.upTo[0] == []
    && (forall i | 0 <= i < |t.states| :: t.states[i] == ApplyAll(c, t.upTo[i]))
    && (forall i | 0 <= i < |t.rows| :: t.upTo[i + 1] == t.upTo[i] + t.rows[i])
  }

  lemma {:induction false} UpToPrefix(c: World, t: Trace, m: nat, n: nat)
    requires Traces(c, t) && m <= n < |t.upTo|
    ensures t.upTo[m] <= t.upTo[n]
    decreases n
  {
    if m < n {
      UpToPrefix(c, t, m, n - 1);
      assert t.upTo[n - 1 + 1] == t.upTo[n - 1] + t.rows[n - 1];
    }
  }

  // The first row within whose effects the k-th is.
  lemma {:induction false} RowOf(c: World, t: Trace, n: nat, k: nat) returns (m: nat)
    requires Traces(c, t) && n < |t.upTo| && k <= |t.upTo[n]|
    ensures m <= n && k <= |t.upTo[m]| && (m > 0 ==> |t.upTo[m - 1]| < k)
    decreases n
  {
    if n == 0 || k > |t.upTo[n - 1]| {
      m := n;
    } else {
      m := RowOf(c, t, n - 1, k);
    }
  }

  lemma CutPrefix(c: World, all: seq<Effect>, upTo: seq<Effect>, before: seq<Effect>, es: seq<Effect>, k: nat)
    requires upTo <= all && upTo == before + es && |before| < k <= |upTo|
    ensures CutIn(c, all, k, ApplyAll(c, before), es, k - |before|)
  {
    assert all == upTo + all[|upTo|..];
    AfterConcat(c, upTo, all[|upTo|..], k);
    AfterConcat(c, before, es, k);
  }

  // A cut of the whole trace is one of a row.
  lemma TraceCut(c: World, t: Trace, k: nat) returns (i: nat, j: nat)
    requires Traces(c, t) && t.rows != [] && k <= |t.upTo[|t.rows|]|
    ensures i < |t.rows| && CutIn(c, t.upTo[|t.rows|], k, t.states[i], t.rows[i], j)
  {
    var n := |t.rows|;
    var m := RowOf(c, t, n, k);
    if m == 0 {
      i, j := 0, 0;
    } else {
      i, j := m - 1, k - |t.upTo[m - 1]|;
      UpToPrefix(c, t, m, n);
      assert t.upTo[i + 1] == t.upTo[i] + t.rows[i];
      CutPrefix(c, t.upTo[n], t.upTo[m], t.upTo[i], t.rows[i], k);
    }
  }

  ghost function RowEffects(
    s: Settings, c: World, rows: seq<Recoverable>, env: IntentId -> Env, i: nat): seq<Effect>
    requires i < |rows|
  {
    RecoverOne(s, RecoverState(s, c, rows[..i], env), rows[i], env(rows[i].intent.id))
  }

  ghost function TraceOf(s: Settings, c: World, rows: seq<Recoverable>, env: IntentId -> Env): Trace {
    Trace(
      seq(|rows| + 1, i requires 0 <= i < |rows| + 1 => RecoverEffects(s, c, rows[..i], env)),
      seq(|rows| + 1, i requires 0 <= i < |rows| + 1 => RecoverState(s, c, rows[..i], env)),
      seq(|rows|, i requires 0 <= i < |rows| => RowEffects(s, c, rows, env, i)))
  }

  lemma RecoveryTraces(s: Settings, c: World, rows: seq<Recoverable>, env: IntentId -> Env)
    ensures Traces(c, TraceOf(s, c, rows, env))
  {
    var t := TraceOf(s, c, rows, env);
    assert rows[..0] == [];
    forall i | 0 <= i < |t.rows|
      ensures t.upTo[i + 1] == t.upTo[i] + t.rows[i]
    {
      RecoverNext(s, c, rows, env, i);
    }
  }

  lemma DeathPoint(
    s: Settings, c: World, rows: seq<Recoverable>, env: IntentId -> Env, k: nat) returns (i: nat, j: nat)
    requires k <= |RecoverEffects(s, c, rows, env)|
    ensures DeadAt(s, c, rows, env, k, i, j)
  {
    var t := TraceOf(s, c, rows, env);
    RecoveryTraces(s, c, rows, env);
    assert rows[..|rows|] == rows;
    if rows == [] {
      i, j := 0, 0;
    } else {
      i, j := TraceCut(c, t, k);
    }
  }

  lemma DeathSound(s: Settings, c: World, d: Death)
    requires Sound(s, c) && Enumerates(c, d.rows)
    ensures Sound(s, Fallen(s, c, d))
  {
    var es := RecoverEffects(s, c, d.rows, d.env);
    assert d.rows[..|d.rows|] == d.rows;
    RecoverLegal(s, c, d.rows, d.env, |d.rows|);
    LegalRun(s, c, es, if d.cut <= |es| then d.cut else |es|);
  }

  lemma QuietReflexive(w: World)
    ensures Quiet(w, w)
  {
  }

  // Rows that are all inert are only noticed.
  lemma {:induction false} QuietSpan(
    s: Settings, c: World, rows: seq<Recoverable>, env: IntentId -> Env, lo: nat, hi: nat)
    requires Sound(s, c) && Enumerates(c, rows) && lo <= hi <= |rows|
    requires forall i | lo <= i < hi :: Inert(s, c, rows[i].intent.id)
    ensures Quiet(RecoverState(s, c, rows[..lo], env), RecoverState(s, c, rows[..hi], env))
    decreases hi - lo
  {
    if lo == hi {
      QuietReflexive(RecoverState(s, c, rows[..lo], env));
    } else {
      QuietSpan(s, c, rows, env, lo, hi - 1);
      QuietRow(s, c, rows, env, hi - 1);
      QuietTransitive(
        RecoverState(s, c, rows[..lo], env), RecoverState(s, c, rows[..hi - 1], env),
        RecoverState(s, c, rows[..hi], env));
    }
  }

  // Dying among inert rows leaves the state as quiet as it was before them.
  lemma QuietDeath(
    s: Settings, c: World, rows: seq<Recoverable>, env: IntentId -> Env, lo: nat, i: nat, j: nat, d: World)
    requires Sound(s, c) && Enumerates(c, rows) && lo <= i <= |rows|
    requires forall m | lo <= m <= i && m < |rows| :: Inert(s, c, rows[m].intent.id)
    requires i == |rows| ==> d == RecoverState(s, c, rows, env)
    requires i < |rows| ==>
      var v, es := RecoverState(s, c, rows[..i], env), RowEffects(s, c, rows, env, i);
      j <= |es| && d == After(v, es, j)
    ensures Quiet(RecoverState(s, c, rows[..lo], env), d)
  {
    var v := RecoverState(s, c, rows[..i], env);
    QuietSpan(s, c, rows, env, lo, i);
    if i == |rows| {
      assert rows[..i] == rows;
    } else {
      AtRow(s, c, rows, env, i);
      InertMoves(s, c, v, rows[i].intent.id);
      InertOnlyNoticed(s, v, rows[i], env(rows[i].intent.id));
      QuietNotice(v, rows[i], env(rows[i].intent.id));
      assert j == 0 || j == 1;
      if j == 1 {
        QuietTransitive(RecoverState(s, c, rows[..lo], env), v, d);
      }
    }
  }

  lemma QuietKeeps(s: Settings, c: World, d: World, x: Intent)
    requires Quiet(c, d)
    ensures OneCandidate(s, c, x) ==> OneCandidate(s, d, x)
    ensures Quiescent(s, c) ==> Quiescent(s, d)
    ensures forall adapter :: Answer(s, c, x, adapter) == Answer(s, d, x, adapter)
  {
    assert forall id: IntentId :: id in c.orders ==> (IsRecoverable(c, id) <==> IsRecoverable(d, id));
    assert forall id: IntentId :: Inert(s, c, id) <==> Inert(s, d, id);
  }

  // The row of the only order that recovery can act on.
  ghost predicate CandidateAt(s: Settings, c: World, rows: seq<Recoverable>, x: Intent, i: nat) {
    && i < |rows| && rows[i].intent == x && !Inert(s, c, x.id)
    && forall j | 0 <= j < |rows| && j != i :: Inert(s, c, rows[j].intent.id)
  }

  lemma CandidateIndex(s: Settings, c: World, rows: seq<Recoverable>, x: Intent) returns (i: nat)
    requires Enumerates(c, rows) && OneCandidate(s, c, x)
    ensures i <= |rows|
    ensures i < |rows| ==> CandidateAt(s, c, rows, x, i)
    ensures i == |rows| ==> forall j | 0 <= j < |rows| :: Inert(s, c, rows[j].intent.id)
  {
    if i': nat :| i' < |rows| && rows[i'].intent.id == x.id && !Inert(s, c, x.id) {
      i := i';
      assert IsRow(c, rows[i]);
      OthersAround(s, c, rows, x, i);
    } else {
      i := |rows|;
      forall j | 0 <= j < |rows|
        ensures Inert(s, c, rows[j].intent.id)
      {
        assert IsRow(c, rows[j]);
      }
    }
  }

  // --- dying in the candidate's row --------------------------------------------------------------

  // What the row does before its closing writes.
  function Resuming(s: Settings, v: World, r: Recoverable, env: Env): seq<Effect> {
    [Notice(r, env)] + RecoveryExecution(s, v, r, env)
  }

  function Finishing(s: Settings, v: World, r: Recoverable, env: Env): seq<Effect> {
    var report := RecoveredReport(s, v, r, env);
    if report.None? then [] else RecoveryClosing(v, r, report.value, env)
  }

  // The row as recovery reaches it.
  lemma CandidateReached(s: Settings, c: World, rows: seq<Recoverable>, env: IntentId -> Env, x: Intent, i: nat)
    requires Sound(s, c) && Enumerates(c, rows) && CandidateAt(s, c, rows, x, i)
    ensures var v := RecoverState(s, c, rows[..i], env);
      && Sound(s, v) && IsRow(v, rows[i]) && SameOrder(c, v, x.id) && Quiet(c, v)
      && RecoveredReport(s, v, rows[i], env(x.id)) == Answer(s, c, x, env(x.id).adapter)
      && QuietBut(s, v, x.id)
  {
    var v := RecoverState(s, c, rows[..i], env);
    AtRow(s, c, rows, env, i);
    assert IsRow(c, rows[i]);
    QuietPrefix(s, c, rows, env, i);
    OthersInert(s, c, rows, x, i);
    QuietKeeps(s, c, v, x);
  }

  lemma OthersInert(s: Settings, c: World, rows: seq<Recoverable>, x: Intent, i: nat)
    requires Enumerates(c, rows) && CandidateAt(s, c, rows, x, i)
    ensures OneCandidate(s, c, x)
  {
    assert IsRow(c, rows[i]);
    forall id | id in c.orders && IsRecoverable(c, id) && id != x.id
      ensures Inert(s, c, id)
    {
      var j: nat :| j < |rows| && rows[j].intent.id == id;
    }
  }

  // Orders other than this one are inert.
  ghost predicate QuietBut(s: Settings, d: World, x: IntentId) {
    forall id | id in d.orders && IsRecoverable(d, id) && id != x :: Inert(s, d, id)
  }

  // They stay so.
  lemma OthersStay(s: Settings, v: World, r: Recoverable, env: Env, j: nat)
    requires j <= |RecoverOne(s, v, r, env)|
    requires QuietBut(s, v, r.intent.id)
    ensures QuietBut(s, After(v, RecoverOne(s, v, r, env), j), r.intent.id)
  {
    var d := After(v, RecoverOne(s, v, r, env), j);
    RecoverAboutOnly(s, v, r, env);
    forall id | id in d.orders && IsRecoverable(d, id) && id != r.intent.id
      ensures Inert(s, d, id)
    {
      SameRun(v, RecoverOne(s, v, r, env), j, id);
      RecoverableMoves(v, d, id);
      InertMoves(s, v, d, id);
    }
  }

  // The order itself keeps its intent and its book, and is FILLED only if it was, or once the execution marks it so.
  lemma ResumingRow(s: Settings, v: World, r: Recoverable, env: Env, j: nat)
    requires Sound(s, v) && IsRow(v, r) && j <= |Resuming(s, v, r, env)|
    ensures var d := After(v, Resuming(s, v, r, env), j);
      && SameBook(v, d)
      && r.intent.id in d.orders && d.orders[r.intent.id].intent == r.intent
      && d.orders[r.intent.id].adjustedUsd == r.adjustedUsd
      && (d.orders[r.intent.id].status == FILLED <==>
            || r.status == FILLED
            || (&& ReportsFill(s, r.intent, env.adapter, AttemptsOf(v, r.intent.id))
                && j >= |Resuming(s, v, r, env)| - 1))
  {
    var notice, run, n := [Notice(r, env)], RecoveryExecution(s, v, r, env), AttemptsOf(v, r.intent.id);
    ResumingBook(s, v, r, env, j);
    AfterConcat(v, notice, run, j);
    ApplyAllOne(v, Notice(r, env));
    if j == 0 {
      assert After(v, Resuming(s, v, r, env), 0) == v;
    }
    if r.status != FILLED {
      var v1 := ApplyAll(v, notice);
      assert CountDispatches(v.dispatches, r.intent.id) <= n;
      assert Ready(v1, r.intent.id, n);
      if j > 0 {
        ExecuteRows(s, v1, r.intent, r.adjustedUsd, env.riskAt, env.adapter, n, j - 1);
      }
      if ReportsFill(s, r.intent, env.adapter, n) {
        FillTakesAnAttempt(s, r.intent, r.adjustedUsd, env.riskAt, env.adapter, n);
      }
    }
  }

  lemma ResumingBook(s: Settings, v: World, r: Recoverable, env: Env, j: nat)
    requires j <= |Resuming(s, v, r, env)|
    ensures SameBook(v, After(v, Resuming(s, v, r, env), j))
  {
    var es := Resuming(s, v, r, env);
    ExecuteKeepsBook(s, r.intent, r.adjustedUsd, env.riskAt, env.adapter, AttemptsOf(v, r.intent.id));
    assert forall i | 0 <= i < |es| :: !TouchesBook(es[i]);
    BookKeptSame(v, es, j);
  }

  lemma RowParts(s: Settings, v: World, r: Recoverable, env: Env, j: nat)
    requires j <= |RecoverOne(s, v, r, env)|
    ensures var first, last := Resuming(s, v, r, env), Finishing(s, v, r, env);
      && RecoverOne(s, v, r, env) == first + last
      && After(v, RecoverOne(s, v, r, env), j)
           == if j <= |first| then After(v, first, j) else After(ApplyAll(v, first), last, j - |first|)
  {
    AfterConcat(v, Resuming(s, v, r, env), Finishing(s, v, r, env), j);
  }

  // The closing writes, but not right after one to the book: the book untouched, or the fill applied and the order
  // closed.
  lemma FinishingRow(s: Settings, v: World, v1: World, r: Recoverable, report: Report, env: Env, j: nat)
    requires v1.positions == v.positions && v1.portfolio == v.portfolio && r.intent.id in v1.orders
    requires 0 < j <= 5 && !TouchesBook(RecoveryClosing(v, r, report, env)[j - 1])
    ensures var d := After(v1, RecoveryClosing(v, r, report, env), j);
      if j == 1 then SameBook(v, d) && d.orders == v1.orders && d.reports == v1.reports && d.ledger == v1.ledger
      else AppliedOnce(v, d, r.intent, report) && StatusOf(d, r.intent.id) == Some(RECONCILED)
  {
    RecoveryClosingBooks(v, v1, r, report, env);
    RecoveryClosingRows(v, v1, r, report, env);
    assert j == 1 || j == 4 || j == 5;
    if j > 1 {
      SameThenApplied(v, v1, After(v1, RecoveryClosing(v, r, report, env), j), r.intent, report);
    }
  }

  // What dying there leaves: nothing applied and still the only candidate, or the answer applied and all quiet.
  ghost predicate Left(s: Settings, c: World, d: World, x: Intent, answer: Option<Report>) {
    || (SameBook(c, d) && OneCandidate(s, d, x))
    || (answer.Some? && AppliedOnce(c, d, x, answer.value) && Quiescent(s, d))
  }

  lemma CandidateDeath(
    s: Settings, c: World, rows: seq<Recoverable>, env: IntentId -> Env, x: Intent, i: nat, j: nat)
    requires Sound(s, c) && Enumerates(c, rows) && CandidateAt(s, c, rows, x, i)
    requires var es := RowEffects(s, c, rows, env, i); j <= |es| && (j > 0 ==> !TouchesBook(es[j - 1]))
    ensures Left(
      s, c, After(RecoverState(s, c, rows[..i], env), RowEffects(s, c, rows, env, i), j), x,
      Answer(s, c, x, env(x.id).adapter))
  {
    var v := RecoverState(s, c, rows[..i], env);
    CandidateReached(s, c, rows, env, x, i);
    OthersStay(s, v, rows[i], env(x.id), j);
    RowParts(s, v, rows[i], env(x.id), j);
    var first := Resuming(s, v, rows[i], env(x.id));
    if j <= |first| {
      ResumingRow(s, v, rows[i], env(x.id), j);
    } else {
      FinishingDeath(s, c, v, rows[i], env(x.id), j - |first|);
    }
  }

  lemma FinishingDeath(s: Settings, c: World, v: World, r: Recoverable, env: Env, j: nat)
    requires Sound(s, v) && IsRow(v, r) && SameBook(c, v)
    requires var last := Finishing(s, v, r, env); 0 < j <= |last| && !TouchesBook(last[j - 1])
    requires QuietBut(s, After(ApplyAll(v, Resuming(s, v, r, env)), Finishing(s, v, r, env), j), r.intent.id)
    ensures Left(
      s, c, After(ApplyAll(v, Resuming(s, v, r, env)), Finishing(s, v, r, env), j), r.intent,
      RecoveredReport(s, v, r, env))
  {
    var v1 := ApplyAll(v, Resuming(s, v, r, env));
    var report := RecoveredReport(s, v, r, env).value;
    ResumingRow(s, v, r, env, |Resuming(s, v, r, env)|);
    ResumeKeepsBook(s, v, r, env);
    FinishingRow(s, v, v1, r, report, env, j);
    if j > 1 {
      SameThenApplied(c, v, After(v1, Finishing(s, v, r, env), j), r.intent, report);
    }
  }

  // Once the candidate's row is done, nothing is left to act on.
  lemma CandidateDone(s: Settings, c: World, rows: seq<Recoverable>, env: IntentId -> Env, x: Intent, i: nat)
    requires Sound(s, c) && Enumerates(c, rows) && CandidateAt(s, c, rows, x, i)
    ensures var v' := RecoverState(s, c, rows[..i + 1], env);
      && Quiescent(s, v')
      && Left(s, c, v', x, Answer(s, c, x, env(x.id).adapter))
  {
    var v, v' := RecoverState(s, c, rows[..i], env), RecoverState(s, c, rows[..i + 1], env);
    CandidateReached(s, c, rows, env, x, i);
    RowDone(s, v, rows[i], env(x.id));
    RecoverNext(s, c, rows, env, i);
    LeftFrom(s, c, v, v', x, Answer(s, c, x, env(x.id).adapter));
  }

  lemma LeftFrom(s: Settings, c: World, v: World, d: World, x: Intent, answer: Option<Report>)
    requires SameBook(c, v) && Left(s, v, d, x, answer)
    ensures Left(s, c, d, x, answer)
  {
    if answer.Some? && AppliedOnce(v, d, x, answer.value) {
      SameThenApplied(c, v, d, x, answer.value);
    }
  }

  lemma RowDone(s: Settings, v: World, r: Recoverable, env: Env)
    requires Sound(s, v) && IsRow(v, r)
    requires QuietBut(s, v, r.intent.id)
    ensures var v' := ApplyAll(v, RecoverOne(s, v, r, env));
      Quiescent(s, v') && Left(s, v, v', r.intent, RecoveredReport(s, v, r, env))
  {
    OthersStay(s, v, r, env, |RecoverOne(s, v, r, env)|);
    RecoverOneOutcome(s, v, r, env);
    QuiescentAfter(s, ApplyAll(v, RecoverOne(s, v, r, env)), r.intent.id);
  }

  lemma QuiescentAfter(s: Settings, d: World, id: IntentId)
    requires QuietBut(s, d, id)
    requires HasStatus(d.ledger, id, RECONCILED) || StatusOf(d, id) == Some(REJECTED) || Inert(s, d, id)
    ensures Quiescent(s, d)
  {
  }

  lemma LeftThenQuiet(s: Settings, c: World, v: World, d: World, x: Intent, answer: Option<Report>)
    requires Left(s, c, v, x, answer) && Quiet(v, d)
    ensures Left(s, c, d, x, answer)
  {
    QuietKeeps(s, v, d, x);
    if answer.Some? && AppliedOnce(c, v, x, answer.value) {
      AppliedThenSame(c, v, d, x, answer.value);
    }
  }

  // One recovery that dies cleanly.
  lemma DeathStep(s: Settings, c: World, x: Intent, d: Death)
    requires Sound(s, c) && OneCandidate(s, c, x) && DiesCleanly(s, c, d)
    ensures Sound(s, Fallen(s, c, d)) && Left(s, c, Fallen(s, c, d), x, Answer(s, c, x, d.env(x.id).adapter))
  {
    var i, j := DeathPoint(s, c, d.rows, d.env, d.cut);
    var ix := CandidateIndex(s, c, d.rows, x);
    DeathSound(s, c, d);
    if ix < i {
      PastItsRow(s, c, x, d, i, j, ix);
    } else if ix == i && i < |d.rows| {
      DeadInRow(s, c, d, i, j);
      DeadAfter(s, c, d, i, j, x.id);
      CandidateDeath(s, c, d.rows, d.env, x, i, j);
    } else {
      NotReached(s, c, x, d, i, j);
      QuietKeeps(s, c, Fallen(s, c, d), x);
    }
  }

  lemma PastItsRow(s: Settings, c: World, x: Intent, d: Death, i: nat, j: nat, ix: nat)
    requires Sound(s, c) && DiesCleanly(s, c, d) && DeadAt(s, c, d.rows, d.env, d.cut, i, j)
    requires ix < i && CandidateAt(s, c, d.rows, x, ix)
    ensures Left(s, c, Fallen(s, c, d), x, Answer(s, c, x, d.env(x.id).adapter))
  {
    CandidateDone(s, c, d.rows, d.env, x, ix);
    QuietDeath(s, c, d.rows, d.env, ix + 1, i, j, Fallen(s, c, d));
    LeftThenQuiet(
      s, c, RecoverState(s, c, d.rows[..ix + 1], d.env), Fallen(s, c, d), x, Answer(s, c, x, d.env(x.id).adapter));
  }

  // A quiescent state stays so.
  lemma QuiescentDeath(s: Settings, c: World, d: Death)
    requires Sound(s, c) && Quiescent(s, c) && DiesCleanly(s, c, d)
    ensures Sound(s, Fallen(s, c, d)) && Quiescent(s, Fallen(s, c, d)) && SameBook(c, Fallen(s, c, d))
  {
    var i, j := DeathPoint(s, c, d.rows, d.env, d.cut);
    DeathSound(s, c, d);
    forall m | 0 <= m < |d.rows|
      ensures Inert(s, c, d.rows[m].intent.id)
    {
      assert IsRow(c, d.rows[m]);
    }
    var any := Intent(IntentId("", "", 0, UNKNOWN, DEX, BUY), 0.0, 0.0, 0);
    NotReached(s, c, any, d, i, j);
    QuietKeeps(s, c, Fallen(s, c, d), any);
  }

  // --- dying anywhere in it ----------------------------------------------------------------------

  // What the next recovery applies after one that had this answer and died before marking the order.
  function NextAnswer(
    s: Settings, c: World, d: World, x: Intent, answer: Report, adapter: nat -> Outcome): Option<Report>
  {
    if StatusOf(c, x.id) == Some(FILLED) || answer.status == FILLED then Some(answer)
    else if answer.status == SUBMITTED then ExecuteResult(s, x, adapter, AttemptsOf(d, x.id))
    else None
  }

  // The order when the execution of recovery has returned.
  lemma ResumedOrder(s: Settings, v: World, r: Recoverable, env: Env)
    requires Sound(s, v) && IsRow(v, r) && RecoveredReport(s, v, r, env).Some?
    ensures var d, id := ApplyAll(v, Resuming(s, v, r, env)), r.intent.id;
      var report := RecoveredReport(s, v, r, env).value;
      && id in d.orders && d.orders[id].intent == r.intent
      && d.orders[id].status == (if r.status == FILLED then FILLED else report.status)
      && HasStatus(d.ledger, id, SUBMITTED) && OpenLedger(d, id)
      && (r.status == FILLED || report.status == FILLED ==> LatestReport(d.reports, id) == Some(report))
  {
    var first, n := Resuming(s, v, r, env), AttemptsOf(v, r.intent.id);
    var v1 := ApplyAll(v, [Notice(r, env)]);
    ResumingRow(s, v, r, env, |first|);
    ResumingReports(s, v, r, env, |first|);
    ResumedLedger(s, v, r, env, SUBMITTED);
    ResumedLedger(s, v, r, env, RECONCILED);
    ResumedLedger(s, v, r, env, REJECTED);
    ApplyAllOne(v, Notice(r, env));
    ApplyAllConcat(v, [Notice(r, env)], RecoveryExecution(s, v, r, env));
    if r.status != FILLED {
      assert CountDispatches(v.dispatches, r.intent.id) <= n;
      ExecuteLegal(s, v1, r.intent, r.adjustedUsd, env.riskAt, env.adapter, n);
      StoredAnswer(s, v, r, env);
    }
  }

  lemma ResumedLedger(s: Settings, v: World, r: Recoverable, env: Env, status: Status)
    requires status in {SUBMITTED, RECONCILED, REJECTED}
    ensures HasStatus(ApplyAll(v, Resuming(s, v, r, env)).ledger, r.intent.id, status)
      <==> HasStatus(v.ledger, r.intent.id, status)
  {
    var v1, id := ApplyAll(v, [Notice(r, env)]), r.intent.id;
    var run, entry := RecoveryExecution(s, v, r, env), RecoveryEntry(r, env.recoveredAt);
    ApplyAllConcat(v, [Notice(r, env)], run);
    ApplyAllOne(v, Notice(r, env));
    AppendedStatus(v.ledger, [entry], id, status);
    OneStatus(entry, id, status);
    if r.status != FILLED {
      ExecuteLedger(
        s, v1, r.intent, r.adjustedUsd, env.riskAt, env.adapter, AttemptsOf(v, id), id, status);
    } else {
      assert ApplyAll(v1, run) == v1;
    }
  }

  // Its closing writes, one by one.
  lemma FinishingBook(s: Settings, v: World, v1: World, r: Recoverable, report: Report, env: Env, k: nat)
    requires v1.positions == v.positions && v1.portfolio == v.portfolio && r.intent.id in v1.orders && k <= 5
    ensures var d := After(v1, RecoveryClosing(v, r, report, env), k);
      var b := FillOf(BookOf(v, r.intent.Token()), r.intent, report);
      && (k <= 1 ==> SameBook(v, d))
      && (k == 2 ==> Rebooked(v, d, r.intent.Token(), Reconciler.Book(b.position, PortfolioOf(v))))
      && (k >= 3 ==> AppliedOnce(v, d, r.intent, report))
      && (k <= 3 ==> d.orders == v1.orders && d.reports == v1.reports && d.ledger == v1.ledger)
      && (k >= 4 ==> StatusOf(d, r.intent.id) == Some(RECONCILED))
  {
    RecoveryClosingBooks(v, v1, r, report, env);
    RecoveryClosingRows(v, v1, r, report, env);
    assert k == 0 ==> After(v1, RecoveryClosing(v, r, report, env), k) == v1;
    if k >= 3 {
      SameThenApplied(v, v1, After(v1, RecoveryClosing(v, r, report, env), k), r.intent, report);
    }
  }

  // A recovery with something to apply dies k writes after its report is at hand, at any k: what it leaves of the
  // book, and what the next one then applies to it, which can be the same fill again, another execution's, or nothing.
  lemma RecoveryDies(
    s: Settings, c: World, rows: seq<Recoverable>, env: IntentId -> Env, x: Intent, i: nat, k: nat, d: World,
    rows': seq<Recoverable>, env': IntentId -> Env)
    requires Sound(s, c) && Enumerates(c, rows) && CandidateAt(s, c, rows, x, i)
    requires Answer(s, c, x, env(x.id).adapter).Some?
    requires var v, es := RecoverState(s, c, rows[..i], env), RowEffects(s, c, rows, env, i);
      var done := |Resuming(s, v, rows[i], env(x.id))|;
      done + k <= |es| && d == After(v, es, done + k)
    requires Enumerates(d, rows')
    ensures var answer, b := Answer(s, c, x, env(x.id).adapter).value, BookOf(c, x.Token());
      && (k <= 1 ==> SameBook(c, d))
      && (k == 2 ==> Rebooked(
            c, d, x.Token(), Reconciler.Book(FillOf(b, x, answer).position, PortfolioOf(c))))
      && (k >= 3 ==> AppliedOnce(c, d, x, answer))
      && match if k <= 3 then NextAnswer(s, c, d, x, answer, env'(x.id).adapter) else None
         case Some(again) => AppliedOnce(d, RecoverState(s, d, rows', env'), x, again)
         case None => SameBook(d, RecoverState(s, d, rows', env'))
  {
    var v := RecoverState(s, c, rows[..i], env);
    CandidateReached(s, c, rows, env, x, i);
    RowDiesSound(s, v, rows[i], env(x.id), |Resuming(s, v, rows[i], env(x.id))| + k);
    RowDies(s, v, rows[i], env(x.id), k);
    RowDiesBook(s, v, rows[i], env(x.id), k);
    BookFrom(c, v, d, x, Answer(s, c, x, env(x.id).adapter).value, k);
    ThenAnswers(s, c, v, rows[i], env(x.id), k, d, env'(x.id).adapter);
    CandidateRecovery(s, d, rows', env', x);
  }

  lemma RowDies(s: Settings, v: World, r: Recoverable, env: Env, k: nat)
    requires Sound(s, v) && IsRow(v, r) && RecoveredReport(s, v, r, env).Some?
    requires |Resuming(s, v, r, env)| + k <= |RecoverOne(s, v, r, env)|
    ensures k <= 5
    ensures var report, v1 := RecoveredReport(s, v, r, env).value, ApplyAll(v, Resuming(s, v, r, env));
      After(v, RecoverOne(s, v, r, env), |Resuming(s, v, r, env)| + k)
      == After(v1, RecoveryClosing(v, r, report, env), k)
  {
    AfterSecond(v, RecoverOne(s, v, r, env), Resuming(s, v, r, env), Finishing(s, v, r, env), k);
  }

  lemma AfterSecond(v: World, all: seq<Effect>, first: seq<Effect>, last: seq<Effect>, k: nat)
    requires all == first + last && |first| + k <= |all|
    ensures After(v, all, |first| + k) == After(ApplyAll(v, first), last, k)
  {
    AfterConcat(v, first, last, |first| + k);
    if k == 0 {
      assert After(ApplyAll(v, first), last, 0) == ApplyAll(v, first);
    }
  }

  lemma RowDiesBook(s: Settings, v: World, r: Recoverable, env: Env, k: nat)
    requires Sound(s, v) && IsRow(v, r) && RecoveredReport(s, v, r, env).Some? && k <= 5
    ensures var report, v1 := RecoveredReport(s, v, r, env).value, ApplyAll(v, Resuming(s, v, r, env));
      var b := FillOf(BookOf(v, r.intent.Token()), r.intent, report);
      var d := After(v1, RecoveryClosing(v, r, report, env), k);
      && (k <= 1 ==> SameBook(v, d))
      && (k == 2 ==> Rebooked(v, d, r.intent.Token(), Reconciler.Book(b.position, PortfolioOf(v))))
      && (k >= 3 ==> AppliedOnce(v, d, r.intent, report))
      && (k <= 3 ==> d.orders == v1.orders && d.reports == v1.reports && d.ledger == v1.ledger)
      && (k >= 4 ==> StatusOf(d, r.intent.id) == Some(RECONCILED))
  {
    ResumedOrder(s, v, r, env);
    ResumeKeepsBook(s, v, r, env);
    FinishingBook(s, v, ApplyAll(v, Resuming(s, v, r, env)), r, RecoveredReport(s, v, r, env).value, env, k);
  }

  lemma ThenAnswers(
    s: Settings, c: World, v: World, r: Recoverable, env: Env, k: nat, d: World, adapter: nat -> Outcome)
    requires Sound(s, v) && IsRow(v, r) && SameOrder(c, v, r.intent.id) && QuietBut(s, v, r.intent.id)
    requires RecoveredReport(s, v, r, env).Some?
    requires var es, done := RecoverOne(s, v, r, env), |Resuming(s, v, r, env)|;
      done + k <= |es| && d == After(v, es, done + k)
    ensures OneCandidate(s, d, r.intent)
    ensures Answer(s, d, r.intent, adapter)
      == if k <= 3 then NextAnswer(s, c, d, r.intent, RecoveredReport(s, v, r, env).value, adapter) else None
  {
    OthersStay(s, v, r, env, |Resuming(s, v, r, env)| + k);
    ResumedOrder(s, v, r, env);
    RowDies(s, v, r, env, k);
    RowDiesBook(s, v, r, env, k);
    OrderThen(
      s, c, ApplyAll(v, Resuming(s, v, r, env)), d, r.intent, RecoveredReport(s, v, r, env).value, k, adapter);
  }

  lemma RowDiesSound(s: Settings, v: World, r: Recoverable, env: Env, j: nat)
    requires Sound(s, v) && IsRow(v, r) && j <= |RecoverOne(s, v, r, env)|
    ensures Sound(s, After(v, RecoverOne(s, v, r, env), j))
  {
    RecoverOneLegal(s, v, r, env);
    LegalRun(s, v, RecoverOne(s, v, r, env), j);
  }

  lemma BookFrom(c: World, v: World, d: World, x: Intent, answer: Report, k: nat)
    requires SameBook(c, v)
    requires var b := FillOf(BookOf(v, x.Token()), x, answer);
      && (k <= 1 ==> SameBook(v, d))
      && (k == 2 ==> Rebooked(v, d, x.Token(), Reconciler.Book(b.position, PortfolioOf(v))))
      && (k >= 3 ==> AppliedOnce(v, d, x, answer))
    ensures var b := FillOf(BookOf(c, x.Token()), x, answer);
      && (k <= 1 ==> SameBook(c, d))
      && (k == 2 ==> Rebooked(c, d, x.Token(), Reconciler.Book(b.position, PortfolioOf(c))))
      && (k >= 3 ==> AppliedOnce(c, d, x, answer))
  {
  }

  lemma OrderThen(
    s: Settings, c: World, v1: World, d: World, x: Intent, answer: Report, k: nat, adapter: nat -> Outcome)
    requires x.id in v1.orders && v1.orders[x.id].intent == x && HasStatus(v1.ledger, x.id, SUBMITTED)
    requires OpenLedger(v1, x.id) && QuietBut(s, d, x.id)
    requires v1.orders[x.id].status == if StatusOf(c, x.id) == Some(FILLED) then FILLED else answer.status
    requires StatusOf(c, x.id) == Some(FILLED) || answer.status == FILLED ==>
      LatestReport(v1.reports, x.id) == Some(answer)
    requires k <= 3 ==> d.orders == v1.orders && d.reports == v1.reports && d.ledger == v1.ledger
    requires k >= 4 ==> StatusOf(d, x.id) == Some(RECONCILED)
    ensures OneCandidate(s, d, x)
    ensures Answer(s, d, x, adapter) == if k <= 3 then NextAnswer(s, c, d, x, answer, adapter) else None
  {
  }

  // --- where a stored report comes from ----------------------------------------------------------

  // An answer of the adapter about x.
  ghost predicate Reports(adapter: nat -> Outcome, x: Intent, report: Report) {
    exists n: nat :: adapter(n).Reported? && report == ReportOf(x, adapter(n))
  }

  lemma {:induction false} ResultReported(s: Settings, x: Intent, adapter: nat -> Outcome, n: nat)
    requires ExecuteResult(s, x, adapter, n).Some?
    ensures Reports(adapter, x, ExecuteResult(s, x, adapter, n).value)
    decreases s.MaxAttempts() - n
  {
    if adapter(n).Raised? {
      ResultReported(s, x, adapter, n + 1);
    }
  }

  // The last effects of an execution that fills: the order is marked, then the report stored.
  lemma {:induction false} FillMarked(
    s: Settings, intent: Intent, adjusted: real, at: int, adapter: nat -> Outcome, n: nat)
    requires ReportsFill(s, intent, adapter, n)
    ensures var es := ExecuteEffects(s, intent, adjusted, at, adapter, n);
      |es| >= 4 && es[|es| - 2] == MarkOrder(intent.id, FILLED)
    decreases s.MaxAttempts() - n
  {
    if adapter(n).Raised? {
      FillMarked(s, intent, adjusted, at, adapter, n + 1);
    }
  }

  // Until an execution stores its report the reports are as before, and it stores one at most.
  lemma ResumingReports(s: Settings, v: World, r: Recoverable, env: Env, j: nat)
    requires j <= |Resuming(s, v, r, env)|
    ensures var d, run := After(v, Resuming(s, v, r, env), j), RecoveryExecution(s, v, r, env);
      var report := RecoveredReport(s, v, r, env);
      d.reports == if r.status != FILLED && report.Some? && j == 1 + |run| then InsertNew(v.reports, report.value)
                   else v.reports
  {
    var es, run, n := Resuming(s, v, r, env), RecoveryExecution(s, v, r, env), AttemptsOf(v, r.intent.id);
    var report := RecoveredReport(s, v, r, env);
    assert After(v, es, 0) == v;
    if r.status != FILLED && report.Some? {
      ReportStoredLast(s, r.intent, r.adjustedUsd, env.riskAt, env.adapter, n);
      assert forall i | 0 <= i < |run| - 1 :: es[i + 1] == run[i];
      ReportsKept(v, es, 0, if j <= |run| then j else |run|);
      if j == 1 + |run| {
        assert es[j - 1] == SaveReport(report.value);
      }
    } else {
      if r.status != FILLED {
        NothingStored(s, r.intent, r.adjustedUsd, env.riskAt, env.adapter, n);
      }
      assert forall i | 0 <= i < |run| :: es[i + 1] == run[i] && run[i] in run;
      ReportsKept(v, es, 0, j);
    }
  }

  // The latest report of x, where dying in its row leaves it unfinished: the one before, or an answer of the
  // adapter; and the order FILLED only if it was, or with that answer stored, or just marked so.
  ghost predicate Sourced(c: World, d: World, x: Intent, adapter: nat -> Outcome, marked: bool) {
    && (|| LatestReport(d.reports, x.id) == LatestReport(c.reports, x.id)
        || (LatestReport(d.reports, x.id).Some? && Reports(adapter, x, LatestReport(d.reports, x.id).value)))
    && (StatusOf(d, x.id) == Some(FILLED) ==>
          || (StatusOf(c, x.id) == Some(FILLED) && LatestReport(d.reports, x.id) == LatestReport(c.reports, x.id))
          || (LatestReport(d.reports, x.id).Some? && Reports(adapter, x, LatestReport(d.reports, x.id).value))
          || marked)
  }

  lemma ResumingSourced(s: Settings, v: World, r: Recoverable, env: Env, j: nat)
    requires Sound(s, v) && IsRow(v, r) && j <= |Resuming(s, v, r, env)|
    ensures var es := Resuming(s, v, r, env);
      Sourced(
        v, After(v, es, j), r.intent, env.adapter, j > 0 && es[j - 1] == MarkOrder(r.intent.id, FILLED))
  {
    ResumingLatest(s, v, r, env, j);
    if r.status != FILLED {
      ResumingFilled(s, v, r, env, j);
    }
  }

  lemma ResumingLatest(s: Settings, v: World, r: Recoverable, env: Env, j: nat)
    requires Sound(s, v) && IsRow(v, r) && j <= |Resuming(s, v, r, env)|
    ensures var reports, id := After(v, Resuming(s, v, r, env), j).reports, r.intent.id;
      || LatestReport(reports, id) == LatestReport(v.reports, id)
      || (LatestReport(reports, id).Some? && Reports(env.adapter, r.intent, LatestReport(reports, id).value))
    ensures r.status == FILLED || j < |Resuming(s, v, r, env)| ==>
      After(v, Resuming(s, v, r, env), j).reports == v.reports
  {
    ResumingReports(s, v, r, env, j);
    if r.status != FILLED && RecoveredReport(s, v, r, env).Some? {
      StoredAnswer(s, v, r, env);
    }
  }

  lemma ResumingFilled(s: Settings, v: World, r: Recoverable, env: Env, j: nat)
    requires Sound(s, v) && IsRow(v, r) && j <= |Resuming(s, v, r, env)| && r.status != FILLED
    ensures var es, id := Resuming(s, v, r, env), r.intent.id;
      var d := After(v, es, j);
      StatusOf(d, id) == Some(FILLED) ==>
        || (LatestReport(d.reports, id).Some? && Reports(env.adapter, r.intent, LatestReport(d.reports, id).value))
        || (j > 0 && es[j - 1] == MarkOrder(id, FILLED))
  {
    ResumingRow(s, v, r, env, j);
    MarkedLast(s, v, r, env);
    if ReportsFill(s, r.intent, env.adapter, AttemptsOf(v, r.intent.id)) && j == |Resuming(s, v, r, env)| {
      ResumingReports(s, v, r, env, j);
      StoredAnswer(s, v, r, env);
    }
  }

  lemma MarkedLast(s: Settings, v: World, r: Recoverable, env: Env)
    requires r.status != FILLED
    ensures var es := Resuming(s, v, r, env);
      ReportsFill(s, r.intent, env.adapter, AttemptsOf(v, r.intent.id)) ==>
        |es| >= 5 && es[|es| - 2] == MarkOrder(r.intent.id, FILLED)
  {
    if ReportsFill(s, r.intent, env.adapter, AttemptsOf(v, r.intent.id)) {
      FillMarked(s, r.intent, r.adjustedUsd, env.riskAt, env.adapter, AttemptsOf(v, r.intent.id));
    }
  }

  // The answer of an execution, once stored, is the latest if it is a fill; if it was stored before, it is one anyway.
  lemma StoredAnswer(s: Settings, v: World, r: Recoverable, env: Env)
    requires Sound(s, v) && IsRow(v, r) && r.status != FILLED && RecoveredReport(s, v, r, env).Some?
    ensures var report, id := RecoveredReport(s, v, r, env).value, r.intent.id;
      var after := InsertNew(v.reports, report);
      && Reports(env.adapter, r.intent, report)
      && (LatestReport(after, id) == Some(report) || LatestReport(after, id) == LatestReport(v.reports, id))
      && (report.status == FILLED ==> LatestReport(after, id) == Some(report))
  {
    var report := RecoveredReport(s, v, r, env).value;
    ResultReported(s, r.intent, env.adapter, AttemptsOf(v, r.intent.id));
    if report !in v.reports {
      LatestAfterInsert(v.reports, report, r.intent.id);
    }
  }

  // Where x is in play in this state.
  ghost predicate InPlay(s: Settings, c: World, x: Intent) {
    x.id in c.orders && IsRecoverable(c, x.id) && !Inert(s, c, x.id)
  }

  // The recovery dies right after marking x FILLED.
  ghost predicate DiesMarked(s: Settings, c: World, d: Death, x: Intent) {
    JustMarked(RecoverEffects(s, c, d.rows, d.env), d.cut, x.id)
  }

  predicate JustMarked(es: seq<Effect>, k: nat, id: IntentId) {
    0 < k <= |es| && es[k - 1] == MarkOrder(id, FILLED)
  }

  // Between its execution and its first closing write nothing happens to the order.
  lemma FinishingSourced(s: Settings, v: World, r: Recoverable, env: Env, j: nat)
    requires Sound(s, v) && IsRow(v, r)
    requires var last := Finishing(s, v, r, env); 0 < j <= |last| && !TouchesBook(last[j - 1])
    ensures var d := After(ApplyAll(v, Resuming(s, v, r, env)), Finishing(s, v, r, env), j);
      InPlay(s, d, r.intent) ==>
        Sourced(v, d, r.intent, env.adapter, false) && d.orders[r.intent.id].adjustedUsd == r.adjustedUsd
  {
    var first := Resuming(s, v, r, env);
    var v1, report := ApplyAll(v, first), RecoveredReport(s, v, r, env).value;
    ResumingRow(s, v, r, env, |first|);
    ResumeKeepsBook(s, v, r, env);
    FinishingRow(s, v, v1, r, report, env, j);
    ResumingSourced(s, v, r, env, |first|);
    LastResumed(s, v, r, env);
  }

  lemma LastResumed(s: Settings, v: World, r: Recoverable, env: Env)
    requires RecoveredReport(s, v, r, env).Some?
    ensures var first := Resuming(s, v, r, env); |first| > 0 && !first[|first| - 1].MarkOrder?
  {
    if r.status != FILLED {
      ReportStoredLast(s, r.intent, r.adjustedUsd, env.riskAt, env.adapter, AttemptsOf(v, r.intent.id));
    }
  }

  lemma CandidateSourced(
    s: Settings, c: World, rows: seq<Recoverable>, env: IntentId -> Env, x: Intent, i: nat, j: nat)
    requires Sound(s, c) && Enumerates(c, rows) && CandidateAt(s, c, rows, x, i)
    requires var es := RowEffects(s, c, rows, env, i); j <= |es| && (j > 0 ==> !TouchesBook(es[j - 1]))
    ensures var v, es := RecoverState(s, c, rows[..i], env), RowEffects(s, c, rows, env, i);
      var d := After(v, es, j);
      InPlay(s, d, x) ==>
        && Sourced(c, d, x, env(x.id).adapter, JustMarked(es, j, x.id))
        && d.orders[x.id].adjustedUsd == rows[i].adjustedUsd
  {
    var v := RecoverState(s, c, rows[..i], env);
    CandidateReached(s, c, rows, env, x, i);
    RowParts(s, v, rows[i], env(x.id), j);
    var first := Resuming(s, v, rows[i], env(x.id));
    if j <= |first| {
      ResumingSourced(s, v, rows[i], env(x.id), j);
      ResumingRow(s, v, rows[i], env(x.id), j);
    } else {
      FinishingSourced(s, v, rows[i], env(x.id), j - |first|);
    }
  }

  lemma QuietSourced(s: Settings, c: World, d: World, x: Intent, adapter: nat -> Outcome)
    requires Quiet(c, d)
    ensures InPlay(s, d, x) ==>
      InPlay(s, c, x) && Sourced(c, d, x, adapter, false) && d.orders[x.id].adjustedUsd == c.orders[x.id].adjustedUsd
  {
  }

  // A recovery that dies cleanly and leaves x in play: x was before, at the same size, and any new report of it is an
  // answer of the adapter.
  lemma DeathSourced(s: Settings, c: World, x: Intent, d: Death)
    requires Sound(s, c) && OneCandidate(s, c, x) && DiesCleanly(s, c, d)
    ensures InPlay(s, Fallen(s, c, d), x) ==>
      && InPlay(s, c, x)
      && Sourced(c, Fallen(s, c, d), x, d.env(x.id).adapter, DiesMarked(s, c, d, x))
      && Fallen(s, c, d).orders[x.id].adjustedUsd == c.orders[x.id].adjustedUsd
  {
    var i, j := DeathPoint(s, c, d.rows, d.env, d.cut);
    var ix := CandidateIndex(s, c, d.rows, x);
    if ix < i {
      OutOfPlay(s, c, x, d, i, j, ix);
    } else if ix == i && i < |d.rows| {
      InItsRow(s, c, x, d, i, j);
    } else {
      NotReached(s, c, x, d, i, j);
      QuietSourced(s, c, Fallen(s, c, d), x, d.env(x.id).adapter);
    }
  }

  lemma OutOfPlay(s: Settings, c: World, x: Intent, d: Death, i: nat, j: nat, ix: nat)
    requires Sound(s, c) && DiesCleanly(s, c, d) && DeadAt(s, c, d.rows, d.env, d.cut, i, j)
    requires ix < i && CandidateAt(s, c, d.rows, x, ix)
    ensures !InPlay(s, Fallen(s, c, d), x)
  {
    CandidateDone(s, c, d.rows, d.env, x, ix);
    QuietDeath(s, c, d.rows, d.env, ix + 1, i, j, Fallen(s, c, d));
    QuietKeeps(s, RecoverState(s, c, d.rows[..ix + 1], d.env), Fallen(s, c, d), x);
  }

  lemma InItsRow(s: Settings, c: World, x: Intent, d: Death, i: nat, j: nat)
    requires Sound(s, c) && DiesCleanly(s, c, d) && DeadAt(s, c, d.rows, d.env, d.cut, i, j)
    requires CandidateAt(s, c, d.rows, x, i)
    ensures InPlay(s, Fallen(s, c, d), x) ==>
      && InPlay(s, c, x)
      && Sourced(c, Fallen(s, c, d), x, d.env(x.id).adapter, DiesMarked(s, c, d, x))
      && Fallen(s, c, d).orders[x.id].adjustedUsd == c.orders[x.id].adjustedUsd
  {
    assert IsRow(c, d.rows[i]);
    DeadInRow(s, c, d, i, j);
    DeadAfter(s, c, d, i, j, x.id);
    CandidateSourced(s, c, d.rows, d.env, x, i, j);
  }

  // The state it dies in, as the row sees it ...
  lemma DeadInRow(s: Settings, c: World, d: Death, i: nat, j: nat)
    requires DiesCleanly(s, c, d) && DeadAt(s, c, d.rows, d.env, d.cut, i, j) && i < |d.rows|
    ensures var v, es := RecoverState(s, c, d.rows[..i], d.env), RowEffects(s, c, d.rows, d.env, i);
      j <= |es| && Fallen(s, c, d) == After(v, es, j)
  {
  }

  // ... and its last effect.
  lemma DeadAfter(s: Settings, c: World, d: Death, i: nat, j: nat, id: IntentId)
    requires DiesCleanly(s, c, d) && DeadAt(s, c, d.rows, d.env, d.cut, i, j) && i < |d.rows|
    ensures var es := RowEffects(s, c, d.rows, d.env, i);
      && j <= |es| && (j > 0 ==> !TouchesBook(es[j - 1]))
      && (JustMarked(es, j, id) ==> JustMarked(RecoverEffects(s, c, d.rows, d.env), d.cut, id))
  {
    var all, v, es :=
      RecoverEffects(s, c, d.rows, d.env), RecoverState(s, c, d.rows[..i], d.env), RowEffects(s, c, d.rows, d.env, i);
    assert CutIn(c, all, d.cut, v, es, j);
    CutClean(c, all, d.cut, v, es, j, id);
  }

  lemma CutClean(c: World, all: seq<Effect>, k: nat, v: World, es: seq<Effect>, j: nat, id: IntentId)
    requires CutIn(c, all, k, v, es, j) && (k == 0 || !TouchesBook(all[k - 1]))
    ensures j <= |es| && (j > 0 ==> !TouchesBook(es[j - 1]))
    ensures JustMarked(es, j, id) ==> JustMarked(all, k, id)
  {
  }

  lemma NotReached(s: Settings, c: World, x: Intent, d: Death, i: nat, j: nat)
    requires Sound(s, c) && DiesCleanly(s, c, d) && DeadAt(s, c, d.rows, d.env, d.cut, i, j)
    requires forall m | 0 <= m <= i && m < |d.rows| :: Inert(s, c, d.rows[m].intent.id)
    ensures Quiet(c, Fallen(s, c, d))
  {
    assert d.rows[..0] == [];
    QuietDeath(s, c, d.rows, d.env, 0, i, j, Fallen(s, c, d));
  }

  // --- coming back up ----------------------------------------------------------------------------

  // Any number of recoveries that die, the states they find and leave, then a recovery that completes.
  datatype Revival = Revival(
    deaths: seq<Death>, falls: seq<World>, rows: seq<Recoverable>, env: IntentId -> Env)
  {
    // The adapter that answers for an order at each of them.
    function AdapterAt(i: nat, id: IntentId): nat -> Outcome
      requires i <= |deaths|
    {
      if i < |deaths| then deaths[i].env(id).adapter else env(id).adapter
    }

    // The rows that each of them lists.
    function RowsAt(i: nat): seq<Recoverable>
      requires i <= |deaths|
    {
      if i < |deaths| then deaths[i].rows else rows
    }
  }

  ghost predicate AllClean(s: Settings, c: World, r: Revival) {
    && |r.falls| == |r.deaths| + 1 && r.falls[0] == c
    && forall i | 0 <= i < |r.deaths| ::
         DiesCleanly(s, r.falls[i], r.deaths[i]) && r.falls[i + 1] == Fallen(s, r.falls[i], r.deaths[i])
  }

  ghost predicate Revives(s: Settings, c: World, r: Revival, w': World) {
    && AllClean(s, c, r)
    && Enumerates(r.falls[|r.deaths|], r.rows)
    && w' == RecoverState(s, r.falls[|r.deaths|], r.rows, r.env)
  }

  // The report is what one of these recoveries had to apply to x.
  ghost predicate Answered(s: Settings, r: Revival, x: Intent, i: nat, report: Report) {
    && i <= |r.deaths| && i < |r.falls|
    && Answer(s, r.falls[i], x, r.AdapterAt(i, x.id)) == Some(report)
  }

  ghost predicate AppliedBy(s: Settings, c: World, r: Revival, x: Intent, w': World, i: nat, report: Report) {
    Answered(s, r, x, i, report) && AppliedOnce(c, w', x, report)
  }

  // After n deaths: nothing applied and still one candidate, or one answer applied and all quiet.
  ghost predicate Standing(s: Settings, c: World, r: Revival, x: Intent, n: nat)
    requires n < |r.falls|
  {
    var d := r.falls[n];
    && Sound(s, d)
    && ((SameBook(c, d) && OneCandidate(s, d, x))
        || (Quiescent(s, d) && exists i: nat, report :: AppliedBy(s, c, r, x, d, i, report)))
  }

  lemma {:induction false} StandingAfter(s: Settings, c: World, r: Revival, x: Intent, n: nat)
    requires Sound(s, c) && OneCandidate(s, c, x) && AllClean(s, c, r) && n <= |r.deaths|
    ensures Standing(s, c, r, x, n)
    decreases n
  {
    if n > 0 {
      StandingAfter(s, c, r, x, n - 1);
      StandingNext(s, c, r, x, n - 1);
    }
  }

  lemma StandingNext(s: Settings, c: World, r: Revival, x: Intent, n: nat)
    requires AllClean(s, c, r) && n < |r.deaths| && Standing(s, c, r, x, n)
    ensures Standing(s, c, r, x, n + 1)
  {
    var d, d' := r.falls[n], r.falls[n + 1];
    if SameBook(c, d) && OneCandidate(s, d, x) {
      DeathStep(s, d, x, r.deaths[n]);
      var answer := Answer(s, d, x, r.AdapterAt(n, x.id));
      if answer.Some? && AppliedOnce(d, d', x, answer.value) && Quiescent(s, d') {
        SameThenApplied(c, d, d', x, answer.value);
        assert AppliedBy(s, c, r, x, d', n, answer.value);
      }
    } else {
      QuiescentDeath(s, d, r.deaths[n]);
      var i: nat, report :| AppliedBy(s, c, r, x, d, i, report);
      AppliedThenSame(c, d, d', x, report);
      assert AppliedBy(s, c, r, x, d', i, report);
    }
  }

  // However often recovery dies on the way, in the end it has applied one of its answers or left the book alone.
  lemma RevivalOutcome(s: Settings, c: World, r: Revival, x: Intent, w': World)
    requires Sound(s, c) && OneCandidate(s, c, x) && Revives(s, c, r, w')
    ensures Steady(s, w')
    ensures SameBook(c, w') || exists i: nat, report :: AppliedBy(s, c, r, x, w', i, report)
  {
    var n := |r.deaths|;
    var d := r.falls[n];
    StandingAfter(s, c, r, x, n);
    RecoveryQuiesces(s, d, r.rows, r.env);
    if SameBook(c, d) && OneCandidate(s, d, x) {
      CandidateRecovery(s, d, r.rows, r.env, x);
      var answer := Answer(s, d, x, r.AdapterAt(n, x.id));
      if answer.Some? {
        SameThenApplied(c, d, w', x, answer.value);
        assert AppliedBy(s, c, r, x, w', n, answer.value);
      }
    } else {
      QuiescentRecovery(s, d, r.rows, r.env);
      var i: nat, report :| AppliedBy(s, c, r, x, d, i, report);
      AppliedThenSame(c, d, w', x, report);
      assert AppliedBy(s, c, r, x, w', i, report);
    }
  }

  lemma {:induction false} QuiescentFallen(s: Settings, c: World, r: Revival, n: nat)
    requires Sound(s, c) && Quiescent(s, c) && AllClean(s, c, r) && n <= |r.deaths|
    ensures StillQuiet(s, c, r.falls[n])
    decreases n
  {
    if n > 0 {
      QuiescentFallen(s, c, r, n - 1);
      StillQuietAt(s, c, r, n - 1);
    }
  }

  ghost predicate StillQuiet(s: Settings, c: World, d: World) { Sound(s, d) && Quiescent(s, d) && SameBook(c, d) }

  lemma StillQuietNext(s: Settings, c: World, d: World, death: Death)
    requires StillQuiet(s, c, d) && DiesCleanly(s, d, death)
    ensures StillQuiet(s, c, Fallen(s, d, death))
  {
    QuiescentDeath(s, d, death);
  }

  lemma StillQuietAt(s: Settings, c: World, r: Revival, n: nat)
    requires AllClean(s, c, r) && n < |r.deaths| && StillQuiet(s, c, r.falls[n])
    ensures StillQuiet(s, c, r.falls[n + 1])
  {
    StillQuietNext(s, c, r.falls[n], r.deaths[n]);
  }

  lemma QuiescentRevival(s: Settings, c: World, r: Revival, w': World)
    requires Sound(s, c) && Quiescent(s, c) && Revives(s, c, r, w')
    ensures Steady(s, w') && SameBook(c, w')
  {
    var d := r.falls[|r.deaths|];
    QuiescentFallen(s, c, r, |r.deaths|);
    RecoveryQuiesces(s, d, r.rows, r.env);
    QuiescentRecovery(s, d, r.rows, r.env);
  }

  lemma {:induction false} FallsSound(s: Settings, c: World, r: Revival, n: nat)
    requires Sound(s, c) && AllClean(s, c, r) && n <= |r.deaths|
    ensures Sound(s, r.falls[n])
    decreases n
  {
    if n > 0 {
      FallsSound(s, c, r, n - 1);
      DeathSound(s, r.falls[n - 1], r.deaths[n - 1]);
    }
  }

  // From any sound state, a revival leaves nothing to recover.
  lemma RevivalQuiesces(s: Settings, c: World, r: Revival, w': World)
    requires Sound(s, c) && Revives(s, c, r, w')
    ensures Steady(s, w')
  {
    FallsSound(s, c, r, |r.deaths|);
    RecoveryQuiesces(s, r.falls[|r.deaths|], r.rows, r.env);
  }

  // --- one life ----------------------------------------------------------------------------------

  // A batch that completes; one that raises after some of its effects, and the worker goes on; one that dies after some
  // of its effects and is recovered; or a recovery alone.
  datatype Life =
    | Ran(input: Input)
    | Raised(input: Input, cut: nat)
    | Died(input: Input, cut: nat, revival: Revival)
    | Restart(revival: Revival)

  ghost predicate Leads(s: Settings, w: World, l: Life, w': World) {
    match l
    case Ran(input) => w' == ApplyAll(w, ProcessEffects(s, w, input))
    case Raised(input, cut) =>
      cut <= |ProcessEffects(s, w, input)| && w' == After(w, ProcessEffects(s, w, input), cut)
    case Restart(revival) => Revives(s, w, revival, w')
    case Died(input, cut, revival) =>
      cut <= |ProcessEffects(s, w, input)| && Revives(s, After(w, ProcessEffects(s, w, input), cut), revival, w')
  }

  // The batch raises and leaves an order that recovery can act on.
  ghost predicate Leaves(s: Settings, w: World, l: Life) {
    l.Raised? && l.cut <= |ProcessEffects(s, w, l.input)| && LeavesLive(s, w, l.input, l.cut)
  }

  // If the life recovers, it starts with nothing that earlier batches have left to recover.
  ghost predicate ClearStart(s: Settings, w: World, l: Life) { l.Died? || l.Restart? ==> Quiescent(s, w) }

  // The batch is cut between the position and the portfolio.
  ghost predicate TornBy(s: Settings, w: World, l: Life, x: Intent, report: Report) {
    (l.Raised? || l.Died?) && Fills(s, w, l.input, x, report) && l.cut == |Opening(s, w, l.input, x)| + 6
  }

  ghost predicate Torn(s: Settings, w: World, l: Life) { exists x, report :: TornBy(s, w, l, x, report) }

  // Where the applied report comes from: the batch itself, if it got past its portfolio write, or a recovery.
  ghost predicate Origin(s: Settings, w: World, l: Life, x: Intent, report: Report) {
    match l
    case Ran(input) => Fills(s, w, input, x, report)
    case Raised(input, cut) => Fills(s, w, input, x, report) && cut >= |Opening(s, w, input, x)| + 7
    case Died(input, cut, revival) =>
      || (Fills(s, w, input, x, report) && cut >= |Opening(s, w, input, x)| + 7)
      || (exists i: nat :: Answered(s, revival, x, i, report))
    case Restart(_) => false
  }

  // The one way a life can change the book: one fill of the order that risk let through.
  ghost predicate FilledOnce(s: Settings, w: World, l: Life, w': World, x: Intent, report: Report) {
    !l.Restart? && Permits(s, w, l.input, x) && Origin(s, w, l, x, report) && AppliedOnce(w, w', x, report)
  }

  // What the torn point leaves.
  ghost predicate HalfFilled(s: Settings, w: World, l: Life, w': World, x: Intent, report: Report) {
    && TornBy(s, w, l, x, report)
    && var b := FillOf(BookOf(w, x.Token()), x, report);
       Rebooked(w, w', x.Token(), Reconciler.Book(b.position, PortfolioOf(w)))
  }

  lemma RanOutcome(s: Settings, w: World, input: Input, w': World)
    requires Sound(s, w) && Leads(s, w, Ran(input), w')
    ensures SameBook(w, w') || exists x, report :: FilledOnce(s, w, Ran(input), w', x, report)
  {
    if !Trades(s, w, input) {
      IdleKeepsBook(s, w, input, |ProcessEffects(s, w, input)|);
    } else if Exhausted(s, w, input) {
      ExhaustedKeepsBook(s, w, input);
    } else {
      var x := PlanOf(s, w, input).intent.value;
      var report := ExecuteResult(s, x, input.adapter, AttemptsOf(w, x.id)).value;
      Uninterrupted(s, w, input, x, report);
      assert FilledOnce(s, w, Ran(input), w', x, report);
    }
  }

  lemma RaisedOutcome(s: Settings, w: World, l: Life, w': World)
    requires Sound(s, w) && l.Raised? && Leads(s, w, l, w')
    ensures SameBook(w, w') || (exists x, report :: FilledOnce(s, w, l, w', x, report))
      || (exists x, report :: HalfFilled(s, w, l, w', x, report))
  {
    if !Trades(s, w, l.input) {
      IdleKeepsBook(s, w, l.input, l.cut);
    } else {
      var x := PlanOf(s, w, l.input).intent.value;
      if report :| Fills(s, w, l.input, x, report) && l.cut >= |Opening(s, w, l.input, x)| + 6 {
        RaisedLate(s, w, l, w', x, report);
      } else {
        BookBefore(s, w, l.input, x, l.cut);
      }
    }
  }

  lemma RaisedLate(s: Settings, w: World, l: Life, w': World, x: Intent, report: Report)
    requires Sound(s, w) && l.Raised? && Leads(s, w, l, w')
    requires Fills(s, w, l.input, x, report) && l.cut >= |Opening(s, w, l.input, x)| + 6
    ensures if TornBy(s, w, l, x, report) then HalfFilled(s, w, l, w', x, report)
            else FilledOnce(s, w, l, w', x, report)
  {
    CrashedBook(s, w, l.input, x, report, l.cut);
    FillsPermits(s, w, l.input, x, report);
  }

  // Past the closing ledger entry nothing is left to recover.
  lemma ClosedQuiet(s: Settings, w: World, input: Input, x: Intent, report: Report, k: nat)
    requires Steady(s, w) && Fills(s, w, input, x, report)
    requires |Opening(s, w, input, x)| + 4 <= k <= |ProcessEffects(s, w, input)|
    ensures Quiescent(s, After(w, ProcessEffects(s, w, input), k))
  {
    QuiescentExactly(s, w, input, k);
  }

  // Past its book writes a batch leaves nothing to recover; before them, one candidate and the book as it was.
  lemma DiedOutcome(s: Settings, w: World, l: Life, w': World)
    requires Steady(s, w) && l.Died? && Leads(s, w, l, w')
    ensures SameBook(w, w') || (exists x, report :: FilledOnce(s, w, l, w', x, report))
      || (exists x, report :: HalfFilled(s, w, l, w', x, report))
  {
    if !Trades(s, w, l.input) {
      IdleKeepsBook(s, w, l.input, l.cut);
      CrashSound(s, w, l.input, l.cut);
      QuiescentExactly(s, w, l.input, l.cut);
      QuiescentRevival(s, After(w, ProcessEffects(s, w, l.input), l.cut), l.revival, w');
    } else {
      var x := PlanOf(s, w, l.input).intent.value;
      if report :| Fills(s, w, l.input, x, report) && l.cut >= |Opening(s, w, l.input, x)| + 6 {
        DiedLate(s, w, l, w', x, report);
      } else {
        DiedEarly(s, w, l, w', x);
      }
    }
  }

  lemma DiedLate(s: Settings, w: World, l: Life, w': World, x: Intent, report: Report)
    requires Steady(s, w) && l.Died? && Leads(s, w, l, w')
    requires Fills(s, w, l.input, x, report) && l.cut >= |Opening(s, w, l.input, x)| + 6
    ensures if TornBy(s, w, l, x, report) then HalfFilled(s, w, l, w', x, report)
            else FilledOnce(s, w, l, w', x, report)
  {
    var c := After(w, ProcessEffects(s, w, l.input), l.cut);
    FillsPermits(s, w, l.input, x, report);
    CrashSound(s, w, l.input, l.cut);
    ClosedQuiet(s, w, l.input, x, report, l.cut);
    QuiescentRevival(s, c, l.revival, w');
    CrashedBook(s, w, l.input, x, report, l.cut);
    if l.cut >= |Opening(s, w, l.input, x)| + 7 {
      AppliedThenSame(w, c, w', x, report);
    }
  }

  lemma DiedEarly(s: Settings, w: World, l: Life, w': World, x: Intent)
    requires Steady(s, w) && l.Died? && Leads(s, w, l, w') && Permits(s, w, l.input, x)
    requires forall report | Fills(s, w, l.input, x, report) :: l.cut <= |Opening(s, w, l.input, x)| + 5
    ensures SameBook(w, w') || exists report :: FilledOnce(s, w, l, w', x, report)
  {
    var c := After(w, ProcessEffects(s, w, l.input), l.cut);
    CrashSound(s, w, l.input, l.cut);
    BookBefore(s, w, l.input, x, l.cut);
    PermittedCandidate(s, w, l.input, x, l.cut);
    RevivalOutcome(s, c, l.revival, x, w');
    if i: nat, report :| AppliedBy(s, c, l.revival, x, w', i, report) {
      SameThenApplied(w, c, w', x, report);
      assert FilledOnce(s, w, l, w', x, report);
    }
  }

  // Until the position is written, the book is as before.
  lemma BookBefore(s: Settings, w: World, input: Input, x: Intent, k: nat)
    requires Sound(s, w) && Permits(s, w, input, x) && k <= |ProcessEffects(s, w, input)|
    requires forall report | Fills(s, w, input, x, report) :: k <= |Opening(s, w, input, x)| + 5
    ensures SameBook(w, After(w, ProcessEffects(s, w, input), k))
  {
    if Exhausted(s, w, input) {
      ExhaustedAbout(s, w, input, x);
      OpeningKeepsBook(s, w, input, x, k);
    } else {
      var report := ExecuteResult(s, x, input.adapter, AttemptsOf(w, x.id)).value;
      assert Fills(s, w, input, x, report);
      FilledBookBefore(s, w, input, x, report, k);
    }
  }

  // A life that recovers nothing of earlier batches changes the book by one fill of a permitted order or not at all,
  // except at the torn point, which leaves the position of the fill without its portfolio.
  lemma LifeOutcome(s: Settings, w: World, l: Life, w': World)
    requires Sound(s, w) && Leads(s, w, l, w') && ClearStart(s, w, l)
    ensures SameBook(w, w') || (exists x, report :: FilledOnce(s, w, l, w', x, report))
      || (exists x, report :: HalfFilled(s, w, l, w', x, report))
  {
    match l {
      case Restart(revival) => QuiescentRevival(s, w, revival, w');
      case Died(_, _, _) => DiedOutcome(s, w, l, w');
      case Raised(_, _) => RaisedOutcome(s, w, l, w');
      case Ran(input) => RanOutcome(s, w, input, w');
    }
  }

  lemma WholeLifeOutcome(s: Settings, w: World, l: Life, w': World)
    requires Sound(s, w) && Leads(s, w, l, w') && ClearStart(s, w, l) && !Torn(s, w, l)
    ensures SameBook(w, w') || exists x, report :: FilledOnce(s, w, l, w', x, report)
  {
    LifeOutcome(s, w, l, w');
    forall x, report
      ensures !HalfFilled(s, w, l, w', x, report)
    {
      assert !TornBy(s, w, l, x, report);
    }
  }

  // Any life keeps the order life cycle, and one that recovers leaves nothing to recover.
  lemma LifeSound(s: Settings, w: World, l: Life, w': World)
    requires Sound(s, w) && Leads(s, w, l, w')
    ensures Sound(s, w')
    ensures l.Died? || l.Restart? ==> Quiescent(s, w')
  {
    match l {
      case Restart(revival) => RevivalQuiesces(s, w, revival, w');
      case Died(input, cut, revival) =>
        CrashSound(s, w, input, cut);
        RevivalQuiesces(s, After(w, ProcessEffects(s, w, input), cut), revival, w');
      case Raised(input, cut) => CrashSound(s, w, input, cut);
      case Ran(input) => CrashSound(s, w, input, |ProcessEffects(s, w, input)|);
    }
  }

  // From a state with nothing to recover, a life ends in another one if and only if it does not leave a live order.
  lemma LifeSteadyExactly(s: Settings, w: World, l: Life, w': World)
    requires Steady(s, w) && Leads(s, w, l, w')
    ensures Steady(s, w') <==> !Leaves(s, w, l)
  {
    LifeSound(s, w, l, w');
    match l {
      case Raised(input, cut) => QuiescentExactly(s, w, input, cut);
      case Ran(input) =>
        CompletedLeavesNothing(s, w, input);
        QuiescentExactly(s, w, input, |ProcessEffects(s, w, input)|);
      case _ =>
    }
  }

  // --- runs --------------------------------------------------------------------------------------

  ghost predicate LifeRun(s: Settings, states: seq<World>, lives: seq<Life>) {
    && |states| == |lives| + 1
    && forall k | 0 <= k < |lives| :: Leads(s, states[k], lives[k], states[k + 1])
  }

  // No recovery of the run starts with an order that an earlier batch has left live.
  ghost predicate ClearRun(s: Settings, states: seq<World>, lives: seq<Life>) {
    LifeRun(s, states, lives) && forall k | 0 <= k < |lives| :: ClearStart(s, states[k], lives[k])
  }

  // A database without orders and positions, and a portfolio that holds nothing yet.
  ghost predicate Fresh(w: World) {
    && w.orders == map[] && w.reports == [] && w.dispatches == [] && w.positions == map[]
    && var p := PortfolioOf(w);
       p.totalUsd > 0.0 && p.tokenExposure == 0.0 && p.chainExposure == 0.0 && p.openPositions == 0
  }

  lemma FreshSteady(s: Settings, w: World)
    requires Fresh(w)
    ensures Steady(s, w)
  {
  }

  lemma {:induction false} LivesSound(s: Settings, states: seq<World>, lives: seq<Life>, k: nat)
    requires LifeRun(s, states, lives) && Fresh(states[0]) && k < |states|
    ensures Sound(s, states[k])
    decreases k
  {
    if k == 0 {
      FreshSteady(s, states[0]);
    } else {
      LivesSound(s, states, lives, k - 1);
      SoundAdvances(s, states, lives, k - 1);
    }
  }

  lemma SoundAdvances(s: Settings, states: seq<World>, lives: seq<Life>, k: nat)
    requires LifeRun(s, states, lives) && k < |lives| && Sound(s, states[k])
    ensures Sound(s, states[k + 1])
  {
    LifeSound(s, states[k], lives[k], states[k + 1]);
  }

  lemma {:induction false} RunSteady(s: Settings, states: seq<World>, lives: seq<Life>, k: nat)
    requires LifeRun(s, states, lives) && Fresh(states[0]) && k < |states|
    requires forall i | 0 <= i < |lives| :: !Leaves(s, states[i], lives[i])
    ensures Steady(s, states[k])
    decreases k
  {
    if k == 0 {
      FreshSteady(s, states[0]);
    } else {
      RunSteady(s, states, lives, k - 1);
      SteadyAdvances(s, states, lives, k - 1);
    }
  }

  // A run in which no batch leaves a live order is clear, whatever dies or raises in it.
  lemma NothingLeftClear(s: Settings, states: seq<World>, lives: seq<Life>)
    requires LifeRun(s, states, lives) && Fresh(states[0])
    requires forall i | 0 <= i < |lives| :: !Leaves(s, states[i], lives[i])
    ensures ClearRun(s, states, lives)
  {
    forall k | 0 <= k < |lives|
      ensures ClearStart(s, states[k], lives[k])
    {
      RunSteady(s, states, lives, k);
    }
  }

  lemma SteadyAdvances(s: Settings, states: seq<World>, lives: seq<Life>, k: nat)
    requires LifeRun(s, states, lives) && k < |lives| && Steady(s, states[k]) && !Leaves(s, states[k], lives[k])
    ensures Steady(s, states[k + 1])
  {
    LifeSteadyExactly(s, states[k], lives[k], states[k + 1]);
  }
}
