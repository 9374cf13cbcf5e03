// Recoveries that die while several orders are left to them: in the end each of these has been applied at most once,
// and those that were left FILLED exactly once.
module Repayments {
  import opened Schemas
  import opened World
  import opened Pipeline
  import opened OrderLifecycle
  import opened Books
  import opened CrashRecovery
  import opened CrashWindows
  import opened Lingering
  import opened Lives
  import opened Backlogs

  // --- dying in one row --------------------------------------------------------------------------

  lemma QuietHolds(v: World, d: World, f: Fill)
    requires Quiet(v, d) && Holds(v, f)
    ensures Holds(d, f)
  {
  }

  // An order that is owed, after j effects of its row, the last of which was not on the book: untouched, or applied
  // and closed.
  lemma RowMidway(s: Settings, v: World, r: Recoverable, env: Env, f: Fill, j: nat)
    requires Sound(s, v) && IsRow(v, r) && Holds(v, f) && f.intent == r.intent
    requires j <= |RecoverOne(s, v, r, env)| && (j == 0 || !TouchesBook(RecoverOne(s, v, r, env)[j - 1]))
    ensures var d, report := After(v, RecoverOne(s, v, r, env), j), LatestReport(v.reports, r.intent.id).value;
      if j <= 2 then SameBook(v, d) && Holds(d, f)
      else AppliedOnce(v, d, r.intent, report) && StatusOf(d, r.intent.id) == Some(RECONCILED)
  {
    var report, notice := LatestReport(v.reports, r.intent.id).value, [Notice(r, env)];
    var v1 := ApplyAll(v, notice);
    assert Resuming(s, v, r, env) == notice && Finishing(s, v, r, env) == RecoveryClosing(v, r, report, env);
    RowParts(s, v, r, env, j);
    QuietNotice(v, r, env);
    QuietHolds(v, v1, f);
    ApplyAllOne(v, Notice(r, env));
    if j == 0 {
      assert After(v, notice, 0) == v;
    } else if j > 1 {
      FinishingRow(s, v, v1, r, report, env, j - 1);
    }
  }

  // --- the rows before and after -----------------------------------------------------------------

  // What the rows from the i-th to before the n-th have to apply.
  function RestFills(
    s: Settings, c: World, rows: seq<Recoverable>, env: IntentId -> Env, i: nat, n: nat): seq<Fill>
    requires i <= n <= |rows|
    decreases n
  {
    if i == n then []
    else
      RestFills(s, c, rows, env, i, n - 1)
      + match FillOfRow(s, c, rows[n - 1], env) case Some(f) => [f] case None => []
  }

  lemma {:induction false} FillsSplit(
    s: Settings, c: World, rows: seq<Recoverable>, env: IntentId -> Env, i: nat, n: nat)
    requires i <= n <= |rows|
    ensures RowFills(s, c, rows, env, n) == RowFills(s, c, rows, env, i) + RestFills(s, c, rows, env, i, n)
    decreases n
  {
    if i < n {
      FillsSplit(s, c, rows, env, i, n - 1);
    }
  }

  lemma {:induction false} RestFrom(
    s: Settings, c: World, rows: seq<Recoverable>, env: IntentId -> Env, i: nat, n: nat, f: Fill)
    requires i <= n <= |rows|
    ensures f in RestFills(s, c, rows, env, i, n)
      <==> exists m | i <= m < n :: FillOfRow(s, c, rows[m], env) == Some(f)
    decreases n
  {
    if i < n {
      RestFrom(s, c, rows, env, i, n - 1, f);
    }
  }

  // A row that recovery is done with leaves nothing live.
  lemma PastRow(s: Settings, c: World, rows: seq<Recoverable>, env: IntentId -> Env, i: nat, m: nat)
    requires Sound(s, c) && Enumerates(c, rows) && m < i <= |rows|
    ensures !Live(s, RecoverState(s, c, rows[..i], env), rows[m].intent.id)
  {
    var id, v := rows[m].intent.id, RecoverState(s, c, rows[..m], env);
    AtRow(s, c, rows, env, m);
    RecoverOneOutcome(s, v, rows[m], env(id));
    RecoverNext(s, c, rows, env, m);
    Apart(s, c, rows, env, m + 1, i, id);
    SameLive(s, RecoverState(s, c, rows[..m + 1], env), RecoverState(s, c, rows[..i], env), id);
  }

  // --- dying in a recovery -----------------------------------------------------------------------

  // Recovery is in row i, in state d; e rows are applied, which are i or i + 1 of them.
  ghost predicate Midway(
    s: Settings, c: World, rows: seq<Recoverable>, env: IntentId -> Env, i: nat, e: nat, d: World)
  {
    && i < |rows| && (e == i || e == i + 1) && Sound(s, d)
    && (forall id: IntentId | id != rows[i].intent.id :: SameOrder(RecoverState(s, c, rows[..i], env), d, id))
    && match if e == i then FillOfRow(s, c, rows[i], env) else None
       case Some(f) => Holds(d, f)
       case None => !Live(s, d, rows[i].intent.id)
  }

  lemma HoldsMoves(w: World, v: World, f: Fill)
    requires SameOrder(w, v, f.intent.id) && Holds(w, f)
    ensures Holds(v, f)
  {
    RecoverableMoves(w, v, f.intent.id);
  }

  // An order whose row is still to come, or that has none, is as it was.
  lemma NotYetReached(
    s: Settings, c: World, rows: seq<Recoverable>, env: IntentId -> Env, i: nat, e: nat, d: World, id: IntentId)
    requires Midway(s, c, rows, env, i, e, d) && forall m | 0 <= m <= i :: rows[m].intent.id != id
    ensures SameOrder(c, d, id)
  {
    RowUntouched(s, c, rows, env, i, id);
    SameOrderTransitive(c, RecoverState(s, c, rows[..i], env), d, id);
  }

  lemma RestHolds(
    s: Settings, c: World, owed: seq<Fill>, rows: seq<Recoverable>, env: IntentId -> Env, i: nat, e: nat, d: World,
    f: Fill)
    requires Owes(s, c, owed) && Enumerates(c, rows) && Midway(s, c, rows, env, i, e, d)
    requires f in RestFills(s, c, rows, env, e, |rows|)
    ensures Holds(d, f)
  {
    RestFrom(s, c, rows, env, e, |rows|, f);
    var m :| e <= m < |rows| && FillOfRow(s, c, rows[m], env) == Some(f);
    if m != i {
      RowOwed(s, c, owed, rows, env, m);
      NotYetReached(s, c, rows, env, i, e, d, f.intent.id);
      HoldsMoves(c, d, f);
    }
  }

  lemma StillLiveRow(
    s: Settings, c: World, owed: seq<Fill>, rows: seq<Recoverable>, env: IntentId -> Env, i: nat, e: nat, d: World,
    id: IntentId) returns (m: nat)
    requires Owes(s, c, owed) && Enumerates(c, rows) && Midway(s, c, rows, env, i, e, d) && Live(s, d, id)
    ensures e <= m < |rows| && rows[m].intent.id == id
    ensures m != i ==> Live(s, c, id)
  {
    if m': nat :| m' < |rows| && rows[m'].intent.id == id {
      m := m';
      if m < i {
        PastRow(s, c, rows, env, i, m);
        SameLive(s, RecoverState(s, c, rows[..i], env), d, id);
      } else if m > i {
        NotYetReached(s, c, rows, env, i, e, d, id);
        SameLive(s, c, d, id);
      }
    } else {
      NotYetReached(s, c, rows, env, i, e, d, id);
      SameLive(s, c, d, id);
      assert false;
    }
  }

  lemma RestLive(
    s: Settings, c: World, owed: seq<Fill>, rows: seq<Recoverable>, env: IntentId -> Env, i: nat, e: nat, d: World,
    id: IntentId)
    requires Owes(s, c, owed) && Enumerates(c, rows) && Midway(s, c, rows, env, i, e, d) && Live(s, d, id)
    ensures OwedAt(RestFills(s, c, rows, env, e, |rows|), id)
  {
    var m := StillLiveRow(s, c, owed, rows, env, i, e, d, id);
    if m != i {
      var f :| f in owed && f.intent.id == id;
      assert IsRow(c, rows[m]) && Holds(c, f);
      assert FillOfRow(s, c, rows[m], env) == Some(f);
    }
    var f := FillOfRow(s, c, rows[m], env).value;
    RestFrom(s, c, rows, env, e, |rows|, f);
    assert f in RestFills(s, c, rows, env, e, |rows|);
  }

  // What is owed then is what the rows still have to apply.
  lemma RestOwed(
    s: Settings, c: World, owed: seq<Fill>, rows: seq<Recoverable>, env: IntentId -> Env, i: nat, e: nat, d: World)
    requires Owes(s, c, owed) && Enumerates(c, rows) && Midway(s, c, rows, env, i, e, d)
    ensures Owes(s, d, RestFills(s, c, rows, env, e, |rows|))
  {
    var rest := RestFills(s, c, rows, env, e, |rows|);
    RowFillsDistinct(s, c, rows, env, |rows|);
    FillsSplit(s, c, rows, env, e, |rows|);
    forall f | f in rest
      ensures Holds(d, f)
    {
      RestHolds(s, c, owed, rows, env, i, e, d, f);
    }
    forall id: IntentId | Live(s, d, id)
      ensures OwedAt(rest, id)
    {
      RestLive(s, c, owed, rows, env, i, e, d, id);
    }
    DistinctRest(RowFills(s, c, rows, env, e), rest);
  }

  lemma DistinctRest(a: seq<Fill>, b: seq<Fill>)
    requires DistinctIds(a + b)
    ensures DistinctIds(b)
  {
    assert (a + b)[|a|..] == b;
  }

  lemma NothingInRow(
    s: Settings, c: World, rows: seq<Recoverable>, env: IntentId -> Env, i: nat, j: nat, d: World)
    requires Sound(s, c) && Enumerates(c, rows) && i < |rows| && Inert(s, c, rows[i].intent.id)
    requires var v, es := RecoverState(s, c, rows[..i], env), RowEffects(s, c, rows, env, i);
      j <= |es| && d == After(v, es, j)
    ensures SameBook(RecoverState(s, c, rows[..i], env), d) && !Live(s, d, rows[i].intent.id)
  {
    var v, id := RecoverState(s, c, rows[..i], env), rows[i].intent.id;
    AtRow(s, c, rows, env, i);
    InertMoves(s, c, v, id);
    InertOnlyNoticed(s, v, rows[i], env(id));
    QuietNotice(v, rows[i], env(id));
    assert After(v, RowEffects(s, c, rows, env, i), 0) == v;
    assert Inert(s, d, id);
  }

  lemma OwedInRow(
    s: Settings, c: World, rows: seq<Recoverable>, env: IntentId -> Env, i: nat, f: Fill, j: nat, d: World)
    requires Sound(s, c) && Enumerates(c, rows) && i < |rows| && Holds(c, f) && f.intent.id == rows[i].intent.id
    requires var v, es := RecoverState(s, c, rows[..i], env), RowEffects(s, c, rows, env, i);
      j <= |es| && d == After(v, es, j) && (j == 0 || !TouchesBook(es[j - 1]))
    ensures var fills := RowFills(s, c, rows, env, i);
      if j <= 2 then AppliedAll(c, d, fills) && Holds(d, f)
      else AppliedAll(c, d, fills + [f]) && !Live(s, d, f.intent.id)
  {
    var v, x := RecoverState(s, c, rows[..i], env), f.intent;
    assert IsRow(c, rows[i]);
    AtRow(s, c, rows, env, i);
    HoldsMoves(c, v, f);
    FoldsTo(s, c, rows, env, i);
    RowMidway(s, v, rows[i], env(x.id), f, j);
    if j <= 2 {
      AppliedSame(c, v, d, RowFills(s, c, rows, env, i));
    } else {
      AppliedNext(c, v, d, RowFills(s, c, rows, env, i), x, LatestReport(v.reports, x.id).value);
    }
  }

  // A recovery of these orders that dies, but not right after writing a position or the portfolio: the first e rows are
  // applied, and the rest is owed still.
  lemma OwesDeath(s: Settings, c: World, owed: seq<Fill>, d: Death) returns (e: nat)
    requires Owes(s, c, owed) && DiesCleanly(s, c, d)
    ensures e <= |d.rows|
    ensures AppliedAll(c, Fallen(s, c, d), RowFills(s, c, d.rows, d.env, e))
    ensures Owes(s, Fallen(s, c, d), RestFills(s, c, d.rows, d.env, e, |d.rows|))
  {
    var i, j := DeathPoint(s, c, d.rows, d.env, d.cut);
    DeathSound(s, c, d);
    if i == |d.rows| {
      e := i;
      RecoveryFolds(s, c, d.rows, d.env);
      RecoveryQuiesces(s, c, d.rows, d.env);
      SteadyOwesNothing(s, Fallen(s, c, d));
    } else {
      DeadInRow(s, c, d, i, j);
      DeadAfter(s, c, d, i, j, d.rows[i].intent.id);
      e := DeathInRow(s, c, owed, d.rows, d.env, i, j, Fallen(s, c, d));
      RestOwed(s, c, owed, d.rows, d.env, i, e, Fallen(s, c, d));
    }
  }

  lemma DeathInRow(
    s: Settings, c: World, owed: seq<Fill>, rows: seq<Recoverable>, env: IntentId -> Env, i: nat, j: nat, d: World)
    returns (e: nat)
    requires Owes(s, c, owed) && Enumerates(c, rows) && i < |rows| && Sound(s, d)
    requires var v, es := RecoverState(s, c, rows[..i], env), RowEffects(s, c, rows, env, i);
      j <= |es| && d == After(v, es, j) && (j == 0 || !TouchesBook(es[j - 1]))
    ensures Midway(s, c, rows, env, i, e, d) && AppliedAll(c, d, RowFills(s, c, rows, env, e))
  {
    var v, id := RecoverState(s, c, rows[..i], env), rows[i].intent.id;
    RecoverAboutOnly(s, v, rows[i], env(id));
    forall other: IntentId | other != id
      ensures SameOrder(v, d, other)
    {
      SameRun(v, RowEffects(s, c, rows, env, i), j, other);
    }
    match FillOfRow(s, c, rows[i], env) {
      case None =>
        e := i;
        RowInert(s, c, owed, rows, env, i);
        NothingInRow(s, c, rows, env, i, j, d);
        FoldsTo(s, c, rows, env, i);
        AppliedSame(c, v, d, RowFills(s, c, rows, env, i));
      case Some(f) =>
        e := if j <= 2 then i else i + 1;
        RowOwed(s, c, owed, rows, env, i);
        OwedInRow(s, c, rows, env, i, f, j, d);
    }
  }

  // A row without a fill is of an order that recovery cannot act on.
  lemma RowInert(s: Settings, c: World, owed: seq<Fill>, rows: seq<Recoverable>, env: IntentId -> Env, i: nat)
    requires Owes(s, c, owed) && Enumerates(c, rows) && i < |rows| && FillOfRow(s, c, rows[i], env) == None
    ensures Inert(s, c, rows[i].intent.id)
  {
    assert IsRow(c, rows[i]);
    assert !Live(s, c, rows[i].intent.id);
  }

  // --- any number of recoveries that die ---------------------------------------------------------

  lemma {:induction false} AppliedConcat(w: World, v: World, a: seq<Fill>, b: seq<Fill>, t: Token)
    requires AppliedAll(w, v, a)
    ensures BookAfter(w, a + b, t) == BookAfter(v, b, t)
    decreases |b|
  {
    if b == [] {
      assert a + b == a;
      assert BookOf(v, t) == BookAfter(w, a, t);
    } else {
      AppliedConcat(w, v, a, b[..|b| - 1], t);
      assert (a + b)[..|a + b| - 1] == a + b[..|b| - 1];
    }
  }

  lemma AppliedThen(w: World, v: World, v': World, a: seq<Fill>, b: seq<Fill>)
    requires AppliedAll(w, v, a) && AppliedAll(v, v', b)
    ensures AppliedAll(w, v', a + b)
  {
    forall t: Token
      ensures BookOf(v', t) == BookAfter(w, a + b, t)
    {
      AppliedConcat(w, v, a, b, t);
      assert BookOf(v', t) == BookAfter(v, b, t);
    }
  }

  // What was owed is applied in part, each fill once, and the rest is owed still.
  ghost predicate PaidInPart(s: Settings, c: World, owed: seq<Fill>, d: World, paid: seq<Fill>, rest: seq<Fill>) {
    multiset(paid) + multiset(rest) == multiset(owed) && AppliedAll(c, d, paid) && Owes(s, d, rest)
  }

  lemma {:induction false} PaidAfter(s: Settings, c: World, owed: seq<Fill>, r: Revival, n: nat)
    returns (paid: seq<Fill>, rest: seq<Fill>)
    requires Owes(s, c, owed) && AllClean(s, c, r) && n <= |r.deaths|
    ensures PaidInPart(s, c, owed, r.falls[n], paid, rest)
    decreases n
  {
    if n == 0 {
      paid, rest := [], owed;
    } else {
      var before, left := PaidAfter(s, c, owed, r, n - 1);
      var more, rest' := PaidNext(s, r.falls[n - 1], left, r.deaths[n - 1]);
      AppliedThen(c, r.falls[n - 1], r.falls[n], before, more);
      paid, rest := before + more, rest';
    }
  }

  lemma PaidNext(s: Settings, c: World, owed: seq<Fill>, d: Death) returns (paid: seq<Fill>, rest: seq<Fill>)
    requires Owes(s, c, owed) && DiesCleanly(s, c, d)
    ensures PaidInPart(s, c, owed, Fallen(s, c, d), paid, rest)
  {
    var e := OwesDeath(s, c, owed, d);
    paid, rest := RowFills(s, c, d.rows, d.env, e), RestFills(s, c, d.rows, d.env, e, |d.rows|);
    FillsSplit(s, c, d.rows, d.env, e, |d.rows|);
    RowsAreOwed(s, c, owed, d.rows, d.env);
  }

  // Exactly these fills are applied, each once, in some order.
  ghost predicate Repaid(c: World, w': World, owed: seq<Fill>) {
    exists fills: seq<Fill> :: multiset(fills) == multiset(owed) && AppliedAll(c, w', fills)
  }

  // However often recovery dies on the way, in the end every order that was left FILLED is applied once.
  lemma BacklogRevived(s: Settings, c: World, owed: seq<Fill>, r: Revival, w': World)
    requires Owes(s, c, owed) && Revives(s, c, r, w')
    ensures Steady(s, w') && Repaid(c, w', owed)
  {
    var n := |r.deaths|;
    var paid, rest := PaidAfter(s, c, owed, r, n);
    var d := r.falls[n];
    var last := RowFills(s, d, r.rows, r.env, |r.rows|);
    RevivalQuiesces(s, c, r, w');
    RowsAreOwed(s, d, rest, r.rows, r.env);
    RecoveryFolds(s, d, r.rows, r.env);
    AppliedThen(c, d, w', paid, last);
    assert multiset(paid + last) == multiset(owed);
  }

  // The recovery at the end of a stretch, however often it dies, applies exactly the fills that the batches have left,
  // each once, to the book that the other batches have made meanwhile.
  lemma BacklogRecovered(s: Settings, states: seq<World>, lives: seq<Life>, r: Revival, w': World)
    requires Stretch(s, states, lives) && Revives(s, states[|lives|], r, w')
    ensures Steady(s, w') && Repaid(states[|lives|], w', Backlog(s, states, lives, |lives|))
  {
    BacklogOwed(s, states, lives, |lives|);
    BacklogRevived(s, states[|lives|], Backlog(s, states, lives, |lives|), r, w');
  }

  // --- any orders --------------------------------------------------------------------------------

  // Applied by a recovery, and closed for good.
  ghost predicate Settled(w: World, id: IntentId) {
    id in w.orders && (w.orders[id].status == RECONCILED || HasStatus(w.ledger, id, RECONCILED))
  }

  lemma SettledMoves(w: World, v: World, id: IntentId)
    requires SameOrder(w, v, id) && Settled(w, id)
    ensures Settled(v, id)
  {
  }

  // An order without a row is not concerned, wherever recovery dies.
  lemma NoRowNoChange(s: Settings, c: World, d: Death, id: IntentId)
    requires DiesCleanly(s, c, d) && forall m | 0 <= m < |d.rows| :: d.rows[m].intent.id != id
    ensures SameOrder(c, Fallen(s, c, d), id)
  {
    var i, j := DeathPoint(s, c, d.rows, d.env, d.cut);
    RowUntouched(s, c, d.rows, d.env, i, id);
    if i == |d.rows| {
      RecoverWhole(s, c, d.rows, d.env);
    } else {
      DeadInRow(s, c, d, i, j);
      OtherInRow(s, c, d.rows, d.env, i, j, id);
      SameOrderTransitive(c, RecoverState(s, c, d.rows[..i], d.env), Fallen(s, c, d), id);
    }
  }

  lemma OtherInRow(
    s: Settings, c: World, rows: seq<Recoverable>, env: IntentId -> Env, i: nat, j: nat, id: IntentId)
    requires i < |rows| && rows[i].intent.id != id && j <= |RowEffects(s, c, rows, env, i)|
    ensures var v := RecoverState(s, c, rows[..i], env);
      SameOrder(v, After(v, RowEffects(s, c, rows, env, i), j), id)
  {
    var v := RecoverState(s, c, rows[..i], env);
    RecoverAboutOnly(s, v, rows[i], env(rows[i].intent.id));
    SameRun(v, RowEffects(s, c, rows, env, i), j, id);
  }

  lemma SameAnswer(s: Settings, c: World, v: World, r: Recoverable, env: Env)
    requires IsRow(c, r) && SameOrder(c, v, r.intent.id)
    ensures RecoveredReport(s, v, r, env) == Answer(s, c, r.intent, env.adapter)
  {
  }

  lemma RowSettled(s: Settings, c: World, rows: seq<Recoverable>, env: IntentId -> Env, i: nat, m: nat)
    requires Sound(s, c) && Enumerates(c, rows) && m < i <= |rows| && FillOfRow(s, c, rows[m], env).Some?
    ensures Settled(RecoverState(s, c, rows[..i], env), rows[m].intent.id)
  {
    var id, v, v' := rows[m].intent.id, RecoverState(s, c, rows[..m], env), RecoverState(s, c, rows[..m + 1], env);
    AtRow(s, c, rows, env, m);
    assert IsRow(c, rows[m]);
    SameAnswer(s, c, v, rows[m], env(id));
    RecoverOneOutcome(s, v, rows[m], env(id));
    RecoverNext(s, c, rows, env, m);
    KeepsRow(s, v, rows[m], env(id));
    Apart(s, c, rows, env, m + 1, i, id);
    SettledMoves(v', RecoverState(s, c, rows[..i], env), id);
  }

  lemma KeepsRow(s: Settings, v: World, r: Recoverable, env: Env)
    requires Sound(s, v) && IsRow(v, r)
    ensures r.intent.id in ApplyAll(v, RecoverOne(s, v, r, env)).orders
  {
    RecoverOneLegal(s, v, r, env);
    LegalRun(s, v, RecoverOne(s, v, r, env), |RecoverOne(s, v, r, env)|);
    assert OrderProgress(v, ApplyAll(v, RecoverOne(s, v, r, env)), r.intent.id);
  }

  // Any row, after j of its effects, the last of which was not on the book.
  lemma AnyMidway(s: Settings, v: World, r: Recoverable, env: Env, j: nat)
    requires Sound(s, v) && IsRow(v, r)
    requires j <= |RecoverOne(s, v, r, env)| && (j == 0 || !TouchesBook(RecoverOne(s, v, r, env)[j - 1]))
    ensures var d, report := After(v, RecoverOne(s, v, r, env), j), RecoveredReport(s, v, r, env);
      || SameBook(v, d)
      || (report.Some? && AppliedOnce(v, d, r.intent, report.value) && Settled(d, r.intent.id))
  {
    var first := Resuming(s, v, r, env);
    RowParts(s, v, r, env, j);
    if j <= |first| {
      ResumingBook(s, v, r, env, j);
    } else {
      ResumingRow(s, v, r, env, |first|);
      ResumeKeepsBook(s, v, r, env);
      FinishingRow(s, v, ApplyAll(v, first), r, RecoveredReport(s, v, r, env).value, env, j - |first|);
    }
  }

  ghost predicate SettledRows(
    s: Settings, c: World, rows: seq<Recoverable>, env: IntentId -> Env, e: nat, d: World)
    requires e <= |rows|
  {
    forall m | 0 <= m < e && FillOfRow(s, c, rows[m], env).Some? :: Settled(d, rows[m].intent.id)
  }

  // What a recovery that dies has applied: the fills of its first e rows, each of which is settled.
  ghost predicate PaidRows(s: Settings, c: World, rows: seq<Recoverable>, env: IntentId -> Env, e: nat, d: World) {
    e <= |rows| && AppliedAll(c, d, RowFills(s, c, rows, env, e)) && SettledRows(s, c, rows, env, e, d)
  }

  lemma WholeRows(s: Settings, c: World, rows: seq<Recoverable>, env: IntentId -> Env, i: nat)
    requires Sound(s, c) && Enumerates(c, rows) && i <= |rows|
    ensures PaidRows(s, c, rows, env, i, RecoverState(s, c, rows[..i], env))
  {
    FoldsTo(s, c, rows, env, i);
    forall m | 0 <= m < i && FillOfRow(s, c, rows[m], env).Some?
      ensures Settled(RecoverState(s, c, rows[..i], env), rows[m].intent.id)
    {
      RowSettled(s, c, rows, env, i, m);
    }
  }

  lemma AnyDeath(s: Settings, c: World, d: Death) returns (e: nat)
    requires Sound(s, c) && DiesCleanly(s, c, d)
    ensures PaidRows(s, c, d.rows, d.env, e, Fallen(s, c, d))
  {
    var i, j := DeathPoint(s, c, d.rows, d.env, d.cut);
    WholeRows(s, c, d.rows, d.env, i);
    if i == |d.rows| {
      e := i;
      RecoverWhole(s, c, d.rows, d.env);
    } else {
      DeadInRow(s, c, d, i, j);
      DeadAfter(s, c, d, i, j, d.rows[i].intent.id);
      e := PaidInRow(s, c, d.rows, d.env, i, j, Fallen(s, c, d));
    }
  }

  lemma PaidInRow(
    s: Settings, c: World, rows: seq<Recoverable>, env: IntentId -> Env, i: nat, j: nat, d: World) returns (e: nat)
    requires Sound(s, c) && Enumerates(c, rows) && i < |rows|
    requires PaidRows(s, c, rows, env, i, RecoverState(s, c, rows[..i], env))
    requires var v, es := RecoverState(s, c, rows[..i], env), RowEffects(s, c, rows, env, i);
      j <= |es| && d == After(v, es, j) && (j == 0 || !TouchesBook(es[j - 1]))
    ensures PaidRows(s, c, rows, env, e, d)
  {
    e := BookInRow(s, c, rows, env, i, j, d);
    EarlierSettled(s, c, rows, env, i, j, d);
  }

  lemma EarlierSettled(
    s: Settings, c: World, rows: seq<Recoverable>, env: IntentId -> Env, i: nat, j: nat, d: World)
    requires Enumerates(c, rows) && i < |rows|
    requires SettledRows(s, c, rows, env, i, RecoverState(s, c, rows[..i], env))
    requires var v, es := RecoverState(s, c, rows[..i], env), RowEffects(s, c, rows, env, i);
      j <= |es| && d == After(v, es, j)
    ensures SettledRows(s, c, rows, env, i, d)
  {
    forall m | 0 <= m < i && FillOfRow(s, c, rows[m], env).Some?
      ensures Settled(d, rows[m].intent.id)
    {
      OtherInRow(s, c, rows, env, i, j, rows[m].intent.id);
      SettledMoves(RecoverState(s, c, rows[..i], env), d, rows[m].intent.id);
    }
  }

  lemma BookInRow(
    s: Settings, c: World, rows: seq<Recoverable>, env: IntentId -> Env, i: nat, j: nat, d: World) returns (e: nat)
    requires Sound(s, c) && Enumerates(c, rows) && i < |rows|
    requires AppliedAll(c, RecoverState(s, c, rows[..i], env), RowFills(s, c, rows, env, i))
    requires var v, es := RecoverState(s, c, rows[..i], env), RowEffects(s, c, rows, env, i);
      j <= |es| && d == After(v, es, j) && (j == 0 || !TouchesBook(es[j - 1]))
    ensures e == i || e == i + 1
    ensures AppliedAll(c, d, RowFills(s, c, rows, env, e))
    ensures e == i + 1 ==> Settled(d, rows[i].intent.id)
  {
    var v, r := RecoverState(s, c, rows[..i], env), rows[i];
    AtRow(s, c, rows, env, i);
    assert IsRow(c, r);
    AnyMidway(s, v, r, env(r.intent.id), j);
    if SameBook(v, d) {
      e := i;
      AppliedSame(c, v, d, RowFills(s, c, rows, env, i));
    } else {
      e := i + 1;
      SameAnswer(s, c, v, r, env(r.intent.id));
      AppliedNext(
        c, v, d, RowFills(s, c, rows, env, i), r.intent, RecoveredReport(s, v, r, env(r.intent.id)).value);
    }
  }

  // --- any number of deaths ----------------------------------------------------------------------

  // One of these recoveries had this to apply.
  ghost predicate AnsweredFill(s: Settings, r: Revival, f: Fill) {
    exists i: nat, report: Report :: Answered(s, r, f.intent, i, report) && FillFrom(f.intent, report) == f
  }

  // Each order at most once: what is applied is settled, and an answer of some recovery.
  ghost predicate PaidOnce(s: Settings, c: World, r: Revival, d: World, paid: seq<Fill>) {
    && Sound(s, d) && AppliedAll(c, d, paid) && DistinctIds(paid)
    && forall f | f in paid :: Settled(d, f.intent.id) && AnsweredFill(s, r, f)
  }

  lemma SettledNotListed(c: World, rows: seq<Recoverable>, id: IntentId)
    requires Enumerates(c, rows) && Settled(c, id)
    ensures forall m | 0 <= m < |rows| :: rows[m].intent.id != id
  {
    forall m | 0 <= m < |rows|
      ensures rows[m].intent.id != id
    {
      assert IsRow(c, rows[m]);
    }
  }

  lemma SettledHasNoRow(s: Settings, c: World, d: Death, id: IntentId)
    requires DiesCleanly(s, c, d) && Settled(c, id)
    ensures Settled(Fallen(s, c, d), id)
    ensures forall m | 0 <= m < |d.rows| :: d.rows[m].intent.id != id
  {
    SettledNotListed(c, d.rows, id);
    NoRowNoChange(s, c, d, id);
    SettledMoves(c, Fallen(s, c, d), id);
  }

  // The answers of one of these recoveries.
  lemma RowAnswered(s: Settings, r: Revival, n: nat, e: nat, f: Fill)
    requires n <= |r.deaths| && n < |r.falls| && e <= |r.RowsAt(n)|
    requires var env := if n < |r.deaths| then r.deaths[n].env else r.env;
      f in RowFills(s, r.falls[n], r.RowsAt(n), env, e)
    ensures AnsweredFill(s, r, f)
    ensures exists m | 0 <= m < e :: r.RowsAt(n)[m].intent.id == f.intent.id
  {
    var env := if n < |r.deaths| then r.deaths[n].env else r.env;
    RowFillsFrom(s, r.falls[n], r.RowsAt(n), env, e, f);
    var m :| 0 <= m < e && FillOfRow(s, r.falls[n], r.RowsAt(n)[m], env) == Some(f);
    var report := Answer(s, r.falls[n], f.intent, r.AdapterAt(n, f.intent.id)).value;
    assert Answered(s, r, f.intent, n, report);
  }

  lemma {:induction false} PaidOnceAfter(s: Settings, c: World, r: Revival, n: nat) returns (paid: seq<Fill>)
    requires Sound(s, c) && AllClean(s, c, r) && n <= |r.deaths|
    ensures PaidOnce(s, c, r, r.falls[n], paid)
    decreases n
  {
    if n == 0 {
      paid := [];
    } else {
      var before := PaidOnceAfter(s, c, r, n - 1);
      paid := PaidOnceNext(s, c, r, n - 1, before);
    }
  }

  lemma PaidOnceNext(s: Settings, c: World, r: Revival, n: nat, before: seq<Fill>) returns (paid: seq<Fill>)
    requires AllClean(s, c, r) && n < |r.deaths| && PaidOnce(s, c, r, r.falls[n], before)
    ensures PaidOnce(s, c, r, r.falls[n + 1], paid)
  {
    var v, death := r.falls[n], r.deaths[n];
    var d := Fallen(s, v, death);
    var e := AnyDeath(s, v, death);
    var more := RowFills(s, v, death.rows, death.env, e);
    DeathSound(s, v, death);
    AppliedThen(c, v, d, before, more);
    RowFillsDistinct(s, v, death.rows, death.env, e);
    forall f | f in before
      ensures Settled(d, f.intent.id) && forall m | 0 <= m < |death.rows| :: death.rows[m].intent.id != f.intent.id
    {
      SettledHasNoRow(s, v, death, f.intent.id);
    }
    forall f | f in more
      ensures AnsweredFill(s, r, f) && Settled(d, f.intent.id)
      ensures exists m | 0 <= m < |death.rows| :: death.rows[m].intent.id == f.intent.id
    {
      RowAnswered(s, r, n, e, f);
      FillSettled(s, v, death.rows, death.env, e, d, f);
    }
    DistinctConcat(before, more);
    paid := before + more;
  }

  lemma FillSettled(
    s: Settings, c: World, rows: seq<Recoverable>, env: IntentId -> Env, e: nat, d: World, f: Fill)
    requires e <= |rows| && SettledRows(s, c, rows, env, e, d) && f in RowFills(s, c, rows, env, e)
    ensures Settled(d, f.intent.id)
  {
    RowFillsFrom(s, c, rows, env, e, f);
    var m :| 0 <= m < e && FillOfRow(s, c, rows[m], env) == Some(f);
  }

  lemma DistinctConcat(a: seq<Fill>, b: seq<Fill>)
    requires DistinctIds(a) && DistinctIds(b)
    requires forall f, g | f in a && g in b :: f.intent.id != g.intent.id
    ensures DistinctIds(a + b)
  {
    forall i, j | 0 <= i < j < |a + b|
      ensures (a + b)[i].intent.id != (a + b)[j].intent.id
    {
      if i < |a| <= j {
        assert (a + b)[i] in a && (a + b)[j] in b;
      }
    }
  }

  ghost predicate OnceEach(s: Settings, c: World, r: Revival, w': World) {
    exists paid: seq<Fill> ::
      AppliedAll(c, w', paid) && DistinctIds(paid) && forall f | f in paid :: AnsweredFill(s, r, f)
  }

  // What the recovery that completes adds.
  lemma LastOnes(s: Settings, r: Revival, before: seq<Fill>, last: seq<Fill>)
    requires |r.falls| == |r.deaths| + 1 && Enumerates(r.falls[|r.deaths|], r.rows)
    requires last == RowFills(s, r.falls[|r.deaths|], r.rows, r.env, |r.rows|)
    requires DistinctIds(before) && forall f | f in before :: Settled(r.falls[|r.deaths|], f.intent.id)
    ensures DistinctIds(before + last) && forall f | f in last :: AnsweredFill(s, r, f)
  {
    var d := r.falls[|r.deaths|];
    RowFillsDistinct(s, d, r.rows, r.env, |r.rows|);
    forall f | f in last
      ensures AnsweredFill(s, r, f) && exists m | 0 <= m < |r.rows| :: r.rows[m].intent.id == f.intent.id
    {
      RowAnswered(s, r, |r.deaths|, |r.rows|, f);
    }
    forall f | f in before
      ensures forall m | 0 <= m < |r.rows| :: r.rows[m].intent.id != f.intent.id
    {
      SettledNotListed(d, r.rows, f.intent.id);
    }
    DistinctConcat(before, last);
  }

  // From any sound state, with any orders to act on, after any number of recoveries that die anywhere but right after
  // writing a position or the portfolio, the one that completes leaves nothing to recover, and together they have
  // applied at most one fill for each order, each an answer that one of them had for it, and nothing else.
  lemma AppliedAtMostOnce(s: Settings, c: World, r: Revival, w': World)
    requires Sound(s, c) && Revives(s, c, r, w')
    ensures Steady(s, w') && OnceEach(s, c, r, w')
  {
    var d := r.falls[|r.deaths|];
    var before := PaidOnceAfter(s, c, r, |r.deaths|);
    var last := RowFills(s, d, r.rows, r.env, |r.rows|);
    RevivalQuiesces(s, c, r, w');
    RecoveryFolds(s, d, r.rows, r.env);
    AppliedThen(c, d, w', before, last);
    LastOnes(s, r, before, last);
    Together(s, c, r, w', before, last);
  }

  lemma Together(s: Settings, c: World, r: Revival, w': World, before: seq<Fill>, last: seq<Fill>)
    requires AppliedAll(c, w', before + last) && DistinctIds(before + last)
    requires forall f | f in before :: AnsweredFill(s, r, f)
    requires forall f | f in last :: AnsweredFill(s, r, f)
    ensures OnceEach(s, c, r, w')
  {
    assert forall f | f in before + last :: AnsweredFill(s, r, f);
  }
}
