// Exposure over whole runs on the paper venues: its ceiling and its floor.
module BookRuns {
  import opened Schemas
  import opened World
  import opened Pipeline
  import opened OrderLifecycle
  import opened Books
  import opened CrashRecovery
  import opened CrashWindows
  import opened Lives
  import Reconciler
  import RiskEngine
  import Router
  import PaperExecutors

  // --- the venues --------------------------------------------------------------------------------

  // What a paper venue can report for an order of this size.
  ghost predicate PaperFill(x: Intent, sized: real, r: Report) {
    exists d: PaperExecutors.Draw ::
      && d.Valid()
      && r.executedUsd
           == PaperExecutors.Executed(PaperExecutors.PaperVenue(x.VenueType()), sized, x.maxSlippageBps, d)
  }

  ghost predicate PaperAdapter(adapter: nat -> Pipeline.Outcome, x: Intent, sized: real) {
    forall report | Reports(adapter, x, report) :: PaperFill(x, sized, report)
  }

  ghost function Sized(s: Settings, w: World, input: Input): real { Adjusted(s, PlanOf(s, w, input), input) }

  // Every adapter of a life is a paper venue: for the size that risk allowed, and for the stored size of each order
  // that a recovery lists.
  ghost predicate PaperBacked(s: Settings, w: World, l: Life) {
    && (!l.Restart? ==>
          forall x | Permits(s, w, l.input, x) :: PaperAdapter(l.input.adapter, x, Sized(s, w, l.input)))
    && (l.Died? ==> PaperRevival(l.revival))
  }

  ghost predicate PaperRevival(r: Revival) {
    forall i, row: Recoverable | 0 <= i <= |r.deaths| && row in r.RowsAt(i) ::
      PaperAdapter(r.AdapterAt(i, row.intent.id), row.intent, row.adjustedUsd)
  }

  // No process dies between marking an order FILLED and storing its report, unless it is the order's first.
  ghost predicate Remembers(s: Settings, w: World, l: Life) {
    l.Died? ==> forall x | Permits(s, w, l.input, x) ::
      LatestReport(w.reports, x.id) == None || NeverForgets(s, w, l, x)
  }

  ghost predicate NeverForgets(s: Settings, w: World, l: Life, x: Intent)
    requires l.Died?
  {
    && !Unstored(s, w, l.input, x, l.cut)
    && forall i | 0 <= i < |l.revival.deaths| && i < |l.revival.falls| ::
         !DiesMarked(s, l.revival.falls[i], l.revival.deaths[i], x)
  }

  // --- the report that is applied is a paper fill of the allowed size ----------------------------

  // If x is in play it has that size, and its latest report, where recovery may apply it, is a paper fill.
  ghost predicate Trusted(s: Settings, d: World, x: Intent, sized: real, first: bool) {
    InPlay(s, d, x) ==>
      && d.orders[x.id].adjustedUsd == sized
      && (LatestReport(d.reports, x.id).Some? && (first || StatusOf(d, x.id) == Some(FILLED)) ==>
            PaperFill(x, sized, LatestReport(d.reports, x.id).value))
  }

  lemma TrustedStart(s: Settings, w: World, l: Life, x: Intent)
    requires Steady(s, w) && l.Died? && l.cut <= |ProcessEffects(s, w, l.input)| && Permits(s, w, l.input, x)
    requires PaperBacked(s, w, l)
    requires LatestReport(w.reports, x.id) == None || !Unstored(s, w, l.input, x, l.cut)
    ensures Trusted(
      s, After(w, ProcessEffects(s, w, l.input), l.cut), x, Sized(s, w, l.input), LatestReport(w.reports, x.id) == None)
  {
    if l.cut == 0 {
      assert After(w, ProcessEffects(s, w, l.input), 0) == w;
    } else {
      TradeUpserts(s, w, l.input, x);
      IntentKept(w, ProcessEffects(s, w, l.input), x, Sized(s, w, l.input), l.cut);
      if Unreported(s, w, l.input, x, l.cut) {
        OpeningPrefix(s, w, l.input, x, l.cut);
        UnreportedOrder(s, w, l.input, x, l.cut);
      } else {
        TrustedReport(s, w, l, x);
      }
    }
  }

  lemma TrustedReport(s: Settings, w: World, l: Life, x: Intent)
    requires Steady(s, w) && l.Died? && l.cut <= |ProcessEffects(s, w, l.input)| && Permits(s, w, l.input, x)
    requires PaperBacked(s, w, l) && !Unreported(s, w, l.input, x, l.cut)
    ensures var c := After(w, ProcessEffects(s, w, l.input), l.cut);
      LatestReport(c.reports, x.id).Some?
      && (LatestReport(w.reports, x.id) == None || StatusOf(c, x.id) == Some(FILLED)) ==>
        PaperFill(x, Sized(s, w, l.input), LatestReport(c.reports, x.id).value)
  {
    var report := ExecuteResult(s, x, l.input.adapter, AttemptsOf(w, x.id)).value;
    assert Fills(s, w, l.input, x, report);
    BatchPaper(s, w, l, x, report);
    CrashedOrderAt(s, w, l.input, x, report, l.cut);
    if LatestReport(w.reports, x.id) == None || report.status == FILLED {
      var stored := CrashedReportAt(s, w, l.input, x, report, l.cut);
    }
  }

  lemma BatchPaper(s: Settings, w: World, l: Life, x: Intent, report: Report)
    requires !l.Restart? && Fills(s, w, l.input, x, report) && PaperBacked(s, w, l)
    ensures PaperFill(x, Sized(s, w, l.input), report)
  {
    FillsPermits(s, w, l.input, x, report);
    ResultReported(s, x, l.input.adapter, AttemptsOf(w, x.id));
  }

  // A recovery that dies keeps it.
  lemma TrustedDeath(s: Settings, c: World, x: Intent, d: Death, sized: real, first: bool)
    requires Sound(s, c) && OneCandidate(s, c, x) && DiesCleanly(s, c, d) && Trusted(s, c, x, sized, first)
    requires forall row | row in d.rows :: PaperAdapter(d.env(row.intent.id).adapter, row.intent, row.adjustedUsd)
    requires first || !DiesMarked(s, c, d, x)
    ensures Trusted(s, Fallen(s, c, d), x, sized, first)
  {
    DeathSourced(s, c, x, d);
    if InPlay(s, c, x) {
      RowPaper(s, c, x, d.rows, d.env(x.id).adapter, d.env, sized);
    }
  }

  // The adapter that recovery uses for x, when x is in play.
  lemma RowPaper(
    s: Settings, c: World, x: Intent, rows: seq<Recoverable>, adapter: nat -> Pipeline.Outcome, env: IntentId -> Env,
    sized: real)
    requires Enumerates(c, rows) && OneCandidate(s, c, x) && InPlay(s, c, x) && c.orders[x.id].adjustedUsd == sized
    requires forall row | row in rows && row.intent.id == x.id :: PaperAdapter(adapter, row.intent, row.adjustedUsd)
    ensures PaperAdapter(adapter, x, sized)
  {
    var i: nat :| i < |rows| && rows[i].intent.id == x.id;
    assert IsRow(c, rows[i]) && rows[i] in rows;
  }

  lemma {:induction false} TrustedAll(
    s: Settings, c: World, r: Revival, x: Intent, sized: real, first: bool, n: nat)
    requires Sound(s, c) && OneCandidate(s, c, x) && AllClean(s, c, r) && PaperRevival(r)
    requires Trusted(s, c, x, sized, first) && n <= |r.deaths|
    requires first || forall i | 0 <= i < |r.deaths| :: !DiesMarked(s, r.falls[i], r.deaths[i], x)
    ensures Sound(s, r.falls[n]) && OneCandidate(s, r.falls[n], x) && Trusted(s, r.falls[n], x, sized, first)
    decreases n
  {
    StandingAfter(s, c, r, x, n);
    StandingCandidate(s, c, r, x, n);
    if n > 0 {
      TrustedAll(s, c, r, x, sized, first, n - 1);
      PaperDeath(r, n - 1);
      TrustedDeath(s, r.falls[n - 1], x, r.deaths[n - 1], sized, first);
    }
  }

  lemma StandingCandidate(s: Settings, c: World, r: Revival, x: Intent, n: nat)
    requires n < |r.falls| && Standing(s, c, r, x, n)
    ensures Sound(s, r.falls[n]) && OneCandidate(s, r.falls[n], x)
  {
  }

  lemma PaperDeath(r: Revival, i: nat)
    requires PaperRevival(r) && i < |r.deaths|
    ensures forall row | row in r.deaths[i].rows ::
      PaperAdapter(r.deaths[i].env(row.intent.id).adapter, row.intent, row.adjustedUsd)
  {
    forall row | row in r.deaths[i].rows
      ensures PaperAdapter(r.deaths[i].env(row.intent.id).adapter, row.intent, row.adjustedUsd)
    {
      assert row in r.RowsAt(i);
      assert PaperAdapter(r.AdapterAt(i, row.intent.id), row.intent, row.adjustedUsd);
    }
  }

  // So every answer of these recoveries is a paper fill.
  lemma AnswerPaper(
    s: Settings, c: World, r: Revival, x: Intent, sized: real, first: bool, w': World, i: nat, report: Report)
    requires Sound(s, c) && OneCandidate(s, c, x) && Revives(s, c, r, w') && PaperRevival(r)
    requires Trusted(s, c, x, sized, first)
    requires first || forall i | 0 <= i < |r.deaths| :: !DiesMarked(s, r.falls[i], r.deaths[i], x)
    requires Answered(s, r, x, i, report)
    ensures PaperFill(x, sized, report)
  {
    var d := r.falls[i];
    TrustedAll(s, c, r, x, sized, first, i);
    assert Enumerates(d, r.RowsAt(i));
    if d.orders[x.id].status != FILLED {
      ResultReported(s, x, r.AdapterAt(i, x.id), AttemptsOf(d, x.id));
      forall row | row in r.RowsAt(i) && row.intent.id == x.id
        ensures PaperAdapter(r.AdapterAt(i, x.id), row.intent, row.adjustedUsd)
      {
        assert PaperAdapter(r.AdapterAt(i, row.intent.id), row.intent, row.adjustedUsd);
      }
      AnswerInPlay(s, d, x, r.AdapterAt(i, x.id));
      RowPaper(s, d, x, r.RowsAt(i), r.AdapterAt(i, x.id), r.env, sized);
    }
  }

  lemma {:induction false} AnswerInPlay(s: Settings, d: World, x: Intent, adapter: nat -> Pipeline.Outcome)
    requires Answer(s, d, x, adapter).Some?
    ensures InPlay(s, d, x)
  {
  }

  // The fill that a life applies.
  lemma FillPaper(s: Settings, w: World, l: Life, w': World, x: Intent, report: Report)
    requires Sound(s, w) && Leads(s, w, l, w') && ClearStart(s, w, l) && FilledOnce(s, w, l, w', x, report)
    requires PaperBacked(s, w, l) && Remembers(s, w, l)
    ensures PaperFill(x, Sized(s, w, l.input), report)
  {
    if Fills(s, w, l.input, x, report) {
      BatchPaper(s, w, l, x, report);
    } else {
      var i: nat :| Answered(s, l.revival, x, i, report);
      var c, first := After(w, ProcessEffects(s, w, l.input), l.cut), LatestReport(w.reports, x.id) == None;
      CrashSound(s, w, l.input, l.cut);
      PermittedCandidate(s, w, l.input, x, l.cut);
      TrustedStart(s, w, l, x);
      AnswerPaper(s, c, l.revival, x, Sized(s, w, l.input), first, w', i, report);
    }
  }

  // --- the ceiling -------------------------------------------------------------------------------

  function ExposureCap(s: Settings): real { Max(Min(s.maxTokenExposure, s.maxChainExposure), 0.0) }

  // Half a cent, as a fraction of the portfolio.
  function Overshoot(totalUsd: real): real
    requires totalUsd > 0.0
  {
    0.005 / totalUsd
  }

  predicate WithinCeiling(s: Settings, p: Portfolio) {
    p.totalUsd > 0.0 && p.tokenExposure == p.chainExposure <= ExposureCap(s) + Overshoot(p.totalUsd)
  }

  // RiskDecision rejects a negative adjusted notional, so the live cap must not be negative.
  predicate SensibleCap(s: Settings) { s.Live() ==> s.cappedNotionalUsd >= 0.0 }

  // Buying this much, plus half a cent, stays under the ceiling.
  predicate Affordable(s: Settings, p: Portfolio, requested: real)
    requires p.totalUsd > 0.0
  {
    && p.tokenExposure < Min(s.maxTokenExposure, s.maxChainExposure)
    && p.tokenExposure + Reconciler.Fraction(requested + 0.005, p.totalUsd) <= ExposureCap(s) + Overshoot(p.totalUsd)
  }

  // Spending the headroom h of a portfolio, and half a cent more.
  lemma HeadroomSpent(requested: real, totalUsd: real, h: real)
    requires totalUsd > 0.0 && requested <= totalUsd * h
    ensures Reconciler.Fraction(requested + 0.005, totalUsd) <= h + Overshoot(totalUsd)
  {
  }

  lemma SizeAffordable(s: Settings, c: RiskEngine.Context, requested: real)
    requires c.portfolio.totalUsd > 0.0 && c.portfolio.tokenExposure == c.portfolio.chainExposure
    requires c.portfolio.tokenExposure < s.maxTokenExposure && c.portfolio.chainExposure < s.maxChainExposure
    requires c.settings == s && requested == RiskEngine.SizedNotional(c)
    ensures Affordable(s, c.portfolio, requested)
  {
    var h := RiskEngine.Headroom(s, c.portfolio);
    assert h == Min(s.maxTokenExposure, s.maxChainExposure) - c.portfolio.tokenExposure;
    RiskEngine.SizedWithinHeadroom(c);
    HeadroomSpent(requested, c.portfolio.totalUsd, h);
  }

  lemma SizeNonNegative(s: Settings, c: RiskEngine.Context)
    requires c.settings == s && SensibleCap(s) && c.portfolio.totalUsd > 0.0 && c.intent.targetNotional >= 0.0
    ensures RiskEngine.SizedNotional(c) >= 0.0
    ensures RiskEngine.SizedNotional(c) <= c.intent.targetNotional
  {
  }

  // An allowed size is non-negative; a BUY's is affordable, an EXIT's is nothing.
  lemma AllowedSize(s: Settings, w: World, input: Input, x: Intent)
    requires Permits(s, w, input, x) && SensibleCap(s) && PortfolioOf(w).totalUsd > 0.0
    ensures Sized(s, w, input) >= 0.0
    ensures x.Action() == EXIT ==> Sized(s, w, input) == 0.0
  {
    var p := PlanOf(s, w, input);
    Router.RoutedIntents(input.signal, p.transition.next, p.position, Router.READY);
    SizeNonNegative(s, RiskContext(s, p, input));
  }

  lemma AllowedBuy(s: Settings, w: World, input: Input, x: Intent)
    requires Permits(s, w, input, x) && x.Action() == BUY
    requires PortfolioOf(w).totalUsd > 0.0 && PortfolioOf(w).tokenExposure == PortfolioOf(w).chainExposure
    ensures Affordable(s, PortfolioOf(w), Sized(s, w, input))
  {
    var c := RiskContext(s, PlanOf(s, w, input), input);
    assert !RiskEngine.Violates(c, RiskEngine.TokenExposureLimitReached);
    assert !RiskEngine.Violates(c, RiskEngine.ChainExposureLimitReached);
    SizeAffordable(s, c, Sized(s, w, input));
  }

  lemma RoutedAction(s: Settings, w: World, input: Input, x: Intent)
    requires Permits(s, w, input, x)
    ensures x.Action() == BUY || x.Action() == EXIT
  {
  }

  // A paper fill exceeds its request by half a cent at most; an EXIT executes nothing; and within the safe limit of
  // both venues nothing negative is executed.
  lemma PaperAmounts(s: Settings, w: World, input: Input, x: Intent, report: Report)
    requires Permits(s, w, input, x) && PaperFill(x, Sized(s, w, input), report)
    requires SensibleCap(s) && PortfolioOf(w).totalUsd > 0.0
    ensures report.executedUsd <= Sized(s, w, input) + 0.005
    ensures x.Action() == EXIT ==> report.executedUsd == 0.0
    ensures s.maxSlippageBps <= 7693 ==> report.executedUsd >= 0.0
  {
    var venue, requested := PaperExecutors.PaperVenue(x.VenueType()), Sized(s, w, input);
    AllowedSize(s, w, input, x);
    var d: PaperExecutors.Draw :| d.Valid()
      && report.executedUsd == PaperExecutors.Executed(venue, requested, x.maxSlippageBps, d);
    PaperExecutors.FillBounds(venue, requested, x.maxSlippageBps, d);
    RoutedAction(s, w, input, x);
    if x.Action() == BUY && s.maxSlippageBps <= 7693 {
      SlippageChecked(s, w, input, x);
      PaperExecutors.SlippageCeiling(venue, x.maxSlippageBps, d);
    }
  }

  lemma SlippageChecked(s: Settings, w: World, input: Input, x: Intent)
    requires Permits(s, w, input, x) && x.Action() == BUY
    ensures x.maxSlippageBps <= s.maxSlippageBps
  {
    var p := PlanOf(s, w, input);
    Router.RoutedIntents(input.signal, p.transition.next, p.position, Router.READY);
    assert !RiskEngine.Violates(RiskContext(s, p, input), RiskEngine.SlippageAboveLimit);
  }

  // An affordable purchase, half a cent over at most; or nothing given back.
  lemma FillArithmetic(s: Settings, b: Reconciler.Book, requested: real, x: Intent, report: Report)
    requires WithinCeiling(s, b.portfolio)
    requires report.executedUsd <= requested + 0.005
    requires x.Action() == EXIT || x.Action() == BUY
    requires x.Action() == EXIT ==> report.executedUsd == 0.0
    requires x.Action() == BUY ==> Affordable(s, b.portfolio, requested)
    ensures WithinCeiling(s, FillOf(b, x, report).portfolio)
    ensures FillOf(b, x, report).portfolio.totalUsd == b.portfolio.totalUsd
  {
  }

  lemma OvershootPositive(totalUsd: real)
    requires totalUsd > 0.0
    ensures Overshoot(totalUsd) > 0.0
  {
  }

  // One life on the paper venues, torn or not, keeps the ceiling.
  lemma LifeCeiling(s: Settings, w: World, l: Life, w': World)
    requires Sound(s, w) && Leads(s, w, l, w') && ClearStart(s, w, l)
    requires PaperBacked(s, w, l) && Remembers(s, w, l) && SensibleCap(s)
    requires WithinCeiling(s, PortfolioOf(w))
    ensures WithinCeiling(s, PortfolioOf(w')) && PortfolioOf(w').totalUsd == PortfolioOf(w).totalUsd
  {
    LifeOutcome(s, w, l, w');
    if x, report :| FilledOnce(s, w, l, w', x, report) {
      FillPaper(s, w, l, w', x, report);
      PaperAmounts(s, w, l.input, x, report);
      RoutedAction(s, w, l.input, x);
      if x.Action() == BUY {
        AllowedBuy(s, w, l.input, x);
      }
      FillArithmetic(s, BookOf(w, x.Token()), Sized(s, w, l.input), x, report);
    }
  }

  // A run on the paper venues, in which no recovery starts with an order that an earlier batch has left, and no report
  // older than its batch is ever applied.
  ghost predicate PaperRun(s: Settings, states: seq<World>, lives: seq<Life>) {
    && ClearRun(s, states, lives) && Fresh(states[0]) && SensibleCap(s)
    && forall i | 0 <= i < |lives| :: PaperBacked(s, states[i], lives[i]) && Remembers(s, states[i], lives[i])
  }

  // Over every such run on the paper venues, with batches that raise or die and recoveries that die: token and chain
  // exposure are one number, and it never exceeds the smaller of the two limits by more than half a cent's share of
  // the portfolio.
  lemma {:induction false} ExposureCeiling(s: Settings, states: seq<World>, lives: seq<Life>, k: nat)
    requires PaperRun(s, states, lives) && k < |states|
    ensures WithinCeiling(s, PortfolioOf(states[k]))
    ensures PortfolioOf(states[k]).totalUsd == PortfolioOf(states[0]).totalUsd
    decreases k
  {
    if k == 0 {
      OvershootPositive(PortfolioOf(states[0]).totalUsd);
    } else {
      ExposureCeiling(s, states, lives, k - 1);
      CeilingAdvances(s, states, lives, k - 1);
    }
  }

  lemma CeilingAdvances(s: Settings, states: seq<World>, lives: seq<Life>, k: nat)
    requires PaperRun(s, states, lives) && k < |lives| && WithinCeiling(s, PortfolioOf(states[k]))
    ensures WithinCeiling(s, PortfolioOf(states[k + 1]))
    ensures PortfolioOf(states[k + 1]).totalUsd == PortfolioOf(states[k]).totalUsd
  {
    LivesSound(s, states, lives, k);
    LifeCeiling(s, states[k], lives[k], states[k + 1]);
  }

  // Where an older report is applied, its amount decides and not the size that risk allowed.
  lemma OldReportCeiling(
    s: Settings, w: World, input: Input, x: Intent, k: nat, earlier: Report, rs: seq<Recoverable>,
    env: IntentId -> Env)
    requires Steady(s, w) && Permits(s, w, input, x) && x.Action() == BUY
    requires Unreported(s, w, input, x, k) && Unstored(s, w, input, x, k) && OpenLedger(w, x.id)
    requires LatestReport(w.reports, x.id) == Some(earlier)
    requires Enumerates(After(w, ProcessEffects(s, w, input), k), rs)
    requires WithinCeiling(s, PortfolioOf(w))
    ensures var p := PortfolioOf(w);
      var bought := Reconciler.Fraction(earlier.executedUsd, p.totalUsd);
      WithinCeiling(s, PortfolioOf(RecoverState(s, After(w, ProcessEffects(s, w, input), k), rs, env)))
      <==> p.tokenExposure + bought <= ExposureCap(s) + Overshoot(p.totalUsd)
  {
    UnreportedOrder(s, w, input, x, k);
    CrashBeforeReport(s, w, input, x, k, rs, env);
  }

  // --- the floor: exposure is never given back ---------------------------------------------------

  ghost function PickToken(ts: set<Token>): Token
    requires ts != {}
  {
    var t :| t in ts; t
  }

  // The exposures of a set of tokens, added up.
  ghost function ExposureOf(w: World, ts: set<Token>): real {
    if ts == {} then 0.0
    else var t := PickToken(ts); PositionOf(w, t).exposure + ExposureOf(w, ts - {t})
  }

  lemma {:induction false} ExposureSame(w: World, w': World, ts: set<Token>)
    requires forall t | t in ts :: PositionOf(w, t) == PositionOf(w', t)
    ensures ExposureOf(w, ts) == ExposureOf(w', ts)
    decreases |ts|
  {
    if ts != {} {
      ExposureSame(w, w', ts - {PickToken(ts)});
    }
  }

  // The sum does not depend on which token is taken out first.
  lemma {:induction false} ExposureWithout(w: World, ts: set<Token>, t: Token)
    requires t in ts
    ensures ExposureOf(w, ts) == PositionOf(w, t).exposure + ExposureOf(w, ts - {t})
    decreases |ts|
  {
    var u := PickToken(ts);
    if u != t {
      ExposureWithout(w, ts - {u}, t);
      ExposureWithout(w, ts - {t}, u);
      assert ts - {u} - {t} == ts - {t} - {u};
    }
  }

  // Non-negative exposures whose sum, over any set of tokens, the portfolio covers.
  ghost predicate Covered(w: World) {
    && (forall t: Token :: PositionOf(w, t).exposure >= 0.0)
    && (forall ts: set<Token> :: ExposureOf(w, ts) <= PortfolioOf(w).tokenExposure)
    && PortfolioOf(w).tokenExposure >= 0.0
  }

  lemma FillCovered(w: World, w': World, x: Intent, report: Report)
    requires Covered(w) && AppliedOnce(w, w', x, report) && (x.Action() == BUY || x.Action() == EXIT)
    requires report.executedUsd >= 0.0 && (x.Action() == EXIT ==> report.executedUsd == 0.0)
    requires PortfolioOf(w).totalUsd > 0.0
    ensures Covered(w') && PortfolioOf(w').tokenExposure >= PortfolioOf(w).tokenExposure
  {
    var f := Reconciler.Fraction(report.executedUsd, PortfolioOf(w).totalUsd);
    assert f >= 0.0 && (report.executedUsd == 0.0 ==> f == 0.0);
    forall ts: set<Token>
      ensures ExposureOf(w', ts) <= PortfolioOf(w').tokenExposure
    {
      assert ExposureOf(w, ts) <= PortfolioOf(w).tokenExposure;
      var token := x.Token();
      if token in ts {
        ExposureWithout(w, ts, token);
        ExposureWithout(w', ts, token);
        ExposureSame(w, w', ts - {token});
      } else {
        ExposureSame(w, w', ts);
      }
    }
  }

  lemma SameCovered(w: World, w': World)
    requires Covered(w) && SameBook(w, w')
    ensures Covered(w')
  {
    forall ts: set<Token>
      ensures ExposureOf(w', ts) <= PortfolioOf(w').tokenExposure
    {
      ExposureSame(w, w', ts);
      assert ExposureOf(w, ts) <= PortfolioOf(w).tokenExposure;
    }
  }

  // One life that is not torn keeps the cover.
  lemma LifeCovered(s: Settings, w: World, l: Life, w': World)
    requires Sound(s, w) && Leads(s, w, l, w') && ClearStart(s, w, l)
    requires PaperBacked(s, w, l) && Remembers(s, w, l) && !Torn(s, w, l)
    requires SensibleCap(s) && s.maxSlippageBps <= 7693 && Covered(w) && PortfolioOf(w).totalUsd > 0.0
    ensures Covered(w') && PortfolioOf(w').totalUsd > 0.0
  {
    WholeLifeOutcome(s, w, l, w');
    if SameBook(w, w') {
      SameCovered(w, w');
    } else {
      var x, report :| FilledOnce(s, w, l, w', x, report);
      FillPaper(s, w, l, w', x, report);
      PaperAmounts(s, w, l.input, x, report);
      RoutedAction(s, w, l.input, x);
      FillCovered(w, w', x, report);
    }
  }

  // Over such runs without a torn life, the portfolio's exposure covers the exposures of every set of tokens.
  lemma {:induction false} ExposureFloor(s: Settings, states: seq<World>, lives: seq<Life>, k: nat)
    requires PaperRun(s, states, lives) && s.maxSlippageBps <= 7693 && k < |states|
    requires forall i | 0 <= i < k :: !Torn(s, states[i], lives[i])
    ensures Covered(states[k]) && PortfolioOf(states[k]).totalUsd > 0.0
    decreases k
  {
    if k == 0 {
      forall ts: set<Token>
        ensures ExposureOf(states[0], ts) == 0.0
      {
        NoExposure(states[0], ts);
      }
    } else {
      ExposureFloor(s, states, lives, k - 1);
      LivesSound(s, states, lives, k - 1);
      LifeCovered(s, states[k - 1], lives[k - 1], states[k]);
    }
  }

  lemma {:induction false} NoExposure(w: World, ts: set<Token>)
    requires w.positions == map[]
    ensures ExposureOf(w, ts) == 0.0
    decreases |ts|
  {
    if ts != {} {
      NoExposure(w, ts - {PickToken(ts)});
    }
  }

  // Torn or not, a life never lowers the portfolio's exposure: a routed EXIT asks for nothing, so nothing is ever
  // given back.
  lemma LifeRises(s: Settings, w: World, l: Life, w': World)
    requires Sound(s, w) && Leads(s, w, l, w') && ClearStart(s, w, l)
    requires PaperBacked(s, w, l) && Remembers(s, w, l)
    requires SensibleCap(s) && s.maxSlippageBps <= 7693
    requires PortfolioOf(w).totalUsd > 0.0 && PortfolioOf(w).tokenExposure >= 0.0
    ensures PortfolioOf(w').tokenExposure >= PortfolioOf(w).tokenExposure
  {
    LifeOutcome(s, w, l, w');
    if x, report :| FilledOnce(s, w, l, w', x, report) {
      FillPaper(s, w, l, w', x, report);
      PaperAmounts(s, w, l.input, x, report);
      RoutedAction(s, w, l.input, x);
      FillRises(BookOf(w, x.Token()), x, report);
    }
  }

  lemma FillRises(b: Reconciler.Book, x: Intent, report: Report)
    requires b.portfolio.totalUsd > 0.0 && b.portfolio.tokenExposure >= 0.0
    requires report.executedUsd >= 0.0 && (x.Action() == EXIT ==> report.executedUsd == 0.0)
    ensures FillOf(b, x, report).portfolio.tokenExposure >= b.portfolio.tokenExposure
  {
    assert report.executedUsd / b.portfolio.totalUsd >= 0.0;
  }

  lemma {:induction false} ExposureNotNegative(s: Settings, states: seq<World>, lives: seq<Life>, k: nat)
    requires PaperRun(s, states, lives) && s.maxSlippageBps <= 7693 && k < |states|
    ensures PortfolioOf(states[k]).tokenExposure >= 0.0
    decreases k
  {
    if k == 0 {
      NothingHeld(states[0]);
    } else {
      ExposureNotNegative(s, states, lives, k - 1);
      NonNegativeAdvances(s, states, lives, k - 1);
    }
  }

  lemma NothingHeld(w: World)
    requires Fresh(w)
    ensures PortfolioOf(w).tokenExposure >= 0.0
  {
  }

  lemma NonNegativeAdvances(s: Settings, states: seq<World>, lives: seq<Life>, k: nat)
    requires PaperRun(s, states, lives) && s.maxSlippageBps <= 7693 && k < |lives|
    requires PortfolioOf(states[k]).tokenExposure >= 0.0
    ensures PortfolioOf(states[k + 1]).tokenExposure >= 0.0
  {
    RiseAdvances(s, states, lives, k);
  }

  lemma {:induction false} RisingChain(xs: seq<real>, i: nat, k: nat)
    requires i <= k < |xs| && forall j | 0 < j < |xs| :: xs[j - 1] <= xs[j]
    ensures xs[i] <= xs[k]
    decreases k
  {
    if i < k {
      RisingChain(xs, i, k - 1);
    }
  }

  // Over every such run, torn lives included.
  lemma ExposureNeverReleased(s: Settings, states: seq<World>, lives: seq<Life>, i: nat, k: nat)
    requires PaperRun(s, states, lives) && s.maxSlippageBps <= 7693 && i <= k < |states|
    ensures PortfolioOf(states[i]).tokenExposure <= PortfolioOf(states[k]).tokenExposure
  {
    var exposures := seq(|states|, j requires 0 <= j < |states| => PortfolioOf(states[j]).tokenExposure);
    forall j | 0 < j < |exposures|
      ensures exposures[j - 1] <= exposures[j]
    {
      NoneReleased(s, states, lives, j - 1);
    }
    RisingChain(exposures, i, k);
  }

  lemma NoneReleased(s: Settings, states: seq<World>, lives: seq<Life>, k: nat)
    requires PaperRun(s, states, lives) && s.maxSlippageBps <= 7693 && k < |lives|
    ensures PortfolioOf(states[k]).tokenExposure <= PortfolioOf(states[k + 1]).tokenExposure
  {
    ExposureNotNegative(s, states, lives, k);
    RiseAdvances(s, states, lives, k);
  }

  lemma RiseAdvances(s: Settings, states: seq<World>, lives: seq<Life>, k: nat)
    requires PaperRun(s, states, lives) && s.maxSlippageBps <= 7693 && k < |lives|
    requires PortfolioOf(states[k]).tokenExposure >= 0.0
    ensures PortfolioOf(states[k + 1]).tokenExposure >= PortfolioOf(states[k]).tokenExposure
  {
    ExposureCeiling(s, states, lives, k);
    LivesSound(s, states, lives, k);
    LifeRises(s, states[k], lives[k], states[k + 1]);
  }

  // So a portfolio that has once reached the smaller limit never buys again, whatever is sold meanwhile.
  lemma SaturatedForGood(
    s: Settings, states: seq<World>, lives: seq<Life>, i: nat, k: nat, input: Input, x: Intent)
    requires PaperRun(s, states, lives) && s.maxSlippageBps <= 7693 && i <= k < |states|
    requires PortfolioOf(states[i]).tokenExposure >= Min(s.maxTokenExposure, s.maxChainExposure)
    requires Permits(s, states[k], input, x)
    ensures x.Action() == EXIT
  {
    ExposureNeverReleased(s, states, lives, i, k);
    ExposureCeiling(s, states, lives, k);
    RoutedAction(s, states[k], input, x);
    if x.Action() == BUY {
      AllowedBuy(s, states[k], input, x);
    }
  }
}
