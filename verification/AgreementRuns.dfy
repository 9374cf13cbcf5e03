// The portfolio's counter against the open positions, over whole runs.
module AgreementRuns {
  import opened Schemas
  import opened World
  import opened Pipeline
  import opened OrderLifecycle
  import opened Books
  import opened CrashRecovery
  import opened CrashWindows
  import opened Lives
  import PaperExecutors
  import Reconciler
  import RiskEngine
  import Router

  // --- position-book agreement -------------------------------------------------------------------

  function OpenTokens(w: World): set<Token> {
    set t | t in w.positions && w.positions[t].isOpen
  }

  function PositionCap(s: Settings): nat { if s.maxConcurrentPositions >= 0 then s.maxConcurrentPositions else 0 }

  ghost predicate Agrees(s: Settings, w: World) {
    && PortfolioOf(w).openPositions == |OpenTokens(w)|
    && PortfolioOf(w).openPositions <= PositionCap(s)
    && forall t: Token :: !PositionOf(w, t).isOpen ==> PositionOf(w, t).exposure == 0.0
  }

  lemma OpenRead(w: World, t: Token)
    ensures t in OpenTokens(w) <==> PositionOf(w, t).isOpen
  {
  }

  lemma SameOpen(w: World, w': World)
    requires SameBook(w, w')
    ensures OpenTokens(w) == OpenTokens(w')
  {
    forall t: Token
      ensures t in OpenTokens(w) <==> t in OpenTokens(w')
    {
      OpenRead(w, t);
      OpenRead(w', t);
    }
  }

  lemma RebookedOpen(w: World, w': World, token: Token, b: Reconciler.Book)
    requires Rebooked(w, w', token, b)
    ensures OpenTokens(w') == if b.position.isOpen then OpenTokens(w) + {token} else OpenTokens(w) - {token}
  {
    forall t: Token
      ensures t in OpenTokens(w') <==>
        t in (if b.position.isOpen then OpenTokens(w) + {token} else OpenTokens(w) - {token})
    {
      OpenRead(w, t);
      OpenRead(w', t);
    }
  }

  // What risk let through: with position preflight on, a BUY of a closed token below the cap or an EXIT of an
  // open one.
  lemma PermittedActions(s: Settings, w: World, input: Input, x: Intent)
    requires Permits(s, w, input, x) && s.enforcePositionPreflight
    ensures x.Action() == BUY || x.Action() == EXIT
    ensures x.Action() == BUY ==>
      !PositionOf(w, x.Token()).isOpen && PortfolioOf(w).openPositions < s.maxConcurrentPositions
    ensures x.Action() == EXIT ==> PositionOf(w, x.Token()).isOpen
  {
    var p := PlanOf(s, w, input);
    Router.RoutedIntents(input.signal, p.transition.next, p.position, Router.READY);
    var c := RiskContext(s, p, input);
    assert !RiskEngine.Violates(c, RiskEngine.PositionAlreadyOpen);
    assert !RiskEngine.Violates(c, RiskEngine.MaxPositionsReached);
    assert !RiskEngine.Violates(c, RiskEngine.NoOpenPosition);
  }

  lemma FillAgrees(s: Settings, w: World, w': World, x: Intent, report: Report)
    requires Agrees(s, w) && AppliedOnce(w, w', x, report)
    requires x.Action() == BUY || x.Action() == EXIT
    requires x.Action() == BUY ==>
      !PositionOf(w, x.Token()).isOpen && PortfolioOf(w).openPositions < s.maxConcurrentPositions
    requires x.Action() == EXIT ==> PositionOf(w, x.Token()).isOpen
    ensures Agrees(s, w')
  {
    var b := FillOf(BookOf(w, x.Token()), x, report);
    RebookedOpen(w, w', x.Token(), b);
    OpenRead(w, x.Token());
  }

  lemma SameAgrees(s: Settings, w: World, w': World)
    requires Agrees(s, w) && SameBook(w, w')
    ensures Agrees(s, w')
  {
    SameOpen(w, w');
  }

  // The torn point leaves the counter one off.
  lemma HalfDisagrees(s: Settings, w: World, l: Life, w': World, x: Intent, report: Report)
    requires Agrees(s, w) && HalfFilled(s, w, l, w', x, report) && s.enforcePositionPreflight
    ensures |OpenTokens(w')| == PortfolioOf(w').openPositions + if x.Action() == BUY then 1 else -1
  {
    var b := FillOf(BookOf(w, x.Token()), x, report);
    FillsPermits(s, w, l.input, x, report);
    PermittedActions(s, w, l.input, x);
    RebookedOpen(w, w', x.Token(), Reconciler.Book(b.position, PortfolioOf(w)));
    OpenRead(w, x.Token());
  }

  lemma TornDisagrees(s: Settings, w: World, l: Life, w': World, x: Intent, report: Report)
    requires Sound(s, w) && Leads(s, w, l, w') && ClearStart(s, w, l) && s.enforcePositionPreflight && Agrees(s, w)
    requires TornBy(s, w, l, x, report)
    ensures |OpenTokens(w')| == PortfolioOf(w').openPositions + if x.Action() == BUY then 1 else -1
  {
    if l.Died? {
      DiedLate(s, w, l, w', x, report);
    } else {
      CrashedBook(s, w, l.input, x, report, l.cut);
    }
    HalfDisagrees(s, w, l, w', x, report);
  }

  lemma WholeLifeAgrees(s: Settings, w: World, l: Life, w': World)
    requires Sound(s, w) && Leads(s, w, l, w') && ClearStart(s, w, l) && s.enforcePositionPreflight && Agrees(s, w)
    requires !Torn(s, w, l)
    ensures Agrees(s, w')
  {
    WholeLifeOutcome(s, w, l, w');
    if SameBook(w, w') {
      SameAgrees(s, w, w');
    } else {
      var x, report :| FilledOnce(s, w, l, w', x, report);
      PermittedActions(s, w, l.input, x);
      FillAgrees(s, w, w', x, report);
    }
  }

  // With position preflight on, a life that recovers nothing of earlier batches keeps agreement if and only if it is
  // not torn.
  lemma LifeAgreesExactly(s: Settings, w: World, l: Life, w': World)
    requires Sound(s, w) && Leads(s, w, l, w') && ClearStart(s, w, l) && s.enforcePositionPreflight && Agrees(s, w)
    ensures Agrees(s, w') <==> !Torn(s, w, l)
  {
    if x, report :| TornBy(s, w, l, x, report) {
      TornDisagrees(s, w, l, w', x, report);
    } else {
      WholeLifeAgrees(s, w, l, w');
    }
  }

  // With position preflight on, for any adapter, over every run of batches that complete, raise or die, and recoveries
  // that complete or die, none of them torn and no recovery starting with an order that an earlier batch has left: the
  // counter in the portfolio is the number of open positions, it stays within the configured maximum, and a closed
  // position has no exposure.
  lemma {:induction false} PositionBookAgreement(s: Settings, states: seq<World>, lives: seq<Life>, k: nat)
    requires ClearRun(s, states, lives) && Fresh(states[0]) && k < |states|
    requires s.enforcePositionPreflight && forall i | 0 <= i < k :: !Torn(s, states[i], lives[i])
    ensures Agrees(s, states[k])
    decreases k
  {
    if k == 0 {
      assert OpenTokens(states[0]) == {};
    } else {
      PositionBookAgreement(s, states, lives, k - 1);
      LivesSound(s, states, lives, k - 1);
      LifeAgreesExactly(s, states[k - 1], lives[k - 1], states[k]);
    }
  }

  // --- reports that are no fills -----------------------------------------------------------------

  // Whatever its report says, a batch that gets one changes the book: a BUY opens the position and takes a slot, an
  // EXIT closes an open one.
  lemma ReportMovesBook(s: Settings, w: World, input: Input, x: Intent, report: Report)
    requires Sound(s, w) && Fills(s, w, input, x, report)
    ensures var w' := ApplyAll(w, ProcessEffects(s, w, input));
      && !SameBook(w, w')
      && (x.Action() == BUY || x.Action() == EXIT)
      && (x.Action() == BUY ==>
            && PositionOf(w', x.Token()).isOpen
            && PortfolioOf(w').openPositions == PortfolioOf(w).openPositions + 1)
      && (x.Action() == EXIT ==> PositionOf(w, x.Token()).isOpen && !PositionOf(w', x.Token()).isOpen)
  {
    var p := PlanOf(s, w, input);
    Uninterrupted(s, w, input, x, report);
    Router.RoutedIntents(input.signal, p.transition.next, p.position, Router.READY);
    var w' := ApplyAll(w, ProcessEffects(s, w, input));
    assert PositionOf(w', x.Token()) == FillOf(BookOf(w, x.Token()), x, report).position;
  }

  // What a paper venue hands to the pipeline.
  function PaperOutcome(x: Intent, requested: real, d: PaperExecutors.Draw, at: int): Pipeline.Outcome {
    var r := PaperExecutors.PaperReport(PaperExecutors.PaperVenue(x.VenueType()), x, requested, d, at);
    Reported(r.status, r.executedUsd, r.timestamp, r.message)
  }

  // In particular a paper BUY whose draw fails: reported FAILED, nothing executed, and yet the position is open,
  // without exposure, and one slot is taken.
  lemma FailedBuyOpens(s: Settings, w: World, input: Input, x: Intent, d: PaperExecutors.Draw, at: int)
    requires Sound(s, w) && Permits(s, w, input, x) && x.Action() == BUY && AttemptsOf(w, x.id) < s.MaxAttempts()
    requires d.Valid() && d.roll < PaperExecutors.PaperVenue(x.VenueType()).failureRate
    requires input.adapter(AttemptsOf(w, x.id)) == PaperOutcome(x, Adjusted(s, PlanOf(s, w, input), input), d, at)
    ensures var w' := ApplyAll(w, ProcessEffects(s, w, input));
      && ExecuteResult(s, x, input.adapter, AttemptsOf(w, x.id)).Some?
      && ExecuteResult(s, x, input.adapter, AttemptsOf(w, x.id)).value.status == FAILED
      && PositionOf(w', x.Token()).isOpen
      && PositionOf(w', x.Token()).exposure == PositionOf(w, x.Token()).exposure
      && PortfolioOf(w').tokenExposure == PortfolioOf(w).tokenExposure
      && PortfolioOf(w').openPositions == PortfolioOf(w).openPositions + 1
  {
    var report := ReportOf(x, input.adapter(AttemptsOf(w, x.id)));
    assert report.executedUsd == 0.0;
    assert Fills(s, w, input, x, report);
    Uninterrupted(s, w, input, x, report);
    NothingBought(BookOf(w, x.Token()), x, report);
  }

  lemma NothingBought(b: Reconciler.Book, x: Intent, report: Report)
    requires x.Action() == BUY && report.executedUsd == 0.0
    ensures FillOf(b, x, report).position.exposure == b.position.exposure
    ensures FillOf(b, x, report).portfolio.tokenExposure == b.portfolio.tokenExposure
  {
  }
}
