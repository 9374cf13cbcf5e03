// The default risk limits, two token listings and one lost connection: a run that breaks the exposure ceiling.
module TwiceSpent {
  import opened Schemas
  import opened World
  import opened Pipeline
  import opened OrderLifecycle
  import opened Books
  import opened CrashRecovery
  import opened CrashWindows
  import opened Lingering
  import opened Lives
  import opened AgreementRuns
  import opened BookRuns
  import opened Backlogs
  import opened RaisedRuns
  import FsmRuns
  import PaperExecutors
  import RiskEngine
  import Rounding
  import Router

  // core/config.py, on the paper venues.
  const DEFAULTS := Settings(
    0.10, 0.40, 5, 0.03, 30, 100000.0, 25000.0, 150, 30, 2, false, false, false, false, false, 100.0, 500.0, true, true)

  // A liquid token that is listed at some time, and whose quotes show no slippage.
  datatype Listing = Listing(token: Token, at: int) {
    function Signal(): TokenSignal {
      TokenSignal(
        token, "solana", CEX_LISTING, Features(300000.0, 50000.0, 0.5, 0.0, 0.0, 1.0, true), 0.8, 0.5, 0.9, at)
    }

    function Bought(): Intent {
      Intent(IntentId("solana", token, at, CEX_LISTING, CEX, BUY), 0.9, 2400.0, 0)
    }

    // The venue's draw fills the whole order.
    function Batch(): Input {
      Input(Signal(), None, at, at, n => PaperOutcome(Bought(), 1000.0, FULL, at), at)
    }

    function Filled(): Report {
      Report(Bought().id, FILLED, 1000.0, at, "paper_execution", None)
    }
  }

  const FULL := PaperExecutors.Draw(0.0, 0.5)

  // Nothing is held, and the order and its token are new.
  ghost predicate Unknown(w: World, x: Listing) {
    && PortfolioOf(w) == FRESH && PositionOf(w, x.token) == CLOSED
    && CheckpointOf(w, FsmKey("solana", x.token)) == None
    && x.Bought().id !in w.orders && OpenLedger(w, x.Bought().id)
  }

  lemma WholeAmounts()
    ensures Router.SuggestNotional(0.9, 300000.0) == 2400.0
    ensures PaperExecutors.Executed(PaperExecutors.CEX_PAPER, 1000.0, 0, FULL) == 1000.0
  {
    assert Rounding.HalfEven(240000.0) == 240000;
    assert Rounding.HalfEven(100000.0) == 100000;
    assert PaperExecutors.Slippage(PaperExecutors.CEX_PAPER, 0, FULL) == 0;
  }

  lemma ListingRouted(w: World, x: Listing)
    requires Unknown(w, x)
    ensures var p := PlanOf(DEFAULTS, w, x.Batch());
      p.intent == Some(x.Bought()) && p.position == CLOSED && p.portfolio == FRESH
  {
    WholeAmounts();
  }

  // Risk sizes the order to the whole headroom.
  lemma ListingPermitted(w: World, x: Listing)
    requires Unknown(w, x)
    ensures Permits(DEFAULTS, w, x.Batch(), x.Bought())
    ensures Sized(DEFAULTS, w, x.Batch()) == 1000.0
  {
    ListingRouted(w, x);
    var c := RiskContext(DEFAULTS, PlanOf(DEFAULTS, w, x.Batch()), x.Batch());
    assert RiskEngine.SizedNotional(c) == 1000.0;
    forall v
      ensures !RiskEngine.Violates(c, v)
    {
    }
  }

  lemma ListingFills(w: World, x: Listing)
    requires Unknown(w, x)
    ensures Fills(DEFAULTS, w, x.Batch(), x.Bought(), x.Filled())
  {
    ListingPermitted(w, x);
    WholeAmounts();
    assert x.Batch().adapter(0) == Reported(FILLED, 1000.0, x.at, "paper_execution");
  }

  // The batch raises when its report has just been stored, as it does when the stream of reports cannot be reached.
  ghost function Interrupted(w: World, x: Listing): Life {
    Life.Raised(x.Batch(), |Opening(DEFAULTS, w, x.Batch(), x.Bought())|)
  }

  lemma ListingRaises(w: World, x: Listing)
    requires Unknown(w, x)
    ensures RaisesWith(DEFAULTS, w, Interrupted(w, x), x.Bought(), x.Filled())
    ensures |Opening(DEFAULTS, w, x.Batch(), x.Bought())| <= |ProcessEffects(DEFAULTS, w, x.Batch())|
  {
    ListingFills(w, x);
    FillsEffects(DEFAULTS, w, x.Batch(), x.Bought(), x.Filled());
  }

  // The connection is lost on the first: nothing about the second changes.
  lemma StaysUnknown(w: World, x: Listing, w': World, y: Listing)
    requires Sound(DEFAULTS, w) && Unknown(w, x) && Unknown(w, y) && x != y
    requires Leads(DEFAULTS, w, Interrupted(w, x), w')
    ensures Unknown(w', y)
  {
    ListingRaises(w, x);
    RaisesLeaves(DEFAULTS, w, Interrupted(w, x), w', x.Bought(), x.Filled());
    LeftKeepsBook(DEFAULTS, w, Interrupted(w, x), w');
    OthersStayLive(DEFAULTS, w, x.Batch(), Interrupted(w, x).cut, y.Bought().id);
    NoCheckpoint(w, x, w');
  }

  lemma NoCheckpoint(w: World, x: Listing, w': World)
    requires Unknown(w, x) && Leads(DEFAULTS, w, Interrupted(w, x), w')
    ensures w'.checkpoints == w.checkpoints
  {
    var es := Opening(DEFAULTS, w, x.Batch(), x.Bought());
    ListingFills(w, x);
    FillsEffects(DEFAULTS, w, x.Batch(), x.Bought(), x.Filled());
    AfterConcat(w, es, Closing(DEFAULTS, w, x.Batch(), x.Bought(), x.Filled()), |es|);
    FsmRuns.ExecuteSavesNone(
      DEFAULTS, x.Bought(), Adjusted(DEFAULTS, PlanOf(DEFAULTS, w, x.Batch()), x.Batch()), x.at, x.Batch().adapter,
      AttemptsOf(w, x.Bought().id));
    FsmRuns.NoSaves(w, es, |es|);
  }

  // From an empty database, two listings, of one token or of two: each batch buys for the whole headroom of a tenth of
  // the portfolio, and the recovery after both leaves twice as much. If they are of one token, the counter says two and
  // one position is open.
  lemma SpentTwice(x: Listing, y: Listing, r: Revival, w': World)
    requires x != y
    ensures var a := Interrupted(EMPTY, x);
      a.cut <= |ProcessEffects(DEFAULTS, EMPTY, x.Batch())|
      && var w1 := After(EMPTY, ProcessEffects(DEFAULTS, EMPTY, x.Batch()), a.cut);
      var b := Interrupted(w1, y);
      b.cut <= |ProcessEffects(DEFAULTS, w1, y.Batch())|
      && var w2 := After(w1, ProcessEffects(DEFAULTS, w1, y.Batch()), b.cut);
      Revives(DEFAULTS, w2, r, w') ==>
        && PortfolioOf(w').tokenExposure == 0.2 == 2.0 * DEFAULTS.maxTokenExposure
        && !WithinCeiling(DEFAULTS, PortfolioOf(w'))
        && (Agrees(DEFAULTS, w') <==> x.token != y.token)
  {
    var w1 := FirstRaised(x);
    var b := Interrupted(w1, y);
    StaysUnknown(EMPTY, x, w1, y);
    ListingRaises(w1, y);
    var w2 := After(w1, ProcessEffects(DEFAULTS, w1, y.Batch()), b.cut);
    if Revives(DEFAULTS, w2, r, w') {
      SecondRaised(x, w1, y, w2, r, w');
    }
  }

  lemma FirstRaised(x: Listing) returns (w1: World)
    ensures Sound(DEFAULTS, EMPTY) && Unknown(EMPTY, x)
    ensures Interrupted(EMPTY, x).cut <= |ProcessEffects(DEFAULTS, EMPTY, x.Batch())|
    ensures w1 == After(EMPTY, ProcessEffects(DEFAULTS, EMPTY, x.Batch()), Interrupted(EMPTY, x).cut)
    ensures Leads(DEFAULTS, EMPTY, Interrupted(EMPTY, x), w1)
  {
    FreshSteady(DEFAULTS, EMPTY);
    ListingRaises(EMPTY, x);
    w1 := After(EMPTY, ProcessEffects(DEFAULTS, EMPTY, x.Batch()), Interrupted(EMPTY, x).cut);
  }

  lemma SecondRaised(x: Listing, w1: World, y: Listing, w2: World, r: Revival, w': World)
    requires Leads(DEFAULTS, EMPTY, Interrupted(EMPTY, x), w1) && Unknown(EMPTY, x) && Unknown(w1, y)
    requires Leads(DEFAULTS, w1, Interrupted(w1, y), w2) && Revives(DEFAULTS, w2, r, w')
    ensures PortfolioOf(w').tokenExposure == 0.2
    ensures !WithinCeiling(DEFAULTS, PortfolioOf(w'))
    ensures Agrees(DEFAULTS, w') <==> x.token != y.token
  {
    FreshSteady(DEFAULTS, EMPTY);
    ListingRaises(EMPTY, x);
    ListingRaises(w1, y);
    TwoRaisedPurchases(
      DEFAULTS, EMPTY, Interrupted(EMPTY, x), x.Bought(), x.Filled(), w1, Interrupted(w1, y), y.Bought(), y.Filled(),
      w2, r, w');
    EmptyBook();
    Doubled(w', x, y);
  }

  lemma EmptyBook()
    ensures PortfolioOf(EMPTY) == FRESH && Agrees(DEFAULTS, EMPTY) && WithinCeiling(DEFAULTS, FRESH)
  {
    assert OpenTokens(EMPTY) == {};
  }

  lemma Doubled(recovered: World, x: Listing, y: Listing)
    requires PortfolioOf(EMPTY) == FRESH && Agrees(DEFAULTS, EMPTY) && WithinCeiling(DEFAULTS, FRESH)
    requires BothEntered(
      DEFAULTS, EMPTY, recovered, FillFrom(x.Bought(), x.Filled()), FillFrom(y.Bought(), y.Filled()))
    ensures PortfolioOf(recovered).tokenExposure == 0.2
    ensures !WithinCeiling(DEFAULTS, PortfolioOf(recovered))
    ensures Agrees(DEFAULTS, recovered) <==> x.token != y.token
  {
  }
}
