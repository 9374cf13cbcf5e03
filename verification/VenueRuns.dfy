// Venue and last exit of a position over whole runs: which fill they come from.
module VenueRuns {
  import opened Schemas
  import opened World
  import opened Pipeline
  import opened OrderLifecycle
  import opened Books
  import opened CrashRecovery
  import opened CrashWindows
  import opened Lives
  import OrderOrigins
  import Reconciler
  import RiskEngine
  import Router

  // --- one fill, field by field ------------------------------------------------------------------

  // A filled purchase leaves its token open on its own venue; a filled sale leaves it closed, without a venue or
  // exposure, and remembers when; no other position changes.
  lemma FilledPosition(w: World, w': World, x: Intent, report: Report)
    requires AppliedOnce(w, w', x, report)
    ensures var before, after := PositionOf(w, x.Token()), PositionOf(w', x.Token());
      var total := PortfolioOf(w).totalUsd;
      && (x.Action() == BUY ==>
            && after.isOpen && after.venueType == x.VenueType() && after.lastExit == before.lastExit
            && after.exposure == before.exposure + if total > 0.0 then report.executedUsd / total else 0.0)
      && (x.Action() == EXIT ==>
            && !after.isOpen && after.venueType == NO_TRADE && after.lastExit == Some(report.timestamp)
            && after.exposure == 0.0)
    ensures forall t: Token | t != x.Token() :: PositionOf(w', t) == PositionOf(w, t)
  {
  }

  // --- which fill a position comes from ----------------------------------------------------------

  // The life fills x, all of it or its position alone.
  ghost predicate FilledIn(s: Settings, w: World, l: Life, w': World, x: Intent, report: Report) {
    FilledOnce(s, w, l, w', x, report) || HalfFilled(s, w, l, w', x, report)
  }

  lemma FilledInPosition(s: Settings, w: World, l: Life, w': World, x: Intent, report: Report)
    requires FilledIn(s, w, l, w', x, report)
    ensures x.Action() == BUY || x.Action() == EXIT
    ensures x.Action() == BUY ==>
      x.VenueType() in {DEX, CEX} && PositionOf(w', x.Token()).isOpen
      && PositionOf(w', x.Token()).venueType == x.VenueType()
      && PositionOf(w', x.Token()).lastExit == PositionOf(w, x.Token()).lastExit
    ensures x.Action() == EXIT ==>
      !PositionOf(w', x.Token()).isOpen && PositionOf(w', x.Token()).lastExit == Some(report.timestamp)
    ensures forall t: Token | t != x.Token() :: PositionOf(w', t) == PositionOf(w, t)
  {
    if HalfFilled(s, w, l, w', x, report) {
      FillsPermits(s, w, l.input, x, report);
    }
    OrderOrigins.PlannedExactly(s, w, l.input);
    assert PositionOf(w', x.Token()) == FillOf(BookOf(w, x.Token()), x, report).position;
  }

  ghost predicate FillsToken(s: Settings, w: World, l: Life, w': World, t: Token) {
    exists x, report :: FilledIn(s, w, l, w', x, report) && x.Token() == t
  }

  lemma LifePosition(s: Settings, w: World, l: Life, w': World, t: Token)
    requires Sound(s, w) && Leads(s, w, l, w') && ClearStart(s, w, l)
    ensures PositionOf(w', t) == PositionOf(w, t) || FillsToken(s, w, l, w', t)
  {
    LifeOutcome(s, w, l, w');
    if x, report :| FilledOnce(s, w, l, w', x, report) {
      FilledElsewhere(s, w, l, w', x, report, t);
    } else if x, report :| HalfFilled(s, w, l, w', x, report) {
      FilledElsewhere(s, w, l, w', x, report, t);
    }
  }

  lemma FilledElsewhere(s: Settings, w: World, l: Life, w': World, x: Intent, report: Report, t: Token)
    requires FilledIn(s, w, l, w', x, report)
    ensures PositionOf(w', t) == PositionOf(w, t) || FillsToken(s, w, l, w', t)
  {
    FilledInPosition(s, w, l, w', x, report);
  }

  lemma StepPosition(s: Settings, states: seq<World>, lives: seq<Life>, k: nat, t: Token)
    requires ClearRun(s, states, lives) && Fresh(states[0]) && k < |lives|
    ensures PositionOf(states[k + 1], t) == PositionOf(states[k], t)
      || FillsToken(s, states[k], lives[k], states[k + 1], t)
  {
    LivesSound(s, states, lives, k);
    LifePosition(s, states[k], lives[k], states[k + 1], t);
  }

  // Life i filled this order of the token, and its position has not changed from then to state k.
  ghost predicate Since(
    s: Settings, states: seq<World>, lives: seq<Life>, i: nat, k: nat, t: Token, x: Intent, report: Report)
    requires LifeRun(s, states, lives)
  {
    && i < k < |states| && x.Token() == t && FilledIn(s, states[i], lives[i], states[i + 1], x, report)
    && forall j | i < j <= k :: PositionOf(states[j], t) == PositionOf(states[k], t)
  }

  // In every state of every clear run: an open position is on the venue of the order that bought it last, which is the
  // DEX or the CEX, and has not changed since.
  lemma {:induction false} OpenVenue(s: Settings, states: seq<World>, lives: seq<Life>, k: nat, t: Token)
    returns (i: nat, x: Intent, report: Report)
    requires ClearRun(s, states, lives) && Fresh(states[0]) && k < |states| && PositionOf(states[k], t).isOpen
    ensures Since(s, states, lives, i, k, t, x, report) && x.Action() == BUY
    ensures PositionOf(states[k], t).venueType == x.VenueType() && x.VenueType() in {DEX, CEX}
    decreases k
  {
    assert k > 0;
    StepPosition(s, states, lives, k - 1, t);
    if FillsToken(s, states[k - 1], lives[k - 1], states[k], t) {
      var y, r :| FilledIn(s, states[k - 1], lives[k - 1], states[k], y, r) && y.Token() == t;
      FilledInPosition(s, states[k - 1], lives[k - 1], states[k], y, r);
      i, x, report := k - 1, y, r;
    } else {
      i, x, report := OpenVenue(s, states, lives, k - 1, t);
    }
  }

  // So an order to sell it names the venue that bought it.
  lemma ExitVenue(s: Settings, states: seq<World>, lives: seq<Life>, k: nat, input: Input, sale: Intent)
    returns (i: nat, x: Intent, report: Report)
    requires ClearRun(s, states, lives) && Fresh(states[0]) && k < |states|
    requires PlanOf(s, states[k], input).intent == Some(sale) && sale.Action() == EXIT
    ensures Since(s, states, lives, i, k, sale.Token(), x, report) && x.Action() == BUY
    ensures sale.VenueType() == x.VenueType() && sale.VenueType() in {DEX, CEX}
  {
    OrderOrigins.PlannedExactly(s, states[k], input);
    i, x, report := OpenVenue(s, states, lives, k, sale.Token());
  }

  // Life i sold the token at this report's time, and that is remembered from then to state k.
  ghost predicate SoldLast(
    s: Settings, states: seq<World>, lives: seq<Life>, i: nat, k: nat, t: Token, x: Intent, report: Report)
    requires LifeRun(s, states, lives)
  {
    && i < k < |states| && x.Token() == t && x.Action() == EXIT
    && FilledIn(s, states[i], lives[i], states[i + 1], x, report)
    && forall j | i < j <= k :: PositionOf(states[j], t).lastExit == Some(report.timestamp)
  }

  ghost predicate SoldIn(s: Settings, w: World, l: Life, w': World, t: Token, x: Intent, report: Report) {
    && FilledIn(s, w, l, w', x, report) && x.Token() == t && x.Action() == EXIT
    && PositionOf(w', t).lastExit == Some(report.timestamp)
  }

  ghost predicate SellsToken(s: Settings, w: World, l: Life, w': World, t: Token) {
    exists x, report :: SoldIn(s, w, l, w', t, x, report)
  }

  // A life keeps the last exit of a token, or sells it.
  lemma ExitStep(s: Settings, w: World, l: Life, w': World, t: Token)
    requires Sound(s, w) && Leads(s, w, l, w') && ClearStart(s, w, l)
    ensures PositionOf(w', t).lastExit == PositionOf(w, t).lastExit || SellsToken(s, w, l, w', t)
  {
    LifePosition(s, w, l, w', t);
    if FillsToken(s, w, l, w', t) {
      var x, report :| FilledIn(s, w, l, w', x, report) && x.Token() == t;
      FillExits(s, w, l, w', t, x, report);
    }
  }

  lemma FillExits(s: Settings, w: World, l: Life, w': World, t: Token, x: Intent, report: Report)
    requires FilledIn(s, w, l, w', x, report) && x.Token() == t
    ensures PositionOf(w', t).lastExit == PositionOf(w, t).lastExit || SoldIn(s, w, l, w', t, x, report)
  {
    FilledInPosition(s, w, l, w', x, report);
  }

  lemma ExitAdvances(s: Settings, states: seq<World>, lives: seq<Life>, k: nat, t: Token)
    requires ClearRun(s, states, lives) && Fresh(states[0]) && k < |lives|
    ensures PositionOf(states[k + 1], t).lastExit == PositionOf(states[k], t).lastExit
      || SellsToken(s, states[k], lives[k], states[k + 1], t)
  {
    LivesSound(s, states, lives, k);
    ExitStep(s, states[k], lives[k], states[k + 1], t);
  }

  // And a remembered exit is the time of the report of the order that sold the token last.
  lemma {:induction false} LastExit(s: Settings, states: seq<World>, lives: seq<Life>, k: nat, t: Token)
    returns (i: nat, x: Intent, report: Report)
    requires ClearRun(s, states, lives) && Fresh(states[0]) && k < |states|
    requires PositionOf(states[k], t).lastExit.Some?
    ensures SoldLast(s, states, lives, i, k, t, x, report)
    decreases k
  {
    assert k > 0;
    ExitAdvances(s, states, lives, k - 1, t);
    if SellsToken(s, states[k - 1], lives[k - 1], states[k], t) {
      var y, r :| SoldIn(s, states[k - 1], lives[k - 1], states[k], t, y, r);
      i, x, report := k - 1, y, r;
    } else {
      i, x, report := LastExit(s, states, lives, k - 1, t);
    }
  }
}
