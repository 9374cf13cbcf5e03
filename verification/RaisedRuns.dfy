// What it comes to when one recovery applies orders that were each sized without the others: the exposure ceiling, the
// maximum of positions, and the agreement of positions and portfolio.
module RaisedRuns {
  import opened Schemas
  import opened World
  import opened Pipeline
  import opened OrderLifecycle
  import opened Books
  import opened CrashRecovery
  import opened CrashWindows
  import opened Lives
  import opened AgreementRuns
  import opened BookRuns
  import opened Backlogs
  import opened Repayments
  import opened Sums
  import Reconciler

  // --- the ceiling -------------------------------------------------------------------------------

  function Spend(totalUsd: real): Fill -> real { (f: Fill) => Reconciler.Fraction(f.executedUsd, totalUsd) }

  // The portfolio after spending this on so many purchases.
  function Spent(p: Portfolio, spent: real, slots: int): Portfolio {
    p.(tokenExposure := p.tokenExposure + spent, chainExposure := p.chainExposure + spent,
       openPositions := p.openPositions + slots)
  }

  predicate AllBuys(fills: seq<Fill>) { forall f | f in fills :: f.intent.Action() == BUY }

  lemma {:induction false} BoughtPortfolio(w: World, fills: seq<Fill>, t: Token, spend: Fill -> real)
    requires AllBuys(fills) && spend == Spend(PortfolioOf(w).totalUsd)
    ensures BookAfter(w, fills, t).portfolio == Spent(PortfolioOf(w), Sum(fills, spend), |fills|)
    decreases |fills|
  {
    if fills != [] {
      var n := |fills| - 1;
      BoughtPortfolio(w, fills[..n], t, spend);
      assert fills == fills[..n] + [fills[n]];
      SumSnoc(fills[..n], fills[n], spend);
      PortfolioAlone(BookAfter(w, fills[..n], t), PositionOf(w, t), fills[n]);
    }
  }

  // Purchases and sales as they are routed: nothing negative is bought, and nothing is asked for when selling.
  predicate AllRouted(fills: seq<Fill>) {
    forall f | f in fills ::
      || (f.intent.Action() == BUY && f.executedUsd >= 0.0)
      || (f.intent.Action() == EXIT && f.executedUsd == 0.0)
  }

  lemma {:induction false} RoutedExposure(w: World, fills: seq<Fill>, t: Token, spend: Fill -> real)
    requires AllRouted(fills) && spend == Spend(PortfolioOf(w).totalUsd) && PortfolioOf(w).totalUsd > 0.0
    requires PortfolioOf(w).tokenExposure >= 0.0 && PortfolioOf(w).chainExposure >= 0.0
    ensures Sum(fills, spend) >= 0.0
    ensures var p, q := PortfolioOf(w), BookAfter(w, fills, t).portfolio;
      && q.totalUsd == p.totalUsd
      && q.tokenExposure == p.tokenExposure + Sum(fills, spend)
      && q.chainExposure == p.chainExposure + Sum(fills, spend)
    decreases |fills|
  {
    if fills != [] {
      var n := |fills| - 1;
      RoutedExposure(w, fills[..n], t, spend);
      assert fills == fills[..n] + [fills[n]];
      SumSnoc(fills[..n], fills[n], spend);
      SpentPart(BookAfter(w, fills[..n], t), fills[n]);
    }
  }

  lemma SpentPart(b: Reconciler.Book, f: Fill)
    requires AllRouted([f]) && b.portfolio.totalUsd > 0.0
    requires b.portfolio.tokenExposure >= 0.0 && b.portfolio.chainExposure >= 0.0
    ensures Spend(b.portfolio.totalUsd)(f) >= 0.0
    ensures var p, q := b.portfolio, Filled(b, f).portfolio;
      && q.totalUsd == p.totalUsd
      && q.tokenExposure == p.tokenExposure + Spend(p.totalUsd)(f)
      && q.chainExposure == p.chainExposure + Spend(p.totalUsd)(f)
  {
    assert f in [f];
  }

  function TokensOf(fills: seq<Fill>): set<Token> { set f | f in fills :: f.intent.Token() }

  lemma Reordered(found: seq<Fill>, owed: seq<Fill>, spend: Fill -> real)
    requires multiset(found) == multiset(owed)
    ensures |found| == |owed| && Sum(found, spend) == Sum(owed, spend) && TokensOf(found) == TokensOf(owed)
    ensures AllBuys(found) <==> AllBuys(owed)
    ensures AllRouted(found) <==> AllRouted(owed)
  {
    SumOrderFree(found, owed, spend);
    assert |found| == |multiset(found)| == |owed|;
    assert forall f :: f in found <==> f in multiset(found);
    assert forall f :: f in owed <==> f in multiset(owed);
  }

  // When a backlog is applied, the ceiling holds exactly if all of it fits under it together; risk has looked at
  // each fill alone.
  lemma BacklogCeilingExactly(s: Settings, v: World, owed: seq<Fill>, w': World)
    requires Repaid(v, w', owed) && AllRouted(owed)
    requires WithinCeiling(s, PortfolioOf(v)) && PortfolioOf(v).tokenExposure >= 0.0
    ensures var p, q := PortfolioOf(v), PortfolioOf(w');
      && q.tokenExposure == p.tokenExposure + Sum(owed, Spend(p.totalUsd))
      && (WithinCeiling(s, q) <==>
            p.tokenExposure + Sum(owed, Spend(p.totalUsd)) <= ExposureCap(s) + Overshoot(p.totalUsd))
  {
    var found :| multiset(found) == multiset(owed) && AppliedAll(v, w', found);
    var spend, t := Spend(PortfolioOf(v).totalUsd), "";
    Reordered(found, owed, spend);
    RoutedExposure(v, found, t, spend);
    assert BookOf(w', t) == BookAfter(v, found, t);
  }

  // --- agreement ---------------------------------------------------------------------------------

  predicate DistinctTokens(fills: seq<Fill>) {
    forall i, j | 0 <= i < j < |fills| :: fills[i].intent.Token() != fills[j].intent.Token()
  }

  lemma TokensSnoc(fills: seq<Fill>, f: Fill)
    ensures TokensOf(fills + [f]) == TokensOf(fills) + {f.intent.Token()}
  {
  }

  lemma {:induction false} CountTokens(fills: seq<Fill>)
    ensures |TokensOf(fills)| <= |fills|
    ensures |TokensOf(fills)| == |fills| <==> DistinctTokens(fills)
    decreases |fills|
  {
    if fills != [] {
      var n := |fills| - 1;
      CountTokens(fills[..n]);
      assert fills == fills[..n] + [fills[n]];
      TokensSnoc(fills[..n], fills[n]);
      if fills[n].intent.Token() in TokensOf(fills[..n]) {
        var f :| f in fills[..n] && f.intent.Token() == fills[n].intent.Token();
        var i :| 0 <= i < n && fills[i] == f;
      }
    }
  }

  lemma {:induction false} BoughtPosition(w: World, fills: seq<Fill>, t: Token)
    requires AllBuys(fills)
    ensures BookAfter(w, fills, t).position.isOpen <==> PositionOf(w, t).isOpen || t in TokensOf(fills)
    ensures t !in TokensOf(fills) ==> BookAfter(w, fills, t).position == PositionOf(w, t)
    decreases |fills|
  {
    if fills != [] {
      var n := |fills| - 1;
      BoughtPosition(w, fills[..n], t);
      assert fills == fills[..n] + [fills[n]];
      TokensSnoc(fills[..n], fills[n]);
    }
  }

  lemma BoughtOpen(w: World, w': World, fills: seq<Fill>)
    requires AllBuys(fills) && AppliedAll(w, w', fills)
    ensures OpenTokens(w') == OpenTokens(w) + TokensOf(fills)
    ensures forall t: Token | t !in TokensOf(fills) :: PositionOf(w', t) == PositionOf(w, t)
  {
    forall t: Token
      ensures t in OpenTokens(w') <==> t in OpenTokens(w) + TokensOf(fills)
      ensures t !in TokensOf(fills) ==> PositionOf(w', t) == PositionOf(w, t)
    {
      BoughtPosition(w, fills, t);
      OpenRead(w, t);
      OpenRead(w', t);
      assert BookOf(w', t) == BookAfter(w, fills, t);
    }
  }

  // A backlog of purchases: the counter grows by their number, the open positions by their tokens that were closed.
  lemma BacklogBought(v: World, owed: seq<Fill>, w': World)
    requires Repaid(v, w', owed) && AllBuys(owed)
    ensures var p := PortfolioOf(v);
      && PortfolioOf(w') == Spent(p, Sum(owed, Spend(p.totalUsd)), |owed|)
      && OpenTokens(w') == OpenTokens(v) + TokensOf(owed)
      && forall t: Token | t !in TokensOf(owed) :: PositionOf(w', t) == PositionOf(v, t)
  {
    var found :| multiset(found) == multiset(owed) && AppliedAll(v, w', found);
    var spend, t := Spend(PortfolioOf(v).totalUsd), "";
    Reordered(found, owed, spend);
    BoughtPortfolio(v, found, t, spend);
    BoughtOpen(v, w', found);
    assert BookOf(w', t) == BookAfter(v, found, t);
  }

  // Then positions and portfolio agree exactly if the purchases are of different tokens, all of them closed before, and
  // fit under the maximum together.
  lemma BacklogAgreesExactly(s: Settings, v: World, owed: seq<Fill>, w': World)
    requires Repaid(v, w', owed) && AllBuys(owed) && Agrees(s, v)
    ensures Agrees(s, w') <==>
      && DistinctTokens(owed)
      && (forall f | f in owed :: !PositionOf(v, f.intent.Token()).isOpen)
      && PortfolioOf(v).openPositions + |owed| <= PositionCap(s)
  {
    var held, tokens := OpenTokens(v), TokensOf(owed);
    BacklogBought(v, owed, w');
    CountTokens(owed);
    assert |held + tokens| == |held| + |tokens| - |held * tokens|;
    assert |held * tokens| == 0 <==> forall f | f in owed :: !PositionOf(v, f.intent.Token()).isOpen by {
      AllClosed(v, owed);
    }
    forall t: Token | !PositionOf(w', t).isOpen
      ensures PositionOf(w', t).exposure == 0.0
    {
      OpenRead(w', t);
    }
  }

  lemma AllClosed(v: World, fills: seq<Fill>)
    ensures OpenTokens(v) * TokensOf(fills) == {} <==> forall f | f in fills :: !PositionOf(v, f.intent.Token()).isOpen
  {
    forall f | f in fills
      ensures f.intent.Token() in TokensOf(fills)
      ensures PositionOf(v, f.intent.Token()).isOpen <==> f.intent.Token() in OpenTokens(v) * TokensOf(fills)
    {
      OpenRead(v, f.intent.Token());
    }
  }

  // --- batches that raise in a row ---------------------------------------------------------------

  // Nothing but such batches since the last recovery.
  ghost predicate RaisedInARow(s: Settings, states: seq<World>, lives: seq<Life>) {
    && LifeRun(s, states, lives) && Steady(s, states[0])
    && forall i | 0 <= i < |lives| :: LeftFill(s, states[i], lives[i]) != []
  }

  lemma LeftKeepsBook(s: Settings, w: World, l: Life, w': World)
    requires Sound(s, w) && Leads(s, w, l, w') && LeftFill(s, w, l) != []
    ensures SameBook(w, w') && Permits(s, w, l.input, LeftFill(s, w, l)[0].intent)
  {
    var x := PlanOf(s, w, l.input).intent.value;
    var report := ExecuteResult(s, x, l.input.adapter, AttemptsOf(w, x.id)).value;
    assert Fills(s, w, l.input, x, report);
    FilledBookBefore(s, w, l.input, x, report, l.cut);
  }

  lemma {:induction false} RowKeepsBook(s: Settings, states: seq<World>, lives: seq<Life>, k: nat)
    requires RaisedInARow(s, states, lives) && k <= |lives|
    ensures Sound(s, states[k]) && SameBook(states[0], states[k])
    ensures |Backlog(s, states, lives, k)| == k
    decreases k
  {
    if k > 0 {
      RowKeepsBook(s, states, lives, k - 1);
      LifeSound(s, states[k - 1], lives[k - 1], states[k]);
      LeftKeepsBook(s, states[k - 1], lives[k - 1], states[k]);
    }
  }

  // Each of them is decided and sized on the portfolio that the first one saw ...
  lemma SameHeadroom(s: Settings, states: seq<World>, lives: seq<Life>, k: nat)
    requires RaisedInARow(s, states, lives) && k < |lives|
    ensures PlanOf(s, states[k], lives[k].input).portfolio == PortfolioOf(states[0])
  {
    RowKeepsBook(s, states, lives, k);
  }

  predicate BuysClosed(w: World, fills: seq<Fill>) {
    forall f | f in fills && f.intent.Action() == BUY :: !PositionOf(w, f.intent.Token()).isOpen
  }

  lemma LeftClosed(s: Settings, first: World, w: World, l: Life, w': World)
    requires Sound(s, w) && Leads(s, w, l, w') && LeftFill(s, w, l) != [] && s.enforcePositionPreflight
    requires SameBook(first, w)
    ensures BuysClosed(first, LeftFill(s, w, l))
  {
    LeftKeepsBook(s, w, l, w');
    PermittedActions(s, w, l.input, LeftFill(s, w, l)[0].intent);
  }

  lemma ClosedConcat(w: World, a: seq<Fill>, b: seq<Fill>)
    requires BuysClosed(w, a) && BuysClosed(w, b)
    ensures BuysClosed(w, a + b)
  {
  }

  // ... and with position preflight on, a purchase is of a token that is closed in it.
  lemma {:induction false} RowClosed(s: Settings, states: seq<World>, lives: seq<Life>, k: nat)
    requires RaisedInARow(s, states, lives) && k <= |lives| && s.enforcePositionPreflight
    ensures BuysClosed(states[0], Backlog(s, states, lives, k))
    decreases k
  {
    if k > 0 {
      RowClosed(s, states, lives, k - 1);
      RowKeepsBook(s, states, lives, k - 1);
      LeftClosed(s, states[0], states[k - 1], lives[k - 1], states[k]);
      ClosedConcat(states[0], Backlog(s, states, lives, k - 1), LeftFill(s, states[k - 1], lives[k - 1]));
    }
  }

  lemma RowOnward(s: Settings, states: seq<World>, lives: seq<Life>)
    requires RaisedInARow(s, states, lives)
    ensures Stretch(s, states, lives)
  {
    forall i | 0 <= i < |lives|
      ensures Onward(s, states[i], lives[i])
    {
      assert LeftFill(s, states[i], lives[i]) != [];
    }
  }

  lemma RaisedTotals(s: Settings, states: seq<World>, lives: seq<Life>, r: Revival, w': World)
    requires RaisedInARow(s, states, lives) && Revives(s, states[|lives|], r, w')
    requires AllBuys(Backlog(s, states, lives, |lives|))
    ensures var owed, p := Backlog(s, states, lives, |lives|), PortfolioOf(states[0]);
      && PortfolioOf(w') == Spent(p, Sum(owed, Spend(p.totalUsd)), |lives|)
      && OpenTokens(w') == OpenTokens(states[0]) + TokensOf(owed)
  {
    var v, owed := states[|lives|], Backlog(s, states, lives, |lives|);
    RowOnward(s, states, lives);
    BacklogRecovered(s, states, lives, r, w');
    RowKeepsBook(s, states, lives, |lives|);
    BacklogBought(v, owed, w');
    SameOpen(states[0], v);
  }

  lemma RaisedAgreement(s: Settings, states: seq<World>, lives: seq<Life>, r: Revival, w': World)
    requires RaisedInARow(s, states, lives) && Revives(s, states[|lives|], r, w')
    requires AllBuys(Backlog(s, states, lives, |lives|)) && Agrees(s, states[0]) && s.enforcePositionPreflight
    ensures var owed, p := Backlog(s, states, lives, |lives|), PortfolioOf(states[0]);
      Agrees(s, w') <==> DistinctTokens(owed) && p.openPositions + |lives| <= PositionCap(s)
  {
    var v, owed := states[|lives|], Backlog(s, states, lives, |lives|);
    RowOnward(s, states, lives);
    BacklogRecovered(s, states, lives, r, w');
    RowKeepsBook(s, states, lives, |lives|);
    RowClosed(s, states, lives, |lives|);
    SameAgrees(s, states[0], v);
    BacklogAgreesExactly(s, v, owed, w');
  }

  // Portfolio, open tokens, ceiling and agreement once recovery has entered these purchases.
  ghost predicate Entered(s: Settings, w: World, recovered: World, owed: seq<Fill>) {
    var p := PortfolioOf(w);
    var spent := Sum(owed, Spend(p.totalUsd));
    && PortfolioOf(recovered) == Spent(p, spent, |owed|)
    && OpenTokens(recovered) == OpenTokens(w) + TokensOf(owed)
    && (WithinCeiling(s, p) ==>
          (WithinCeiling(s, PortfolioOf(recovered)) <==>
            p.tokenExposure + spent <= ExposureCap(s) + Overshoot(p.totalUsd)))
    && (Agrees(s, w) && s.enforcePositionPreflight ==>
          (Agrees(s, recovered) <==> DistinctTokens(owed) && p.openPositions + |owed| <= PositionCap(s)))
  }

  // Any number of purchases raised in a row from a state with nothing to recover: one recovery later, however often it
  // dies, the portfolio holds all of them. The ceiling holds exactly if together they fit under it, and, with position
  // preflight on, positions and portfolio agree exactly if they are of different tokens and together fit under the
  // maximum.
  lemma RaisedPurchases(s: Settings, states: seq<World>, lives: seq<Life>, r: Revival, w': World)
    requires RaisedInARow(s, states, lives) && Revives(s, states[|lives|], r, w')
    requires AllBuys(Backlog(s, states, lives, |lives|))
    ensures Steady(s, w') && Entered(s, states[0], w', Backlog(s, states, lives, |lives|))
  {
    RowKeepsBook(s, states, lives, |lives|);
    RevivalQuiesces(s, states[|lives|], r, w');
    RaisedTotals(s, states, lives, r, w');
    if Agrees(s, states[0]) && s.enforcePositionPreflight {
      RaisedAgreement(s, states, lives, r, w');
    }
  }

  // The batch fills a purchase, and its exception comes after the report is stored and before the ledger is closed.
  ghost predicate RaisesWith(s: Settings, w: World, l: Life, x: Intent, report: Report) {
    && l.Raised? && Fills(s, w, l.input, x, report) && report.status == FILLED && x.Action() == BUY
    && OpenLedger(w, x.id) && |Opening(s, w, l.input, x)| <= l.cut <= |Opening(s, w, l.input, x)| + 3
  }

  lemma RaisesLeaves(s: Settings, w: World, l: Life, w': World, x: Intent, report: Report)
    requires Leads(s, w, l, w') && RaisesWith(s, w, l, x, report)
    ensures LeftFill(s, w, l) == [FillFrom(x, report)]
  {
  }

  lemma PairFills(f: Fill, g: Fill)
    ensures TokensOf([f, g]) == {f.intent.Token(), g.intent.Token()}
    ensures DistinctTokens([f, g]) <==> f.intent.Token() != g.intent.Token()
    ensures AllBuys([f, g]) <==> f.intent.Action() == BUY && g.intent.Action() == BUY
  {
    assert [f, g][0] == f && [f, g][1] == g;
  }

  lemma PairBacklog(s: Settings, states: seq<World>, lives: seq<Life>, f: Fill, g: Fill)
    requires |states| == 3 && |lives| == 2
    requires LeftFill(s, states[0], lives[0]) == [f] && LeftFill(s, states[1], lives[1]) == [g]
    ensures Backlog(s, states, lives, 2) == [f, g]
  {
    assert Backlog(s, states, lives, 1) == [] + [f];
  }

  lemma PairInARow(
    s: Settings, w: World, a: Life, x: Intent, rx: Report, w1: World, b: Life, y: Intent, ry: Report, w2: World)
    requires Steady(s, w) && Leads(s, w, a, w1) && RaisesWith(s, w, a, x, rx)
    requires Leads(s, w1, b, w2) && RaisesWith(s, w1, b, y, ry)
    ensures RaisedInARow(s, [w, w1, w2], [a, b])
    ensures Backlog(s, [w, w1, w2], [a, b], 2) == [FillFrom(x, rx), FillFrom(y, ry)]
  {
    RaisesLeaves(s, w, a, w1, x, rx);
    RaisesLeaves(s, w1, b, w2, y, ry);
    PairBacklog(s, [w, w1, w2], [a, b], FillFrom(x, rx), FillFrom(y, ry));
  }

  // The same for two of them.
  ghost predicate BothEntered(s: Settings, w: World, recovered: World, f: Fill, g: Fill) {
    var p := PortfolioOf(w);
    var both := Spend(p.totalUsd)(f) + Spend(p.totalUsd)(g);
    && PortfolioOf(recovered) == Spent(p, both, 2)
    && OpenTokens(recovered) == OpenTokens(w) + {f.intent.Token(), g.intent.Token()}
    && (WithinCeiling(s, p) ==>
          (WithinCeiling(s, PortfolioOf(recovered)) <==>
            p.tokenExposure + both <= ExposureCap(s) + Overshoot(p.totalUsd)))
    && (Agrees(s, w) && s.enforcePositionPreflight ==>
          (Agrees(s, recovered) <==>
            f.intent.Token() != g.intent.Token() && p.openPositions + 2 <= PositionCap(s)))
  }

  lemma PairEntered(s: Settings, w: World, recovered: World, f: Fill, g: Fill)
    requires Entered(s, w, recovered, [f, g])
    ensures BothEntered(s, w, recovered, f, g)
  {
    PairFills(f, g);
    SumPair(f, g, Spend(PortfolioOf(w).totalUsd));
  }

  // Two of them: both are sized on the portfolio that neither has entered, and one recovery enters both.
  lemma TwoRaisedPurchases(
    s: Settings, w: World, a: Life, x: Intent, rx: Report, w1: World, b: Life, y: Intent, ry: Report, w2: World,
    r: Revival, w': World)
    requires Steady(s, w) && Leads(s, w, a, w1) && RaisesWith(s, w, a, x, rx)
    requires Leads(s, w1, b, w2) && RaisesWith(s, w1, b, y, ry) && Revives(s, w2, r, w')
    ensures PlanOf(s, w1, b.input).portfolio == PortfolioOf(w)
    ensures BothEntered(s, w, w', FillFrom(x, rx), FillFrom(y, ry))
  {
    var states, lives := [w, w1, w2], [a, b];
    PairInARow(s, w, a, x, rx, w1, b, y, ry, w2);
    PairFills(FillFrom(x, rx), FillFrom(y, ry));
    SameHeadroom(s, states, lives, 1);
    RaisedPurchases(s, states, lives, r, w');
    PairEntered(s, w, w', FillFrom(x, rx), FillFrom(y, ry));
  }
}
