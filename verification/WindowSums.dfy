// What stored trade windows and buy pressures say about the trades in them, in the trades' own sides, amounts, wallets
// and times.
module WindowSums {
  import opened Schemas
  import opened Ordering
  import opened FeatureStore
  import opened FeatureAggregator
  import opened WindowRows
  import Sums

  function Usd(fs: seq<TradeFact>): real {
    if fs == [] then 0.0 else fs[0].quoteUsd + Usd(fs[1..])
  }

  // Of the pair, and within the minutes of the window that end with it.
  predicate InSpan(f: TradeFact, key: WindowKey) {
    && f.chain == key.chain && f.token == key.token
    && f.observedAt <= key.end && f.observedAt > key.end - key.minutes * 60_000_000
  }

  // The trades of the span on one side, each once.
  ghost predicate Lists(listing: seq<TradeFact>, fs: seq<TradeFact>, key: WindowKey, side: Side) {
    Distinct(listing) && forall f :: f in listing <==> f in fs && InSpan(f, key) && f.side == side
  }

  // The row was last written when every trade of its span had come, and they are no more than a query returns.
  ghost predicate UpToDate(fs: seq<TradeFact>, windows: seq<int>, key: WindowKey, i: nat) {
    && FixedById(fs) && LastTouch(fs, windows, key, i) && !Overtaken(fs, key, i)
    && |Matching(FactTable(fs), key)| <= 5000
  }

  lemma {:induction false} OneSide(listing: seq<TradeFact>, side: Side, of: Side)
    requires forall f | f in listing :: f.side == of
    ensures Sums.Sum(listing, SideUsd(side)) == if side == of then Usd(listing) else 0.0
  {
    if listing != [] {
      assert listing[0] in listing;
      OneSide(listing[1..], side, of);
    }
  }

  lemma BothSides(buys: seq<TradeFact>, sells: seq<TradeFact>)
    requires (forall f | f in buys :: f.side == BuySide) && (forall f | f in sells :: f.side == SellSide)
    ensures RowOf(buys + sells).buyUsd == Usd(buys) && RowOf(buys + sells).sellUsd == Usd(sells)
    ensures RowOf(buys + sells).tradeCount == |buys| + |sells|
  {
    Sums.SumSplit(buys, sells, SideUsd(BuySide));
    Sums.SumSplit(buys, sells, SideUsd(SellSide));
    OneSide(buys, BuySide, BuySide);
    OneSide(sells, BuySide, SellSide);
    OneSide(buys, SellSide, BuySide);
    OneSide(sells, SellSide, SellSide);
  }

  lemma DistinctConcat(buys: seq<TradeFact>, sells: seq<TradeFact>)
    requires Distinct(buys) && Distinct(sells) && forall f, g | f in buys && g in sells :: f != g
    ensures Distinct(buys + sells)
  {
    forall i, j | 0 <= i < j < |buys + sells|
      ensures (buys + sells)[i] != (buys + sells)[j]
    {
      if i < |buys| <= j {
        assert (buys + sells)[i] in buys && (buys + sells)[j] in sells;
      }
    }
  }

  lemma SpanMatches(fs: seq<TradeFact>, key: WindowKey, f: TradeFact)
    requires FixedById(fs)
    ensures f in Matching(FactTable(fs), key) <==> f in fs && InSpan(f, key)
  {
    MatchingHas(fs, key, f);
  }

  // The wallets named in these trades.
  function Named(fs: seq<TradeFact>): set<string> {
    set f | f in fs && f.wallet.Some? && f.wallet.value != "" :: f.wallet.value
  }

  lemma ListingMatches(
    fs: seq<TradeFact>, windows: seq<int>, key: WindowKey, i: nat, buys: seq<TradeFact>, sells: seq<TradeFact>)
    requires UpToDate(fs, windows, key, i)
    requires Lists(buys, fs, key, BuySide) && Lists(sells, fs, key, SellSide)
    ensures key in Aggregated(fs, windows).windows && Aggregated(fs, windows).windows[key] == RowOf(buys + sells)
  {
    var facts := FactTable(fs);
    RowAgreesExactly(fs, windows, key, i);
    DistinctConcat(buys, sells);
    forall f: TradeFact
      ensures f in buys + sells <==> f in Matching(facts, key)
    {
      SpanMatches(fs, key, f);
    }
    RebuiltIsAggregate(facts, key, buys + sells);
  }

  // In any arrival order, an up-to-date row holds what was bought and what was sold in its span, how many trades that
  // were and by how many named wallets.
  lemma RowIsSplit(
    fs: seq<TradeFact>, windows: seq<int>, key: WindowKey, i: nat, buys: seq<TradeFact>, sells: seq<TradeFact>)
    requires UpToDate(fs, windows, key, i)
    requires Lists(buys, fs, key, BuySide) && Lists(sells, fs, key, SellSide)
    ensures key in Aggregated(fs, windows).windows
    ensures var row := Aggregated(fs, windows).windows[key];
      && row.buyUsd == Usd(buys) && row.sellUsd == Usd(sells)
      && row.tradeCount == |buys| + |sells| && row.uniqueWallets == |Named(buys + sells)|
  {
    ListingMatches(fs, windows, key, i, buys, sells);
    BothSides(buys, sells);
    assert Named(buys + sells) == Wallets(buys + sells);
  }

  function PartOf(part: real, whole: real): real
    requires whole > 0.0
  {
    part / whole
  }

  lemma PressureOf(row: TradeWindow)
    ensures var p, total := BuyPressure(row), row.buyUsd + row.sellUsd;
      p.sampleCount == row.tradeCount && p.value == if total > 0.0 then PartOf(row.buyUsd, total) else 0.0
  {
  }

  // And the pressure beside it is the bought part of both.
  lemma PressureIsSplit(
    fs: seq<TradeFact>, windows: seq<int>, key: WindowKey, i: nat, buys: seq<TradeFact>, sells: seq<TradeFact>)
    requires UpToDate(fs, windows, key, i)
    requires Lists(buys, fs, key, BuySide) && Lists(sells, fs, key, SellSide)
    ensures key in Aggregated(fs, windows).snapshots
    ensures var pressure, total := Aggregated(fs, windows).snapshots[key], Usd(buys) + Usd(sells);
      && pressure.sampleCount == |buys| + |sells|
      && pressure.value == if total > 0.0 then PartOf(Usd(buys), total) else 0.0
  {
    RowIsSplit(fs, windows, key, i, buys, sells);
    SnapshotsMirrorWindows(fs, windows);
    PressureOf(Aggregated(fs, windows).windows[key]);
  }

  lemma Parts(whole: real)
    requires whole > 0.0
    ensures PartOf(whole, whole) == 1.0 && PartOf(0.0, whole) == 0.0
  {
  }

  // A span with nothing sold has pressure one, and one with nothing bought zero.
  lemma OneSidedPressure(
    fs: seq<TradeFact>, windows: seq<int>, key: WindowKey, i: nat, buys: seq<TradeFact>, sells: seq<TradeFact>)
    requires UpToDate(fs, windows, key, i)
    requires Lists(buys, fs, key, BuySide) && Lists(sells, fs, key, SellSide)
    ensures key in Aggregated(fs, windows).snapshots
    ensures sells == [] && Usd(buys) > 0.0 ==> Aggregated(fs, windows).snapshots[key].value == 1.0
    ensures buys == [] ==> Aggregated(fs, windows).snapshots[key].value == 0.0
  {
    PressureIsSplit(fs, windows, key, i, buys, sells);
    if Usd(buys) + Usd(sells) > 0.0 {
      Parts(Usd(buys) + Usd(sells));
    }
  }

  // --- one more trade ----------------------------------------------------------------------------

  function OfSide(fs: seq<TradeFact>, side: Side): seq<TradeFact> {
    if fs == [] then [] else (if fs[0].side == side then [fs[0]] else []) + OfSide(fs[1..], side)
  }

  lemma {:induction false} OfSideHas(fs: seq<TradeFact>, side: Side, f: TradeFact)
    ensures f in OfSide(fs, side) <==> f in fs && f.side == side
  {
    if fs != [] {
      OfSideHas(fs[1..], side, f);
    }
  }

  lemma {:induction false} OfSideDistinct(fs: seq<TradeFact>, side: Side)
    requires Distinct(fs)
    ensures Distinct(OfSide(fs, side))
  {
    if fs != [] {
      assert forall i | 0 <= i < |fs[1..]| :: fs[1..][i] == fs[i + 1];
      OfSideDistinct(fs[1..], side);
      if fs[0] in OfSide(fs[1..], side) {
        OfSideHas(fs[1..], side, fs[0]);
      }
    }
  }

  // A listing there always is.
  lemma Listed(fs: seq<TradeFact>, key: WindowKey, side: Side) returns (listing: seq<TradeFact>)
    requires FixedById(fs)
    ensures Lists(listing, fs, key, side)
  {
    var items := Matching(FactTable(fs), key);
    var all := Sorted(items, FactRank);
    SortedHas(items, FactRank);
    SortedAscends(items, FactRank);
    listing := OfSide(all, side);
    OfSideDistinct(all, side);
    forall f: TradeFact
      ensures f in listing <==> f in fs && InSpan(f, key) && f.side == side
    {
      OfSideHas(all, side, f);
      SpanMatches(fs, key, f);
    }
  }

  lemma {:induction false} UsdSnoc(fs: seq<TradeFact>, f: TradeFact)
    ensures Usd(fs + [f]) == Usd(fs) + f.quoteUsd
  {
    if fs == [] {
      assert [] + [f] == [f];
      assert Usd([f]) == f.quoteUsd + Usd([f][1..]);
    } else {
      assert (fs + [f])[1..] == fs[1..] + [f];
      UsdSnoc(fs[1..], f);
    }
  }

  lemma ListsMore(listing: seq<TradeFact>, fs: seq<TradeFact>, key: WindowKey, side: Side, f: TradeFact)
    requires Lists(listing, fs, key, side) && f !in fs && InSpan(f, key)
    ensures Lists(if f.side == side then listing + [f] else listing, fs + [f], key, side)
  {
  }

  // One more trade that rewrites an up-to-date row adds its amount to its own side and leaves the other as it was.
  lemma OneMoreTrade(fs: seq<TradeFact>, windows: seq<int>, key: WindowKey, i: nat, f: TradeFact)
    requires UpToDate(fs, windows, key, i) && f !in fs && Touches(f, key, windows) && InSpan(f, key)
    requires UpToDate(fs + [f], windows, key, |fs|)
    ensures key in Aggregated(fs, windows).windows && key in Aggregated(fs + [f], windows).windows
    ensures var before, after := Aggregated(fs, windows).windows[key], Aggregated(fs + [f], windows).windows[key];
      && after.tradeCount == before.tradeCount + 1
      && (f.side == BuySide ==> after.buyUsd == before.buyUsd + f.quoteUsd && after.sellUsd == before.sellUsd)
      && (f.side == SellSide ==> after.sellUsd == before.sellUsd + f.quoteUsd && after.buyUsd == before.buyUsd)
  {
    var buys := Listed(fs, key, BuySide);
    var sells := Listed(fs, key, SellSide);
    ListsMore(buys, fs, key, BuySide, f);
    ListsMore(sells, fs, key, SellSide, f);
    UsdSnoc(buys, f);
    UsdSnoc(sells, f);
    RowIsSplit(fs, windows, key, i, buys, sells);
    RowIsSplit(
      fs + [f], windows, key, |fs|, if f.side == BuySide then buys + [f] else buys,
      if f.side == SellSide then sells + [f] else sells);
  }
}
