// Stored trade windows against recomputation: which rows are what a from-scratch aggregate over the final facts
// gives, for trades arriving in any order.
module WindowRows {
  import opened Schemas
  import opened Ordering
  import opened FeatureStore
  import opened FeatureAggregator
  import Sums

  // --- the tables after a list of trades ---------------------------------------------------------

  ghost function Aggregated(fs: seq<TradeFact>, windows: seq<int>): TradeTables {
    FeedTrades(NO_TRADES, fs, windows)
  }

  ghost function FactTable(fs: seq<TradeFact>): map<string, TradeFact> {
    if fs == [] then map[] else FactTable(fs[..|fs| - 1])[fs[|fs| - 1].tradeId := fs[|fs| - 1]]
  }

  // The content of a trade is fixed by its id.
  ghost predicate FixedById(fs: seq<TradeFact>) {
    forall i, j | 0 <= i < |fs| && 0 <= j < |fs| && fs[i].tradeId == fs[j].tradeId :: fs[i] == fs[j]
  }

  ghost predicate InOrder(fs: seq<TradeFact>) {
    forall i, j | 0 <= i < j < |fs| :: fs[i].observedAt <= fs[j].observedAt
  }

  // Ingesting f rewrites the row of this window.
  predicate Touches(f: TradeFact, key: WindowKey, windows: seq<int>) {
    key.minutes in windows && key == KeyAt(f, key.minutes)
  }

  // Trade i is the last of fs to rewrite the row.
  ghost predicate LastTouch(fs: seq<TradeFact>, windows: seq<int>, key: WindowKey, i: nat) {
    && i < |fs| && Touches(fs[i], key, windows)
    && forall j | i < j < |fs| :: !Touches(fs[j], key, windows)
  }

  ghost predicate Mirrored(t: TradeTables) {
    && t.snapshots.Keys == t.windows.Keys
    && forall key | key in t.windows :: t.snapshots[key] == BuyPressure(t.windows[key])
  }

  // How the step from t to t' treats one row.
  ghost predicate RowStep(t: TradeTables, t': TradeTables, key: WindowKey, touched: bool) {
    && t'.facts == t.facts
    && (key in t'.windows <==> key in t.windows || touched)
    && (touched ==> t'.windows[key] == Rebuilt(t.facts, key))
    && (!touched && key in t.windows ==> t'.windows[key] == t.windows[key])
  }

  lemma RowStepTwice(t: TradeTables, t': TradeTables, t'': TradeTables, key: WindowKey, a: bool, b: bool)
    requires RowStep(t, t', key, a) && RowStep(t', t'', key, b)
    ensures RowStep(t, t'', key, a || b)
  {
  }

  lemma RefreshedOnce(t: TradeTables, f: TradeFact, minutes: int, key: WindowKey)
    ensures RowStep(t, Refreshed(t, f, minutes), key, key == KeyAt(f, minutes))
  {
  }

  lemma TouchesSplit(f: TradeFact, key: WindowKey, windows: seq<int>, last: int)
    ensures Touches(f, key, windows + [last]) <==> Touches(f, key, windows) || key == KeyAt(f, last)
  {
  }

  lemma {:induction false} RefreshedRow(t: TradeTables, f: TradeFact, windows: seq<int>, key: WindowKey)
    ensures RowStep(t, RefreshedAll(t, f, windows), key, Touches(f, key, windows))
    decreases |windows|
  {
    if windows != [] {
      var rest, last := windows[..|windows| - 1], windows[|windows| - 1];
      var t' := RefreshedAll(t, f, rest);
      assert windows == rest + [last];
      TouchesSplit(f, key, rest, last);
      RefreshedRow(t, f, rest, key);
      RefreshedOnce(t', f, last, key);
      RowStepTwice(t, t', Refreshed(t', f, last), key, Touches(f, key, rest), key == KeyAt(f, last));
    }
  }

  lemma {:induction false} RefreshedMirrors(t: TradeTables, f: TradeFact, windows: seq<int>)
    requires Mirrored(t)
    ensures Mirrored(RefreshedAll(t, f, windows))
    decreases |windows|
  {
    if windows != [] {
      RefreshedMirrors(t, f, windows[..|windows| - 1]);
    }
  }

  lemma {:induction false} AggregatedFacts(fs: seq<TradeFact>, windows: seq<int>)
    ensures Aggregated(fs, windows).facts == FactTable(fs)
    decreases |fs|
  {
    if fs != [] {
      var n := |fs| - 1;
      AggregatedFacts(fs[..n], windows);
      RefreshedFacts(fs, windows);
    }
  }

  lemma RefreshedFacts(fs: seq<TradeFact>, windows: seq<int>)
    requires fs != []
    ensures Aggregated(fs, windows).facts
      == Aggregated(fs[..|fs| - 1], windows).facts[fs[|fs| - 1].tradeId := fs[|fs| - 1]]
  {
    var n := |fs| - 1;
    var t := Aggregated(fs[..n], windows);
    RefreshedRow(t.(facts := t.facts[fs[n].tradeId := fs[n]]), fs[n], windows, KeyAt(fs[n], 0));
  }

  // Each buy-pressure snapshot is the pressure of the window row beside it.
  lemma {:induction false} SnapshotsMirrorWindows(fs: seq<TradeFact>, windows: seq<int>)
    ensures Mirrored(Aggregated(fs, windows))
    decreases |fs|
  {
    if fs != [] {
      var n := |fs| - 1;
      SnapshotsMirrorWindows(fs[..n], windows);
      var t := Aggregated(fs[..n], windows);
      RefreshedMirrors(t.(facts := t.facts[fs[n].tradeId := fs[n]]), fs[n], windows);
    }
  }

  // What one more trade does to one row.
  lemma StepRow(fs: seq<TradeFact>, windows: seq<int>, key: WindowKey)
    requires fs != []
    ensures var n := |fs| - 1;
      var t, t' := Aggregated(fs[..n], windows), Aggregated(fs, windows);
      && (key in t'.windows <==> key in t.windows || Touches(fs[n], key, windows))
      && (Touches(fs[n], key, windows) ==> t'.windows[key] == Rebuilt(FactTable(fs), key))
      && (!Touches(fs[n], key, windows) && key in t.windows ==> t'.windows[key] == t.windows[key])
  {
    var n := |fs| - 1;
    var t := Aggregated(fs[..n], windows);
    AggregatedFacts(fs[..n], windows);
    RefreshedRow(t.(facts := t.facts[fs[n].tradeId := fs[n]]), fs[n], windows, key);
  }

  ghost predicate Touched(fs: seq<TradeFact>, windows: seq<int>, key: WindowKey) {
    exists f :: f in fs && Touches(f, key, windows)
  }

  // In any arrival order, a row is there exactly if some trade fell into the window's last minute.
  lemma {:induction false} RowPresent(fs: seq<TradeFact>, windows: seq<int>, key: WindowKey)
    ensures key in Aggregated(fs, windows).windows <==> Touched(fs, windows, key)
    decreases |fs|
  {
    if fs != [] {
      var n := |fs| - 1;
      RowPresent(fs[..n], windows, key);
      StepRow(fs, windows, key);
      assert fs == fs[..n] + [fs[n]];
    }
  }

  lemma {:induction false} LastTouchExists(fs: seq<TradeFact>, windows: seq<int>, key: WindowKey) returns (i: nat)
    requires Touched(fs, windows, key)
    ensures LastTouch(fs, windows, key, i)
    decreases |fs|
  {
    var n := |fs| - 1;
    if Touches(fs[n], key, windows) {
      i := n;
    } else {
      assert fs == fs[..n] + [fs[n]];
      i := LastTouchExists(fs[..n], windows, key);
    }
  }

  // In any arrival order, the row is the aggregate over the facts that were there when the last such trade came.
  lemma {:induction false} RowIsLastTouch(fs: seq<TradeFact>, windows: seq<int>, key: WindowKey, i: nat)
    requires LastTouch(fs, windows, key, i)
    ensures key in Aggregated(fs, windows).windows
    ensures Aggregated(fs, windows).windows[key] == Rebuilt(FactTable(fs[..i + 1]), key)
    decreases |fs|
  {
    var n := |fs| - 1;
    StepRow(fs, windows, key);
    if i < n {
      RowIsLastTouch(fs[..n], windows, key, i);
      assert fs[..n][..i + 1] == fs[..i + 1];
    } else {
      assert fs[..i + 1] == fs;
    }
  }

  // --- the facts ---------------------------------------------------------------------------------

  lemma {:induction false} FactTableHas(fs: seq<TradeFact>, f: TradeFact)
    requires FixedById(fs)
    ensures f.tradeId in FactTable(fs) && FactTable(fs)[f.tradeId] == f <==> f in fs
    decreases |fs|
  {
    if fs != [] {
      var n := |fs| - 1;
      FactTableHas(fs[..n], f);
      assert fs == fs[..n] + [fs[n]];
    }
  }

  lemma {:induction false} FactTableKeyed(fs: seq<TradeFact>)
    ensures forall id | id in FactTable(fs) :: FactTable(fs)[id].tradeId == id
    decreases |fs|
  {
    if fs != [] {
      FactTableKeyed(fs[..|fs| - 1]);
    }
  }

  lemma MatchingHas(fs: seq<TradeFact>, key: WindowKey, f: TradeFact)
    requires FixedById(fs)
    ensures f in Matching(FactTable(fs), key) <==> f in fs && InWindow(f, key)
  {
    FactTableHas(fs, f);
    FactTableKeyed(fs);
  }

  // A trade of the window's span that arrived after the last rewrite and was not known before it.
  ghost predicate Missed(fs: seq<TradeFact>, key: WindowKey, i: nat, j: nat)
  {
    i < j < |fs| && InWindow(fs[j], key) && fs[j] !in fs[..i + 1]
  }

  ghost predicate Overtaken(fs: seq<TradeFact>, key: WindowKey, i: nat) {
    exists j: nat :: Missed(fs, key, i, j)
  }

  lemma PrefixFixed(fs: seq<TradeFact>, i: nat)
    requires FixedById(fs) && i <= |fs|
    ensures FixedById(fs[..i])
  {
  }

  lemma MatchingGrows(fs: seq<TradeFact>, key: WindowKey, i: nat)
    requires FixedById(fs) && i < |fs|
    ensures Matching(FactTable(fs[..i + 1]), key) <= Matching(FactTable(fs), key)
    ensures Matching(FactTable(fs[..i + 1]), key) == Matching(FactTable(fs), key) <==> !Overtaken(fs, key, i)
  {
    var was, now := Matching(FactTable(fs[..i + 1]), key), Matching(FactTable(fs), key);
    PrefixFixed(fs, i + 1);
    forall f: TradeFact
      ensures f in was <==> f in fs[..i + 1] && InWindow(f, key)
      ensures f in now <==> f in fs && InWindow(f, key)
    {
      MatchingHas(fs[..i + 1], key, f);
      MatchingHas(fs, key, f);
    }
    MissedOnes(fs, key, i, was, now);
  }

  lemma MissedOnes(fs: seq<TradeFact>, key: WindowKey, i: nat, was: set<TradeFact>, now: set<TradeFact>)
    requires i < |fs|
    requires forall f: TradeFact :: f in was <==> f in fs[..i + 1] && InWindow(f, key)
    requires forall f: TradeFact :: f in now <==> f in fs && InWindow(f, key)
    ensures was <= now && (was == now <==> !Overtaken(fs, key, i))
  {
    if j: nat :| Missed(fs, key, i, j) {
      assert fs[j] in now && fs[j] !in was;
    } else {
      forall f | f in now
        ensures f in was
      {
        var j: nat :| j < |fs| && fs[j] == f;
        assert !Missed(fs, key, i, j);
        assert j <= i ==> fs[..i + 1][j] == f;
      }
    }
  }

  // --- when a row agrees with recomputation ------------------------------------------------------

  lemma {:induction false} SubsetCard<T>(a: set<T>, b: set<T>)
    requires a <= b
    ensures |a| <= |b| && (|a| == |b| ==> a == b)
  {
    if a != {} {
      var x :| x in a;
      SubsetCard(a - {x}, b - {x});
    }
  }

  lemma RebuiltCount(facts: map<string, TradeFact>, key: WindowKey)
    requires |Matching(facts, key)| <= FACT_LIMIT
    ensures Rebuilt(facts, key).tradeCount == |Matching(facts, key)|
  {
  }

  lemma SameQuery(a: map<string, TradeFact>, b: map<string, TradeFact>, key: WindowKey)
    requires Matching(a, key) == Matching(b, key)
    ensures Rebuilt(a, key) == Rebuilt(b, key)
  {
  }

  lemma RebuiltDiffers(a: map<string, TradeFact>, b: map<string, TradeFact>, key: WindowKey)
    requires Matching(a, key) <= Matching(b, key) && |Matching(b, key)| <= FACT_LIMIT
    ensures Rebuilt(a, key) == Rebuilt(b, key) <==> Matching(a, key) == Matching(b, key)
  {
    SubsetCard(Matching(a, key), Matching(b, key));
    RebuiltCount(a, key);
    RebuiltCount(b, key);
    if Matching(a, key) == Matching(b, key) {
      SameQuery(a, b, key);
    }
  }

  // In any arrival order, and with no more facts than a query returns: the row agrees with recomputation exactly if
  // no trade of its span arrived after the last trade of its last minute.
  lemma RowAgreesExactly(fs: seq<TradeFact>, windows: seq<int>, key: WindowKey, i: nat)
    requires FixedById(fs) && LastTouch(fs, windows, key, i)
    requires |Matching(FactTable(fs), key)| <= 5000
    ensures key in Aggregated(fs, windows).windows
    ensures Aggregated(fs, windows).windows[key] == Rebuilt(FactTable(fs), key) <==> !Overtaken(fs, key, i)
  {
    RowIsLastTouch(fs, windows, key, i);
    MatchingGrows(fs, key, i);
    RebuiltDiffers(FactTable(fs[..i + 1]), FactTable(fs), key);
  }

  // When every later trade of the span rewrites the row, it is never overtaken.
  lemma Rewritten(fs: seq<TradeFact>, windows: seq<int>, key: WindowKey, i: nat)
    requires FixedById(fs) && LastTouch(fs, windows, key, i)
    requires forall j | i < j < |fs| && InWindow(fs[j], key) :: Touches(fs[j], key, windows)
    ensures key in Aggregated(fs, windows).windows
    ensures Aggregated(fs, windows).windows[key] == Rebuilt(FactTable(fs), key)
  {
    RowIsLastTouch(fs, windows, key, i);
    MatchingGrows(fs, key, i);
    SameQuery(FactTable(fs[..i + 1]), FactTable(fs), key);
  }

  lemma SpanRewrites(fs: seq<TradeFact>, windows: seq<int>, key: WindowKey, i: nat)
    requires i < |fs| && Touches(fs[i], key, windows) && (InOrder(fs) || key.minutes <= 1)
    ensures forall j | i < j < |fs| && InWindow(fs[j], key) :: Touches(fs[j], key, windows)
  {
  }

  // Trades in order of observation: every row is the aggregate over the final facts, whatever their number. Windows
  // of one minute agree whatever the order: each of their trades rewrites them.
  lemma RowsAgree(fs: seq<TradeFact>, windows: seq<int>, key: WindowKey)
    requires FixedById(fs) && key in Aggregated(fs, windows).windows
    requires InOrder(fs) || key.minutes <= 1
    ensures Aggregated(fs, windows).windows[key] == Rebuilt(FactTable(fs), key)
  {
    RowPresent(fs, windows, key);
    var i := LastTouchExists(fs, windows, key);
    SpanRewrites(fs, windows, key, i);
    Rewritten(fs, windows, key, i);
  }

  // A late trade is enough: one of minute 1 that arrives after one of minute 3 is missing from the five-minute row
  // of minute 3 for good.
  lemma LateTradeLeavesStaleRow(first: TradeFact, late: TradeFact, windows: seq<int>)
    requires first.chain == late.chain && first.token == late.token && first.tradeId != late.tradeId
    requires first.observedAt == 3 * MINUTE && late.observedAt == MINUTE && 5 in windows
    ensures var fs, key := [first, late], WindowKey(first.chain, first.token, 5, 3 * MINUTE);
      && key in Aggregated(fs, windows).windows
      && Aggregated(fs, windows).windows[key].tradeCount == 1
      && Rebuilt(FactTable(fs), key).tradeCount == 2
  {
    var fs, key := [first, late], WindowKey(first.chain, first.token, 5, 3 * MINUTE);
    OnlyFirstTouches(first, late, windows, key);
    BothMatch(first, late, key);
    assert fs[..1] == [first];
    StaleCount(fs, windows, key, 0);
  }

  // How many trades a row counts, and how many it should.
  lemma StaleCount(fs: seq<TradeFact>, windows: seq<int>, key: WindowKey, i: nat)
    requires LastTouch(fs, windows, key, i)
    requires |Matching(FactTable(fs[..i + 1]), key)| <= FACT_LIMIT && |Matching(FactTable(fs), key)| <= FACT_LIMIT
    ensures key in Aggregated(fs, windows).windows
    ensures Aggregated(fs, windows).windows[key].tradeCount == |Matching(FactTable(fs[..i + 1]), key)|
    ensures Rebuilt(FactTable(fs), key).tradeCount == |Matching(FactTable(fs), key)|
  {
    RowIsLastTouch(fs, windows, key, i);
    RebuiltCount(FactTable(fs[..i + 1]), key);
    RebuiltCount(FactTable(fs), key);
  }

  lemma OnlyFirstTouches(first: TradeFact, late: TradeFact, windows: seq<int>, key: WindowKey)
    requires key == WindowKey(first.chain, first.token, 5, 3 * MINUTE) && 5 in windows
    requires first.observedAt == 3 * MINUTE && late.observedAt == MINUTE
    ensures LastTouch([first, late], windows, key, 0)
  {
  }

  lemma BothMatch(a: TradeFact, b: TradeFact, key: WindowKey)
    requires InWindow(a, key) && InWindow(b, key) && a.tradeId != b.tradeId
    ensures Matching(FactTable([a]), key) == {a} && Matching(FactTable([a, b]), key) == {a, b}
  {
    forall f: TradeFact
      ensures f in Matching(FactTable([a]), key) <==> f in {a}
      ensures f in Matching(FactTable([a, b]), key) <==> f in {a, b}
    {
      MatchingHas([a], key, f);
      MatchingHas([a, b], key, f);
    }
  }

  // --- what an aggregate is ----------------------------------------------------------------------

  lemma RowOrderFree(p: seq<TradeFact>, q: seq<TradeFact>)
    requires multiset(p) == multiset(q)
    ensures RowOf(p) == RowOf(q)
  {
    Sums.SumOrderFree(p, q, SideUsd(BuySide));
    Sums.SumOrderFree(p, q, SideUsd(SellSide));
    assert |multiset(p)| == |multiset(q)|;
    forall f: TradeFact
      ensures f in p <==> f in q
    {
      assert f in multiset(p) <==> f in multiset(q);
    }
    assert Wallets(p) == Wallets(q);
  }

  lemma {:induction false} ListingMultiset(p: seq<TradeFact>, items: set<TradeFact>)
    requires Distinct(p) && forall f :: f in p <==> f in items
    ensures multiset(p) == multiset(items)
  {
    forall f: TradeFact
      ensures multiset(p)[f] == multiset(items)[f]
    {
      CountDistinct(p, f);
    }
  }

  lemma {:induction false} CountDistinct(p: seq<TradeFact>, f: TradeFact)
    requires Distinct(p)
    ensures multiset(p)[f] == if f in p then 1 else 0
  {
    if p != [] {
      assert p == [p[0]] + p[1..];
      assert forall i | 0 <= i < |p[1..]| :: p[1..][i] == p[i + 1];
      CountDistinct(p[1..], f);
    }
  }

  // While no more trades match than a query returns, the aggregate does not depend on how they are listed: it is the
  // row of any list that holds each matching fact once.
  lemma RebuiltIsAggregate(facts: map<string, TradeFact>, key: WindowKey, listing: seq<TradeFact>)
    requires |Matching(facts, key)| <= FACT_LIMIT
    requires Distinct(listing) && forall f :: f in listing <==> f in Matching(facts, key)
    ensures Rebuilt(facts, key) == RowOf(listing)
  {
    var items := Matching(facts, key);
    SelectedSound(items, FactRank, FACT_LIMIT);
    ListingMultiset(Query(facts, key), items);
    ListingMultiset(listing, items);
    RowOrderFree(Query(facts, key), listing);
  }
}
