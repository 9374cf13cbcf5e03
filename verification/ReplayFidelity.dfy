// Replaying a repository's raw events into an empty one: which rows come out the same.
module ReplayFidelity {
  import opened Schemas
  import opened Ordering
  import opened FeatureStore
  import opened RawEvents
  import opened FeatureAggregator
  import opened WindowRows
  import opened SlippageRows
  import opened OnchainSync
  import opened IngestionRuns
  import opened FeatureReplay
  import Rounding

  // --- facts and samples of event lists ----------------------------------------------------------

  lemma {:induction false} FactsHave(es: seq<RawEvent>, f: TradeFact)
    ensures f in Facts(es) <==> exists e :: e in es && e.payload.TradePayload? && ClassifyTrade(e) == Some(f)
    decreases |es|
  {
    if es != [] {
      var n := |es| - 1;
      FactsHave(es[..n], f);
      assert es == es[..n] + [es[n]];
      FactsSnoc(es[..n], es[n]);
    }
  }

  lemma {:induction false} SamplesHaveEvents(es: seq<RawEvent>, q: QuoteSample)
    ensures q in Samples(es) <==> exists e :: e in es && e.payload.QuotePayload? && ClassifyQuote(e) == Some(q)
    decreases |es|
  {
    if es != [] {
      var n := |es| - 1;
      SamplesHaveEvents(es[..n], q);
      assert es == es[..n] + [es[n]];
      FactsSnoc(es[..n], es[n]);
    }
  }

  predicate Wanted(chain: Chain, token: Token, byChain: Option<Chain>, byToken: Option<Token>) {
    (byChain == None || byChain.value == chain) && (byToken == None || byToken.value == token)
  }

  ghost predicate Observed(es: seq<RawEvent>) {
    forall i, j | 0 <= i < j < |es| :: es[i].observedAt <= es[j].observedAt
  }

  lemma {:induction false} FactsOrdered(es: seq<RawEvent>)
    requires Observed(es)
    ensures InOrder(Facts(es))
    decreases |es|
  {
    if es != [] {
      var n := |es| - 1;
      FactsOrdered(es[..n]);
      assert es == es[..n] + [es[n]];
      FactsSnoc(es[..n], es[n]);
      forall f | f in Facts(es[..n])
        ensures f.observedAt <= es[n].observedAt
      {
        FactsHave(es[..n], f);
      }
    }
  }

  // --- the events read back ----------------------------------------------------------------------

  // Reading a table within the limit gives the requested events it keeps, in order of observation.
  lemma ReadBack(t: Table, es: seq<RawEvent>, chain: Option<Chain>, token: Option<Token>, limit: nat)
    requires Keeps(t, es) && |Filtered(t, chain, token)| <= limit
    ensures var read := Read(t, chain, token, limit);
      && Observed(read)
      && forall e :: e in read <==> e in es && Requested(e, chain, token)
  {
    var items := Filtered(t, chain, token);
    SelectedSound(items, EventRank, limit);
    var read := Read(t, chain, token, limit);
    forall i, j | 0 <= i < j < |read|
      ensures read[i].observedAt <= read[j].observedAt
    {
      assert !Before(EventRank(read[j]), EventRank(read[i]));
    }
    forall e: RawEvent
      ensures e in items <==> e in es && Requested(e, chain, token)
    {
      if e in items {
        var k :| k in t && t[k] == e;
        assert KeyOf(e) == k;
      }
    }
  }

  // --- rows of the two repositories --------------------------------------------------------------

  // b holds the facts of a that the filter lets through.
  ghost predicate Selects(a: seq<TradeFact>, b: seq<TradeFact>, chain: Option<Chain>, token: Option<Token>) {
    forall f :: f in b <==> f in a && Wanted(f.chain, f.token, chain, token)
  }

  lemma SelectsFixed(a: seq<TradeFact>, b: seq<TradeFact>, chain: Option<Chain>, token: Option<Token>)
    requires FixedById(a) && Selects(a, b, chain, token)
    ensures FixedById(b)
  {
  }

  lemma SameMatching(
    a: seq<TradeFact>, b: seq<TradeFact>, chain: Option<Chain>, token: Option<Token>, key: WindowKey)
    requires FixedById(a) && FixedById(b) && Selects(a, b, chain, token)
    requires Wanted(key.chain, key.token, chain, token)
    ensures Matching(FactTable(a), key) == Matching(FactTable(b), key)
  {
    forall f: TradeFact
      ensures f in Matching(FactTable(a), key) <==> f in Matching(FactTable(b), key)
    {
      MatchingHas(a, key, f);
      MatchingHas(b, key, f);
    }
  }

  // Whatever order the source saw its trades in, the replayed row is there exactly if the source's is, and it is
  // the aggregate over the source's facts.
  lemma ReplayedRow(
    a: seq<TradeFact>, b: seq<TradeFact>, windows: seq<int>, chain: Option<Chain>, token: Option<Token>,
    key: WindowKey)
    requires FixedById(a) && Selects(a, b, chain, token) && InOrder(b)
    requires Wanted(key.chain, key.token, chain, token)
    ensures key in Aggregated(b, windows).windows <==> key in Aggregated(a, windows).windows
    ensures key in Aggregated(b, windows).windows ==> Aggregated(b, windows).windows[key] == Rebuilt(FactTable(a), key)
  {
    SelectsFixed(a, b, chain, token);
    RowPresent(a, windows, key);
    RowPresent(b, windows, key);
    SameTouched(a, b, windows, chain, token, key);
    if key in Aggregated(b, windows).windows {
      RowsAgree(b, windows, key);
      SameMatching(a, b, chain, token, key);
      SameQuery(FactTable(a), FactTable(b), key);
    }
  }

  lemma SameTouched(
    a: seq<TradeFact>, b: seq<TradeFact>, windows: seq<int>, chain: Option<Chain>, token: Option<Token>,
    key: WindowKey)
    requires Selects(a, b, chain, token) && Wanted(key.chain, key.token, chain, token)
    ensures Touched(a, windows, key) <==> Touched(b, windows, key)
  {
  }

  // --- replay ------------------------------------------------------------------------------------

  // A source repository after any ingestion run, and an empty one after replaying it.
  ghost predicate Replays(
    settings: FeatureSettings, xs: seq<Incoming>, chain: Option<Chain>, token: Option<Token>, source: Tables,
    target: Target)
  {
    && source == IngestedAll(EMPTY, xs, settings)
    && |Filtered(source.raw, chain, token)| <= 10_000
    && var es := Read(source.raw, chain, token, REPLAY_LIMIT);
       && target == Replayed(Target(map[], NO_TRADES, NO_QUOTES, false), es, |es|, settings)
       && !target.raised
  }

  lemma RunsSelect(
    settings: FeatureSettings, xs: seq<Incoming>, chain: Option<Chain>, token: Option<Token>, source: Tables,
    target: Target)
    returns (read: seq<RawEvent>)
    requires Replays(settings, xs, chain, token, source, target)
    ensures source.trades == Aggregated(Facts(Arrivals(xs)), settings.tradeWindows)
    ensures target.trades == Aggregated(Facts(read), settings.tradeWindows)
    ensures source.quotes == Quoted(Samples(Arrivals(xs)), settings)
    ensures target.quotes == Quoted(Samples(read), settings)
    ensures Observed(read) && forall e :: e in read <==> e in Arrivals(xs) && Requested(e, chain, token)
  {
    RunTables(xs, settings);
    read := Read(source.raw, chain, token, REPLAY_LIMIT);
    ReadBack(source.raw, Arrivals(xs), chain, token, REPLAY_LIMIT);
    TargetTables(settings, read, target);
  }

  lemma TargetTables(settings: FeatureSettings, read: seq<RawEvent>, target: Target)
    requires target == Replayed(Target(map[], NO_TRADES, NO_QUOTES, false), read, |read|, settings)
    requires !target.raised
    ensures target.trades == Aggregated(Facts(read), settings.tradeWindows)
    ensures target.quotes == Quoted(Samples(read), settings)
  {
    var empty := Target(map[], NO_TRADES, NO_QUOTES, false);
    assert read[..|read|] == read;
    ReplayedTrades(empty, read, |read|, settings);
    ReplayedQuotes(empty, read, |read|, settings);
  }

  lemma FactsSelect(es: seq<RawEvent>, read: seq<RawEvent>, chain: Option<Chain>, token: Option<Token>)
    requires forall e :: e in read <==> e in es && Requested(e, chain, token)
    ensures Selects(Facts(es), Facts(read), chain, token)
  {
    forall f: TradeFact
      ensures f in Facts(read) <==> f in Facts(es) && Wanted(f.chain, f.token, chain, token)
    {
      FactsHave(es, f);
      FactsHave(read, f);
    }
  }

  // The collector keeps a trade before classifying it, so one that does not classify makes every replay that reads it
  // raise; nothing else does.
  lemma ReplayRaisesExactly(
    settings: FeatureSettings, xs: seq<Incoming>, chain: Option<Chain>, token: Option<Token>, source: Tables)
    requires source == IngestedAll(EMPTY, xs, settings)
    requires |Filtered(source.raw, chain, token)| <= 10_000
    ensures var es := Read(source.raw, chain, token, REPLAY_LIMIT);
      Replayed(Target(map[], NO_TRADES, NO_QUOTES, false), es, |es|, settings).raised
      <==> exists e :: e in Arrivals(xs) && Requested(e, chain, token) && !Classifiable(e)
  {
    var es := Read(source.raw, chain, token, REPLAY_LIMIT);
    RunTables(xs, settings);
    ReadBack(source.raw, Arrivals(xs), chain, token, REPLAY_LIMIT);
    RaisedExactly(Target(map[], NO_TRADES, NO_QUOTES, false), es, |es|, settings);
    if e :| e in Arrivals(xs) && Requested(e, chain, token) && !Classifiable(e) {
      var i :| 0 <= i < |es| && es[i] == e;
    }
    if i :| 0 <= i < |es| && !Classifiable(es[i]) {
      assert es[i] in es;
    }
  }

  // For a source fed in any order and with duplicates, a replay keeps the facts that the filter lets through, has
  // the same rows, and each of them is the aggregate over the source's facts.
  lemma ReplayRebuilds(
    settings: FeatureSettings, xs: seq<Incoming>, chain: Option<Chain>, token: Option<Token>, source: Tables,
    target: Target, key: WindowKey)
    requires Replays(settings, xs, chain, token, source, target) && FixedById(Facts(Arrivals(xs)))
    requires Wanted(key.chain, key.token, chain, token)
    ensures key in target.trades.windows <==> key in source.trades.windows
    ensures key in target.trades.windows ==> target.trades.windows[key] == Rebuilt(source.trades.facts, key)
  {
    var read := RunsSelect(settings, xs, chain, token, source, target);
    FactsSelect(Arrivals(xs), read, chain, token);
    FactsOrdered(read);
    ReplayedRow(Facts(Arrivals(xs)), Facts(read), settings.tradeWindows, chain, token, key);
    AggregatedFacts(Facts(Arrivals(xs)), settings.tradeWindows);
  }

  // So it reproduces a row of the source exactly if that row agrees with recomputation.
  lemma ReplayExact(
    settings: FeatureSettings, xs: seq<Incoming>, chain: Option<Chain>, token: Option<Token>, source: Tables,
    target: Target, key: WindowKey, i: nat)
    requires Replays(settings, xs, chain, token, source, target) && FixedById(Facts(Arrivals(xs)))
    requires Wanted(key.chain, key.token, chain, token)
    requires LastTouch(Facts(Arrivals(xs)), settings.tradeWindows, key, i)
    requires |Matching(source.trades.facts, key)| <= 5000
    ensures key in source.trades.windows && key in target.trades.windows
    ensures target.trades.windows[key] == source.trades.windows[key]
      <==> !Overtaken(Facts(Arrivals(xs)), key, i)
  {
    ReplayRebuilds(settings, xs, chain, token, source, target, key);
    RunTables(xs, settings);
    AggregatedFacts(Facts(Arrivals(xs)), settings.tradeWindows);
    RowAgreesExactly(Facts(Arrivals(xs)), settings.tradeWindows, key, i);
  }

  // In order of observation every row comes out the same; one-minute rows do in any order.
  lemma ReplayFaithful(
    settings: FeatureSettings, xs: seq<Incoming>, chain: Option<Chain>, token: Option<Token>, source: Tables,
    target: Target, key: WindowKey)
    requires Replays(settings, xs, chain, token, source, target) && FixedById(Facts(Arrivals(xs)))
    requires Wanted(key.chain, key.token, chain, token)
    requires Observed(Arrivals(xs)) || key.minutes <= 1
    ensures key in target.trades.windows <==> key in source.trades.windows
    ensures key in source.trades.windows ==> target.trades.windows[key] == source.trades.windows[key]
  {
    ReplayRebuilds(settings, xs, chain, token, source, target, key);
    RunTables(xs, settings);
    AggregatedFacts(Facts(Arrivals(xs)), settings.tradeWindows);
    if key in source.trades.windows {
      if Observed(Arrivals(xs)) {
        FactsOrdered(Arrivals(xs));
      }
      RowsAgree(Facts(Arrivals(xs)), settings.tradeWindows, key);
    }
  }

  // The facts themselves are the same in any order.
  lemma ReplayKeepsFacts(
    settings: FeatureSettings, xs: seq<Incoming>, chain: Option<Chain>, token: Option<Token>, source: Tables,
    target: Target, f: TradeFact)
    requires Replays(settings, xs, chain, token, source, target) && FixedById(Facts(Arrivals(xs)))
    ensures f.tradeId in target.trades.facts && target.trades.facts[f.tradeId] == f
      <==> f.tradeId in source.trades.facts && source.trades.facts[f.tradeId] == f
           && Wanted(f.chain, f.token, chain, token)
  {
    var a := Facts(Arrivals(xs));
    var read := RunsSelect(settings, xs, chain, token, source, target);
    FactsSelect(Arrivals(xs), read, chain, token);
    SelectsFixed(a, Facts(read), chain, token);
    AggregatedFacts(a, settings.tradeWindows);
    AggregatedFacts(Facts(read), settings.tradeWindows);
    FactTableHas(a, f);
    FactTableHas(Facts(read), f);
  }

  // --- the reported differences ------------------------------------------------------------------

  lemma SamePressure(a: TradeTables, b: TradeTables, chain: Chain, token: Token, minutes: int)
    requires forall end :: var key := WindowKey(chain, token, minutes, end);
      (key in a.snapshots <==> key in b.snapshots) && (key in a.snapshots ==> a.snapshots[key] == b.snapshots[key])
    ensures PressureNow(a, chain, token, minutes) == PressureNow(b, chain, token, minutes)
  {
  }

  // The buy pressure last written is the same in both repositories, for a source in order of observation or a
  // primary window of one minute.
  lemma ReplayedPressure(
    settings: FeatureSettings, xs: seq<Incoming>, chain: Chain, token: Token, source: Tables, target: Target)
    requires Replays(settings, xs, Some(chain), Some(token), source, target) && FixedById(Facts(Arrivals(xs)))
    requires Observed(Arrivals(xs)) || settings.primaryWindow <= 1
    ensures PressureNow(target.trades, chain, token, settings.primaryWindow)
      == PressureNow(source.trades, chain, token, settings.primaryWindow)
  {
    var read := RunsSelect(settings, xs, Some(chain), Some(token), source, target);
    SnapshotsMirrorWindows(Facts(Arrivals(xs)), settings.tradeWindows);
    SnapshotsMirrorWindows(Facts(read), settings.tradeWindows);
    forall end
      ensures var key := WindowKey(chain, token, settings.primaryWindow, end);
        && (key in target.trades.snapshots <==> key in source.trades.snapshots)
        && (key in target.trades.snapshots ==> target.trades.snapshots[key] == source.trades.snapshots[key])
    {
      var key := WindowKey(chain, token, settings.primaryWindow, end);
      ReplayFaithful(settings, xs, Some(chain), Some(token), source, target, key);
    }
    SamePressure(target.trades, source.trades, chain, token, settings.primaryWindow);
  }

  lemma PairSamples(es: seq<RawEvent>, read: seq<RawEvent>, chain: Chain, token: Token)
    requires forall e :: e in read <==> e in es && Requested(e, Some(chain), Some(token))
    requires QuotesFixed(Samples(es))
    ensures QuotesFixed(Samples(read))
    ensures forall q :: q in Samples(read) <==> q in Samples(es) && q.chain == chain && q.token == token
    ensures SamplesOf(SampleTable(Samples(es)), chain, token) == SamplesOf(SampleTable(Samples(read)), chain, token)
  {
    var a, b := Samples(es), Samples(read);
    forall q: QuoteSample
      ensures q in b <==> q in a && q.chain == chain && q.token == token
    {
      SamplesHaveEvents(es, q);
      SamplesHaveEvents(read, q);
    }
    forall i, j | 0 <= i < |b| && 0 <= j < |b| && b[i].quoteId == b[j].quoteId
      ensures b[i] == b[j]
    {
      assert b[i] in b && b[j] in b;
    }
    forall q: QuoteSample
      ensures q in SamplesOf(SampleTable(a), chain, token) <==> q in SamplesOf(SampleTable(b), chain, token)
    {
      SamplesHave(a, chain, token, q);
      SamplesHave(b, chain, token, q);
    }
  }

  // What load_latest_snapshot finds depends only on the samples of the pair.
  lemma SlippageOfSamples(qs: seq<QuoteSample>, chain: Chain, token: Token, settings: FeatureSettings)
    requires QuotesFixed(qs)
    ensures var newest := NewestSamples(SampleTable(qs), chain, token);
      SlippageNow(Quoted(qs, settings), chain, token)
      == if SamplesOf(SampleTable(qs), chain, token) == {} then None else Some(Slippage(newest, settings))
  {
    var t := Quoted(qs, settings);
    QuotedSamples(qs, settings);
    if SamplesOf(t.samples, chain, token) == {} {
      RowsDated(qs, settings);
    } else {
      var q :| q in SamplesOf(t.samples, chain, token);
      SamplesHave(qs, chain, token, q);
      LatestSlippageFresh(qs, chain, token, settings);
      SlippageKnown(t, QuoteKey(chain, token, LatestQuotedAt(NewestSamples(t.samples, chain, token))));
    }
  }

  // The slippage last written is the same whatever order the source saw its quotes in.
  lemma ReplayedSlippage(
    settings: FeatureSettings, xs: seq<Incoming>, chain: Chain, token: Token, source: Tables, target: Target)
    requires Replays(settings, xs, Some(chain), Some(token), source, target)
    requires QuotesFixed(Samples(Arrivals(xs)))
    ensures SlippageNow(target.quotes, chain, token) == SlippageNow(source.quotes, chain, token)
  {
    var read := RunsSelect(settings, xs, Some(chain), Some(token), source, target);
    PairSamples(Arrivals(xs), read, chain, token);
    SlippageOfSamples(Samples(Arrivals(xs)), chain, token, settings);
    SlippageOfSamples(Samples(read), chain, token, settings);
    SameNewest(SampleTable(Samples(Arrivals(xs))), SampleTable(Samples(read)), chain, token);
  }

  // The report of a replay for one pair shows no difference: never a delta, and never a feature on one side only.
  lemma ReplayReportsMatch(
    settings: FeatureSettings, xs: seq<Incoming>, chain: Chain, token: Token, source: Tables, target: Target)
    requires Replays(settings, xs, Some(chain), Some(token), source, target)
    requires FixedById(Facts(Arrivals(xs))) && QuotesFixed(Samples(Arrivals(xs)))
    requires Observed(Arrivals(xs)) || settings.primaryWindow <= 1
    ensures var pressure := Compared(
        PressureNow(source.trades, chain, token, settings.primaryWindow),
        PressureNow(target.trades, chain, token, settings.primaryWindow));
      pressure == MissingBoth || pressure == Match
    ensures var slippage := Compared(
        SlippageNow(source.quotes, chain, token), SlippageNow(target.quotes, chain, token));
      slippage == MissingBoth || slippage == Match
  {
    ReplayedPressure(settings, xs, chain, token, source, target);
    ReplayedSlippage(settings, xs, chain, token, source, target);
    Rounding.RoundZero(Rounding.MICROS);
  }
}
