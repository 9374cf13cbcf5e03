// sentinel/feature_aggregator.py: raw trades and quotes become facts, samples and the rows computed from them.
module FeatureAggregator {
  import opened Schemas
  import opened Ordering
  import opened FeatureStore
  import opened RawEvents
  import SlippageCurve
  import StableSort
  import Sums

  datatype FeatureSettings = FeatureSettings(
    tradeWindows: seq<int>,
    primaryWindow: int,
    minTradeNotionalUsd: real,
    publicationNotionalUsd: real,
    allowCurveFallback: bool)

  function Abs(x: real): real { if x >= 0.0 then x else -x }

  // --- trades ------------------------------------------------------------------------------------

  // An explicit side wins; otherwise the signs of the two amounts decide.
  function TradeSide(p: Payload): Option<Side>
    requires p.TradePayload?
  {
    if p.side == "buy" then Some(BuySide)
    else if p.side == "sell" then Some(SellSide)
    else if p.tokenAmount > 0.0 && p.quoteAmount < 0.0 then Some(BuySide)
    else if p.tokenAmount < 0.0 && p.quoteAmount > 0.0 then Some(SellSide)
    else None
  }

  // None is trade_side_unresolved.
  function ClassifyTrade(e: RawEvent): Option<TradeFact>
    requires e.payload.TradePayload?
  {
    var side := TradeSide(e.payload);
    if side.None? then None
    else Some(TradeFact(
      e.eventId, e.chain, e.token, e.payload.wallet, side.value, Abs(e.payload.quoteUsd), e.observedAt))
  }

  // Which trades classify, on which side, and what is kept of them.
  lemma TradeClassified(e: RawEvent)
    requires e.payload.TradePayload?
    ensures var p, fact := e.payload, ClassifyTrade(e);
      var bought := p.side == "buy" || (p.side != "sell" && p.tokenAmount > 0.0 && p.quoteAmount < 0.0);
      var sold := p.side == "sell" || (p.side != "buy" && p.tokenAmount < 0.0 && p.quoteAmount > 0.0);
      && (fact.Some? <==> bought || sold)
      && (fact.Some? ==>
            && (fact.value.side == BuySide <==> bought)
            && fact.value.quoteUsd == (if p.quoteUsd >= 0.0 then p.quoteUsd else -p.quoteUsd)
            && fact.value.tradeId == e.eventId && fact.value.chain == e.chain && fact.value.token == e.token
            && fact.value.wallet == p.wallet && fact.value.observedAt == e.observedAt)
  {
  }

  // The end of the minute that holds an instant.
  function WindowEnd(t: int): (end: int)
    ensures end % MINUTE == 0 && end - MINUTE < t <= end
  {
    var start := t - t % MINUTE;
    if t == start then start else start + MINUTE
  }

  // A trade's contribution to one side of a row.
  function SideUsd(side: Side): TradeFact -> real {
    (f: TradeFact) => if f.side == side then f.quoteUsd else 0.0
  }

  function Notional(trades: seq<TradeFact>, side: Side): real { Sums.Sum(trades, SideUsd(side)) }

  function Wallets(trades: seq<TradeFact>): set<string> {
    set f | f in trades && f.wallet.Some? && f.wallet.value != "" :: f.wallet.value
  }

  function RowOf(trades: seq<TradeFact>): TradeWindow {
    TradeWindow(Notional(trades, BuySide), Notional(trades, SellSide), |trades|, |Wallets(trades)|)
  }

  ghost function Rebuilt(facts: map<string, TradeFact>, key: WindowKey): TradeWindow { RowOf(Query(facts, key)) }

  function BuyPressure(row: TradeWindow): Snapshot {
    var total := row.buyUsd + row.sellUsd;
    Snapshot(if total > 0.0 then row.buyUsd / total else 0.0, row.tradeCount)
  }

  function KeyAt(f: TradeFact, minutes: int): WindowKey {
    WindowKey(f.chain, f.token, minutes, WindowEnd(f.observedAt))
  }

  // One turn of the loop over the configured windows.
  ghost function Refreshed(t: TradeTables, f: TradeFact, minutes: int): TradeTables {
    var key := KeyAt(f, minutes);
    var row := Rebuilt(t.facts, key);
    t.(windows := t.windows[key := row], snapshots := t.snapshots[key := BuyPressure(row)])
  }

  ghost function RefreshedAll(t: TradeTables, f: TradeFact, windows: seq<int>): TradeTables {
    if windows == [] then t
    else Refreshed(RefreshedAll(t, f, windows[..|windows| - 1]), f, windows[|windows| - 1])
  }

  ghost function TradeStep(t: TradeTables, f: TradeFact, windows: seq<int>): TradeTables {
    RefreshedAll(t.(facts := t.facts[f.tradeId := f]), f, windows)
  }

  ghost function FeedTrades(t: TradeTables, fs: seq<TradeFact>, windows: seq<int>): TradeTables {
    if fs == [] then t else TradeStep(FeedTrades(t, fs[..|fs| - 1], windows), fs[|fs| - 1], windows)
  }

  // --- the writes of one trade, in order ---------------------------------------------------------

  datatype TradeWrite =
    | SaveFact(fact: TradeFact)
    | SaveWindow(key: WindowKey, row: TradeWindow)
    | SavePressure(at: WindowKey, snapshot: Snapshot)

  function TradeWritten(t: TradeTables, w: TradeWrite): TradeTables {
    match w
    case SaveFact(fact) => t.(facts := t.facts[fact.tradeId := fact])
    case SaveWindow(key, row) => t.(windows := t.windows[key := row])
    case SavePressure(key, snapshot) => t.(snapshots := t.snapshots[key := snapshot])
  }

  // The tables after the first k writes.
  function TradeAfter(t: TradeTables, ws: seq<TradeWrite>, k: nat): TradeTables
    requires k <= |ws|
    decreases k
  {
    if k == 0 then t else TradeWritten(TradeAfter(t, ws, k - 1), ws[k - 1])
  }

  ghost function PairOf(facts: map<string, TradeFact>, f: TradeFact, minutes: int): (pair: seq<TradeWrite>)
    ensures |pair| == 2
  {
    var key := KeyAt(f, minutes);
    var row := Rebuilt(facts, key);
    [SaveWindow(key, row), SavePressure(key, BuyPressure(row))]
  }

  ghost function WindowWrites(facts: map<string, TradeFact>, f: TradeFact, windows: seq<int>): seq<TradeWrite> {
    if windows == [] then []
    else WindowWrites(facts, f, windows[..|windows| - 1]) + PairOf(facts, f, windows[|windows| - 1])
  }

  lemma WindowWritesNext(facts: map<string, TradeFact>, f: TradeFact, windows: seq<int>, i: nat)
    requires i < |windows|
    ensures WindowWrites(facts, f, windows[..i + 1])
      == WindowWrites(facts, f, windows[..i]) + PairOf(facts, f, windows[i])
  {
    assert windows[..i + 1][..i] == windows[..i];
  }

  ghost function TradeWrites(t: TradeTables, f: TradeFact, windows: seq<int>): seq<TradeWrite> {
    [SaveFact(f)] + WindowWrites(t.facts[f.tradeId := f], f, windows)
  }

  lemma RefreshedNext(t: TradeTables, f: TradeFact, windows: seq<int>, i: nat)
    requires i < |windows|
    ensures RefreshedAll(t, f, windows[..i + 1]) == Refreshed(RefreshedAll(t, f, windows[..i]), f, windows[i])
  {
    assert windows[..i + 1][..i] == windows[..i];
  }

  lemma {:induction false} TradeAfterConcat(t: TradeTables, a: seq<TradeWrite>, b: seq<TradeWrite>, k: nat)
    requires k <= |a| + |b|
    ensures TradeAfter(t, a + b, k)
      == if k <= |a| then TradeAfter(t, a, k) else TradeAfter(TradeAfter(t, a, |a|), b, k - |a|)
    decreases k
  {
    if k > 0 {
      TradeAfterConcat(t, a, b, k - 1);
    }
  }

  lemma TradeAfterSnoc(t: TradeTables, ws: seq<TradeWrite>, w: TradeWrite)
    ensures TradeAfter(t, ws + [w], |ws| + 1) == TradeWritten(TradeAfter(t, ws, |ws|), w)
  {
    TradeAfterConcat(t, ws, [w], |ws|);
  }

  class OnchainFeatureAggregator {
    const settings: FeatureSettings
    const store: FeatureStore

    constructor (settings: FeatureSettings, store: FeatureStore)
      ensures this.settings == settings && this.store == store
    {
      this.settings, this.store := settings, store;
    }

    method RebuildTradeWindow(key: WindowKey) returns (row: TradeWindow)
      requires store.Valid()
      ensures row == Rebuilt(store.facts, key)
    {
      var trades := store.LoadTradeFacts(key);
      row := RowOf(trades);
    }

    // One turn of the loop over the configured windows: two writes.
    method RefreshWindow(fact: TradeFact, minutes: int) returns (ghost writes: seq<TradeWrite>)
      requires store.Valid()
      modifies store
      ensures store.Valid() && store.Quotes() == old(store.Quotes())
      ensures writes == PairOf(old(store.facts), fact, minutes)
      ensures store.Trades() == Refreshed(old(store.Trades()), fact, minutes)
      ensures store.Trades() == TradeAfter(old(store.Trades()), writes, |writes|)
    {
      ghost var before := store.Trades();
      var key := KeyAt(fact, minutes);
      var row := RebuildTradeWindow(key);
      store.UpsertTradeWindow(key, row);
      writes := [SaveWindow(key, row)];
      assert store.Trades() == TradeAfter(before, writes, 1) by {
        TradeAfterSnoc(before, [], SaveWindow(key, row));
      }
      store.SaveBuyPressure(key, BuyPressure(row));
      TradeAfterSnoc(before, writes, SavePressure(key, BuyPressure(row)));
      writes := writes + [SavePressure(key, BuyPressure(row))];
    }

    // False is the ValueError of an unresolved side; nothing is stored then. The writes are listed as they are made.
    method IngestRawTrade(e: RawEvent) returns (ok: bool, ghost writes: seq<TradeWrite>)
      requires store.Valid() && e.payload.TradePayload?
      modifies store
      ensures store.Valid() && store.Quotes() == old(store.Quotes())
      ensures ok == ClassifyTrade(e).Some?
      ensures store.Trades()
        == if ok then TradeStep(old(store.Trades()), ClassifyTrade(e).value, settings.tradeWindows)
           else old(store.Trades())
      ensures writes
        == if ok then TradeWrites(old(store.Trades()), ClassifyTrade(e).value, settings.tradeWindows) else []
      ensures store.Trades() == TradeAfter(old(store.Trades()), writes, |writes|)
    {
      ghost var before := store.Trades();
      writes := [];
      var classified := ClassifyTrade(e);
      if classified.None? {
        return false, [];
      }
      var fact := classified.value;
      store.UpsertTradeFact(fact);
      writes := [SaveFact(fact)];
      TradeAfterSnoc(before, [], SaveFact(fact));
      ghost var rows := RefreshWindows(fact);
      TradeAfterConcat(before, writes, rows, 1 + |rows|);
      writes := writes + rows;
      ok := true;
    }

    method RefreshWindows(fact: TradeFact) returns (ghost writes: seq<TradeWrite>)
      requires store.Valid()
      modifies store
      ensures store.Valid() && store.Quotes() == old(store.Quotes())
      ensures store.Trades() == RefreshedAll(old(store.Trades()), fact, settings.tradeWindows)
      ensures writes == WindowWrites(old(store.facts), fact, settings.tradeWindows)
      ensures store.Trades() == TradeAfter(old(store.Trades()), writes, |writes|)
    {
      ghost var start := store.Trades();
      writes := [];
      var i := 0;
      while i < |settings.tradeWindows|
        invariant 0 <= i <= |settings.tradeWindows|
        invariant store.Valid() && store.Quotes() == old(store.Quotes())
        invariant store.Trades() == RefreshedAll(start, fact, settings.tradeWindows[..i])
        invariant store.facts == start.facts
        invariant writes == WindowWrites(start.facts, fact, settings.tradeWindows[..i])
        invariant store.Trades() == TradeAfter(start, writes, |writes|)
      {
        RefreshedNext(start, fact, settings.tradeWindows, i);
        WindowWritesNext(start.facts, fact, settings.tradeWindows, i);
        ghost var pair := RefreshWindow(fact, settings.tradeWindows[i]);
        TradeAfterConcat(start, writes, pair, |writes| + |pair|);
        writes := writes + pair;
        i := i + 1;
      }
      assert settings.tradeWindows[..i] == settings.tradeWindows;
    }
  }

  // The facts among raw events, in their order.
  function Facts(es: seq<RawEvent>): seq<TradeFact> {
    if es == [] then [] else
      var e := es[|es| - 1];
      Facts(es[..|es| - 1])
      + if e.payload.TradePayload? && ClassifyTrade(e).Some? then [ClassifyTrade(e).value] else []
  }

  // --- quotes ------------------------------------------------------------------------------------

  // None is invalid_reference_mid_usd.
  function ClassifyQuote(e: RawEvent): Option<QuoteSample>
    requires e.payload.QuotePayload?
  {
    var mid, out := Abs(e.payload.referenceMidUsd), Abs(e.payload.expectedOutUsd);
    if mid <= 0.0 then None
    else Some(QuoteSample(
      e.payload.quoteId, e.chain, e.token, Abs(e.payload.notionalUsd), 10000.0 * (mid - out) / mid, e.observedAt))
  }

  // A quote classifies unless it has no reference; its slippage is what the expected amount falls short of the
  // reference, in basis points of it, whatever their signs.
  lemma QuoteClassified(e: RawEvent)
    requires e.payload.QuotePayload?
    ensures var p, sample := e.payload, ClassifyQuote(e);
      && (sample.Some? <==> p.referenceMidUsd != 0.0)
      && (sample.Some? ==>
            && sample.value.slippageBps * Abs(p.referenceMidUsd)
               == 10000.0 * (Abs(p.referenceMidUsd) - Abs(p.expectedOutUsd))
            && sample.value.notionalUsd == (if p.notionalUsd >= 0.0 then p.notionalUsd else -p.notionalUsd)
            && sample.value.quoteId == p.quoteId && sample.value.chain == e.chain && sample.value.token == e.token
            && sample.value.quotedAt == e.observedAt)
    ensures Abs(e.payload.referenceMidUsd) >= 0.0 && Abs(e.payload.expectedOutUsd) >= 0.0
    ensures Abs(e.payload.referenceMidUsd) in {e.payload.referenceMidUsd, -e.payload.referenceMidUsd}
    ensures Abs(e.payload.expectedOutUsd) in {e.payload.expectedOutUsd, -e.payload.expectedOutUsd}
  {
  }

  function Points(samples: seq<QuoteSample>): seq<SlippageCurve.Point> {
    seq(|samples|, i requires 0 <= i < |samples| =>
      SlippageCurve.Point(samples[i].notionalUsd, samples[i].slippageBps))
  }

  // build_slippage_curve
  function CurvePoints(samples: seq<QuoteSample>): seq<SlippageCurve.Point> {
    StableSort.Sort(Points(samples), SlippageCurve.BY_NOTIONAL)
  }

  function FirstAt(samples: seq<QuoteSample>, notional: real): Option<QuoteSample> {
    if samples == [] then None
    else if samples[0].notionalUsd == notional then Some(samples[0])
    else FirstAt(samples[1..], notional)
  }

  // The newest sample taken at the published notional, or else the curve's estimate, or else nothing.
  function Slippage(samples: seq<QuoteSample>, settings: FeatureSettings): Snapshot {
    var exact := FirstAt(samples, settings.publicationNotionalUsd);
    Snapshot(
      if exact.Some? then exact.value.slippageBps
      else if settings.allowCurveFallback
      then SlippageCurve.Estimate(CurvePoints(samples), settings.publicationNotionalUsd)
      else 0.0,
      |samples|)
  }

  function LatestQuotedAt(samples: seq<QuoteSample>): int
    requires samples != []
  {
    if |samples| == 1 then samples[0].quotedAt
    else
      var rest := LatestQuotedAt(samples[1..]);
      if samples[0].quotedAt >= rest then samples[0].quotedAt else rest
  }

  lemma {:induction false} LatestQuoted(samples: seq<QuoteSample>)
    requires samples != []
    ensures forall q | q in samples :: q.quotedAt <= LatestQuotedAt(samples)
    ensures exists q :: q in samples && q.quotedAt == LatestQuotedAt(samples)
  {
    assert samples[0] in samples;
    if |samples| > 1 {
      LatestQuoted(samples[1..]);
      assert forall q | q in samples :: q == samples[0] || q in samples[1..];
    }
  }

  // A sample just stored leaves something to load.
  lemma SampleLoads(samples: map<string, QuoteSample>, q: QuoteSample)
    requires q.quoteId in samples && samples[q.quoteId] == q
    ensures NewestSamples(samples, q.chain, q.token) != []
  {
    assert q in SamplesOf(samples, q.chain, q.token);
  }

  ghost function QuoteStep(t: QuoteTables, q: QuoteSample, settings: FeatureSettings): QuoteTables {
    var samples := t.samples[q.quoteId := q];
    SampleLoads(samples, q);
    var newest := NewestSamples(samples, q.chain, q.token);
    QuoteTables(
      samples,
      t.snapshots[QuoteKey(q.chain, q.token, LatestQuotedAt(newest)) := Slippage(newest, settings)])
  }

  ghost function FeedQuotes(t: QuoteTables, qs: seq<QuoteSample>, settings: FeatureSettings): QuoteTables {
    if qs == [] then t else QuoteStep(FeedQuotes(t, qs[..|qs| - 1], settings), qs[|qs| - 1], settings)
  }

  function Samples(es: seq<RawEvent>): seq<QuoteSample> {
    if es == [] then [] else
      var e := es[|es| - 1];
      Samples(es[..|es| - 1])
      + if e.payload.QuotePayload? && ClassifyQuote(e).Some? then [ClassifyQuote(e).value] else []
  }

  // Neither aggregator raises on this event.
  predicate Classifiable(e: RawEvent) {
    && (e.payload.TradePayload? ==> ClassifyTrade(e).Some?)
    && (e.payload.QuotePayload? ==> ClassifyQuote(e).Some?)
  }

  lemma FactsSnoc(es: seq<RawEvent>, e: RawEvent)
    ensures Facts(es + [e])
      == if e.payload.TradePayload? && ClassifyTrade(e).Some? then Facts(es) + [ClassifyTrade(e).value] else Facts(es)
    ensures Samples(es + [e])
      == if e.payload.QuotePayload? && ClassifyQuote(e).Some? then Samples(es) + [ClassifyQuote(e).value]
         else Samples(es)
  {
  }

  // What one raw event does to either half of the tables.
  ghost function TradeFed(t: TradeTables, e: RawEvent, settings: FeatureSettings): TradeTables {
    if e.payload.TradePayload? && ClassifyTrade(e).Some?
    then TradeStep(t, ClassifyTrade(e).value, settings.tradeWindows)
    else t
  }

  ghost function QuoteFed(t: QuoteTables, e: RawEvent, settings: FeatureSettings): QuoteTables {
    if e.payload.QuotePayload? && ClassifyQuote(e).Some? then QuoteStep(t, ClassifyQuote(e).value, settings) else t
  }

  lemma FeedTradesSnoc(t: TradeTables, fs: seq<TradeFact>, f: TradeFact, windows: seq<int>)
    ensures FeedTrades(t, fs + [f], windows) == TradeStep(FeedTrades(t, fs, windows), f, windows)
  {
  }

  lemma FeedQuotesSnoc(t: QuoteTables, qs: seq<QuoteSample>, q: QuoteSample, settings: FeatureSettings)
    ensures FeedQuotes(t, qs + [q], settings) == QuoteStep(FeedQuotes(t, qs, settings), q, settings)
  {
  }

  // One more event feeds one more fact or sample, or nothing.
  lemma TradesFedSnoc(t: TradeTables, es: seq<RawEvent>, e: RawEvent, settings: FeatureSettings)
    ensures FeedTrades(t, Facts(es + [e]), settings.tradeWindows)
      == TradeFed(FeedTrades(t, Facts(es), settings.tradeWindows), e, settings)
  {
    FactsSnoc(es, e);
    if e.payload.TradePayload? && ClassifyTrade(e).Some? {
      FeedTradesSnoc(t, Facts(es), ClassifyTrade(e).value, settings.tradeWindows);
    }
  }

  lemma QuotesFedSnoc(q: QuoteTables, es: seq<RawEvent>, e: RawEvent, settings: FeatureSettings)
    ensures FeedQuotes(q, Samples(es + [e]), settings) == QuoteFed(FeedQuotes(q, Samples(es), settings), e, settings)
  {
    FactsSnoc(es, e);
    if e.payload.QuotePayload? && ClassifyQuote(e).Some? {
      FeedQuotesSnoc(q, Samples(es), ClassifyQuote(e).value, settings);
    }
  }

  // The two writes of one quote, in order.
  datatype QuoteWrite = SaveSample(sample: QuoteSample) | SaveSlippage(asOf: QuoteKey, slippage: Snapshot)

  function QuoteWritten(t: QuoteTables, w: QuoteWrite): QuoteTables {
    match w
    case SaveSample(sample) => t.(samples := t.samples[sample.quoteId := sample])
    case SaveSlippage(asOf, slippage) => t.(snapshots := t.snapshots[asOf := slippage])
  }

  function QuoteAfter(t: QuoteTables, ws: seq<QuoteWrite>, k: nat): QuoteTables
    requires k <= |ws|
    decreases k
  {
    if k == 0 then t else QuoteWritten(QuoteAfter(t, ws, k - 1), ws[k - 1])
  }

  ghost function QuoteWrites(t: QuoteTables, q: QuoteSample, settings: FeatureSettings): (ws: seq<QuoteWrite>)
    ensures |ws| == 2 && QuoteAfter(t, ws, 2) == QuoteStep(t, q, settings)
  {
    var samples := t.samples[q.quoteId := q];
    SampleLoads(samples, q);
    var newest := NewestSamples(samples, q.chain, q.token);
    var ws :=
      [SaveSample(q), SaveSlippage(QuoteKey(q.chain, q.token, LatestQuotedAt(newest)), Slippage(newest, settings))];
    assert QuoteAfter(t, ws, 1) == QuoteWritten(QuoteAfter(t, ws, 0), ws[0]);
    ws
  }

  class SlippageFeatureAggregator {
    const settings: FeatureSettings
    const store: FeatureStore

    constructor (settings: FeatureSettings, store: FeatureStore)
      ensures this.settings == settings && this.store == store
    {
      this.settings, this.store := settings, store;
    }

    method BuildSnapshot(samples: seq<QuoteSample>) returns (snapshot: Snapshot)
      ensures snapshot == Slippage(samples, settings)
    {
      var exact := FirstAt(samples, settings.publicationNotionalUsd);
      var bps := 0.0;
      if exact.Some? {
        bps := exact.value.slippageBps;
      } else if settings.allowCurveFallback {
        bps := SlippageCurve.EstimateFromCurve(CurvePoints(samples), settings.publicationNotionalUsd);
      }
      snapshot := Snapshot(bps, |samples|);
    }

    // False is the ValueError of a quote without a reference price; nothing is stored then.
    method IngestRawQuote(e: RawEvent) returns (ok: bool, ghost writes: seq<QuoteWrite>)
      requires store.Valid() && e.payload.QuotePayload?
      modifies store
      ensures store.Valid() && store.Trades() == old(store.Trades())
      ensures ok == ClassifyQuote(e).Some?
      ensures store.Quotes()
        == if ok then QuoteStep(old(store.Quotes()), ClassifyQuote(e).value, settings) else old(store.Quotes())
      ensures writes == if ok then QuoteWrites(old(store.Quotes()), ClassifyQuote(e).value, settings) else []
    {
      ghost var before := store.Quotes();
      writes := [];
      var classified := ClassifyQuote(e);
      if classified.None? {
        return false, [];
      }
      var sample := classified.value;
      store.AppendQuoteSample(sample);
      writes := [SaveSample(sample)];
      SampleLoads(store.samples, sample);
      var samples := store.LoadQuoteSamples(sample.chain, sample.token);
      var snapshot := BuildSnapshot(samples);
      var asOf := QuoteKey(sample.chain, sample.token, LatestQuotedAt(samples));
      store.SaveSlippage(asOf, snapshot);
      writes := writes + [QuoteWrite.SaveSlippage(asOf, snapshot)];
      ok := true;
    }
  }
}
