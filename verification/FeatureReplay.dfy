// replay/feature_replay.py: the stored raw events, fed in order into another repository.
module FeatureReplay {
  import opened Schemas
  import opened FeatureStore
  import opened RawEvents
  import opened FeatureAggregator
  import Rounding

  const REPLAY_LIMIT: nat := 10_000

  // --- what a replay does ------------------------------------------------------------------------

  datatype Summary = Summary(rawEventCount: nat, tradeCount: nat, quoteCount: nat, ignoredCount: nat)

  // The target repository, and whether the replay has ended with an exception.
  datatype Target = Target(raw: Table, trades: TradeTables, quotes: QuoteTables, raised: bool)

  // One event: kept, then fed to its aggregator, which raises if it does not classify.
  ghost function Advanced(t: Target, e: RawEvent, settings: FeatureSettings): Target {
    if t.raised then t
    else Target(
      Saved(t.raw, e), TradeFed(t.trades, e, settings), QuoteFed(t.quotes, e, settings), !Classifiable(e))
  }

  ghost function Replayed(t: Target, es: seq<RawEvent>, n: nat, settings: FeatureSettings): Target
    requires n <= |es|
  {
    if n == 0 then t else Advanced(Replayed(t, es, n - 1, settings), es[n - 1], settings)
  }

  lemma {:induction false} RaisedStays(t: Target, es: seq<RawEvent>, m: nat, n: nat, settings: FeatureSettings)
    requires m <= n <= |es| && Replayed(t, es, m, settings).raised
    ensures Replayed(t, es, n, settings) == Replayed(t, es, m, settings)
    decreases n
  {
    if m < n {
      RaisedStays(t, es, m, n - 1, settings);
    }
  }

  // A replay raises exactly if some event does not classify.
  lemma {:induction false} RaisedExactly(t: Target, es: seq<RawEvent>, n: nat, settings: FeatureSettings)
    requires n <= |es| && !t.raised
    ensures Replayed(t, es, n, settings).raised <==> exists i :: 0 <= i < n && !Classifiable(es[i])
    decreases n
  {
    if n > 0 {
      RaisedExactly(t, es, n - 1, settings);
    }
  }

  lemma PrefixSnoc(es: seq<RawEvent>, n: nat)
    requires 0 < n <= |es|
    ensures es[..n] == es[..n - 1] + [es[n - 1]]
  {
  }

  // Until it raises, a replay feeds the facts and samples of the events in the order read.
  lemma {:induction false} ReplayedTrades(t: Target, es: seq<RawEvent>, n: nat, settings: FeatureSettings)
    requires n <= |es| && !Replayed(t, es, n, settings).raised
    ensures Replayed(t, es, n, settings).trades == FeedTrades(t.trades, Facts(es[..n]), settings.tradeWindows)
    decreases n
  {
    if n > 0 {
      ReplayedTrades(t, es, n - 1, settings);
      PrefixSnoc(es, n);
      TradesFedSnoc(t.trades, es[..n - 1], es[n - 1], settings);
    }
  }

  lemma {:induction false} ReplayedQuotes(t: Target, es: seq<RawEvent>, n: nat, settings: FeatureSettings)
    requires n <= |es| && !Replayed(t, es, n, settings).raised
    ensures Replayed(t, es, n, settings).quotes == FeedQuotes(t.quotes, Samples(es[..n]), settings)
    decreases n
  {
    if n > 0 {
      ReplayedQuotes(t, es, n - 1, settings);
      PrefixSnoc(es, n);
      QuotesFedSnoc(t.quotes, es[..n - 1], es[n - 1], settings);
    }
  }

  function Counted(s: Summary, e: RawEvent): Summary {
    match e.payload
    case TradePayload(_, _, _, _, _) => s.(rawEventCount := s.rawEventCount + 1, tradeCount := s.tradeCount + 1)
    case QuotePayload(_, _, _, _) => s.(rawEventCount := s.rawEventCount + 1, quoteCount := s.quoteCount + 1)
    case OtherPayload => s.(rawEventCount := s.rawEventCount + 1, ignoredCount := s.ignoredCount + 1)
  }

  function Tally(es: seq<RawEvent>, n: nat): Summary
    requires n <= |es|
  {
    if n == 0 then Summary(0, 0, 0, 0) else Counted(Tally(es, n - 1), es[n - 1])
  }

  // What a finished replay reports: each event read is counted once, as the fact or sample it fed or as ignored.
  lemma {:induction false} TallyAddsUp(es: seq<RawEvent>, n: nat)
    requires n <= |es| && forall i | 0 <= i < n :: Classifiable(es[i])
    ensures var s := Tally(es, n);
      && s.rawEventCount == n == s.tradeCount + s.quoteCount + s.ignoredCount
      && s.tradeCount == |Facts(es[..n])| && s.quoteCount == |Samples(es[..n])|
    decreases n
  {
    if n > 0 {
      TallyAddsUp(es, n - 1);
      PrefixSnoc(es, n);
      FactsSnoc(es[..n - 1], es[n - 1]);
    }
  }

  // --- how it is done ----------------------------------------------------------------------------

  ghost predicate Holds(r: Target, raw: RawEventStore, store: FeatureStore)
    reads raw, store
  {
    raw.Valid() && store.Valid() && raw.events == r.raw && store.Trades() == r.trades && store.Quotes() == r.quotes
  }

  // One turn of the loop; false is the ValueError of an event that does not classify.
  method ReplayEvent(
    event: RawEvent, targetRaw: RawEventStore, target: FeatureStore, onchain: OnchainFeatureAggregator,
    slippage: SlippageFeatureAggregator, ghost r: Target)
    returns (ok: bool)
    requires onchain.store == slippage.store == target && onchain.settings == slippage.settings
    requires Holds(r, targetRaw, target) && !r.raised
    modifies targetRaw, target
    ensures Holds(Advanced(r, event, onchain.settings), targetRaw, target)
    ensures ok == Classifiable(event)
  {
    var _ := targetRaw.Save(event);
    ok := true;
    if event.payload.TradePayload? {
      var fed, _ := onchain.IngestRawTrade(event);
      ok := fed;
    } else if event.payload.QuotePayload? {
      var fed, _ := slippage.IngestRawQuote(event);
      ok := fed;
    }
  }

  method ReplayNext(
    events: seq<RawEvent>, i: nat, targetRaw: RawEventStore, target: FeatureStore,
    onchain: OnchainFeatureAggregator, slippage: SlippageFeatureAggregator, ghost r: Target)
    returns (ok: bool)
    requires onchain.store == slippage.store == target && onchain.settings == slippage.settings
    requires i < |events| && !Replayed(r, events, i, onchain.settings).raised
    requires Holds(Replayed(r, events, i, onchain.settings), targetRaw, target)
    modifies targetRaw, target
    ensures Holds(Replayed(r, events, i + 1, onchain.settings), targetRaw, target)
    ensures ok == !Replayed(r, events, i + 1, onchain.settings).raised
  {
    ok := ReplayEvent(
      events[i], targetRaw, target, onchain, slippage, Replayed(r, events, i, onchain.settings));
  }

  method ReplayAll(
    events: seq<RawEvent>, targetRaw: RawEventStore, target: FeatureStore, settings: FeatureSettings,
    ghost r: Target)
    returns (summary: Option<Summary>)
    requires Holds(r, targetRaw, target) && !r.raised
    modifies targetRaw, target
    ensures var done := Replayed(r, events, |events|, settings);
      Holds(done, targetRaw, target) && summary == if done.raised then None else Some(Tally(events, |events|))
  {
    var onchain := new OnchainFeatureAggregator(settings, target);
    var slippage := new SlippageFeatureAggregator(settings, target);
    var counts := Summary(0, 0, 0, 0);
    var i := 0;
    while i < |events|
      invariant 0 <= i <= |events|
      invariant Holds(Replayed(r, events, i, settings), targetRaw, target)
      invariant !Replayed(r, events, i, settings).raised
      invariant counts == Tally(events, i)
    {
      var ok := ReplayNext(events, i, targetRaw, target, onchain, slippage, r);
      if !ok {
        RaisedStays(r, events, i + 1, |events|, settings);
        return None;
      }
      counts := Counted(counts, events[i]);
      i := i + 1;
    }
    summary := Some(counts);
  }

  // None is the ValueError of the first event that does not classify.
  method ReplayFeatureEvents(
    source: RawEventStore, targetRaw: RawEventStore, target: FeatureStore, settings: FeatureSettings,
    chain: Option<Chain>, token: Option<Token>)
    returns (summary: Option<Summary>)
    requires source.Valid() && targetRaw.Valid() && target.Valid() && source != targetRaw
    modifies targetRaw, target
    ensures var es := Read(source.events, chain, token, REPLAY_LIMIT);
      var r := Target(old(targetRaw.events), old(target.Trades()), old(target.Quotes()), false);
      var done := Replayed(r, es, |es|, settings);
      Holds(done, targetRaw, target) && summary == if done.raised then None else Some(Tally(es, |es|))
  {
    var events := source.ReadEvents(chain, token, REPLAY_LIMIT);
    ghost var r := Target(targetRaw.events, target.Trades(), target.Quotes(), false);
    summary := ReplayAll(events, targetRaw, target, settings, r);
  }

  // --- comparing the two repositories ------------------------------------------------------------

  datatype DiffStatus = MissingBoth | MissingSource | MissingTarget | Match | Delta

  // Two rows match exactly if they differ by no more than half a millionth.
  function Compared(source: Option<Snapshot>, target: Option<Snapshot>): (status: DiffStatus)
    ensures status == Match <==>
      source.Some? && target.Some? && -0.0000005 <= target.value.value - source.value.value <= 0.0000005
    ensures status == Delta <==>
      source.Some? && target.Some?
      && (target.value.value - source.value.value < -0.0000005
          || target.value.value - source.value.value > 0.0000005)
    ensures status == MissingBoth <==> source.None? && target.None?
    ensures status == MissingSource <==> source.None? && target.Some?
    ensures status == MissingTarget <==> source.Some? && target.None?
  {
    if source.None? && target.None? then MissingBoth
    else if source.None? then MissingSource
    else if target.None? then MissingTarget
    else if Rounding.Round(target.value.value - source.value.value, Rounding.MICROS) == 0.0 then Match
    else Delta
  }
}
