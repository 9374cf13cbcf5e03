// infra/feature_store.py: the trade facts and quote samples, and the rows computed from them.
module FeatureStore {
  import opened Schemas
  import opened Ordering

  datatype Side = BuySide | SellSide

  datatype TradeFact = TradeFact(
    tradeId: string,
    chain: Chain,
    token: Token,
    wallet: Option<string>,
    side: Side,
    quoteUsd: real,
    observedAt: int)

  // A window is named by its length in minutes; instants are microseconds.
  datatype WindowKey = WindowKey(chain: Chain, token: Token, minutes: int, end: int)

  datatype TradeWindow = TradeWindow(buyUsd: real, sellUsd: real, tradeCount: nat, uniqueWallets: nat)

  datatype Snapshot = Snapshot(value: real, sampleCount: nat)

  datatype QuoteSample = QuoteSample(
    quoteId: string,
    chain: Chain,
    token: Token,
    notionalUsd: real,
    slippageBps: real,
    quotedAt: int)

  datatype QuoteKey = QuoteKey(chain: Chain, token: Token, asOf: int)

  datatype TradeTables = TradeTables(
    facts: map<string, TradeFact>,
    windows: map<WindowKey, TradeWindow>,
    snapshots: map<WindowKey, Snapshot>)

  datatype QuoteTables = QuoteTables(
    samples: map<string, QuoteSample>,
    snapshots: map<QuoteKey, Snapshot>)

  const NO_TRADES := TradeTables(map[], map[], map[])
  const NO_QUOTES := QuoteTables(map[], map[])

  const MINUTE := 60_000_000
  const FACT_LIMIT: nat := 5000
  const SAMPLE_LIMIT: nat := 100

  predicate InWindow(f: TradeFact, key: WindowKey) {
    && f.chain == key.chain && f.token == key.token
    && key.end - key.minutes * MINUTE < f.observedAt <= key.end
  }

  function Matching(facts: map<string, TradeFact>, key: WindowKey): set<TradeFact> {
    set id | id in facts && InWindow(facts[id], key) :: facts[id]
  }

  function FactRank(f: TradeFact): Rank { Rank(f.observedAt, 0, f.tradeId, "") }

  // load_trade_facts over the span of a window
  ghost function Query(facts: map<string, TradeFact>, key: WindowKey): seq<TradeFact> {
    Selected(Matching(facts, key), FactRank, FACT_LIMIT)
  }

  function SamplesOf(samples: map<string, QuoteSample>, chain: Chain, token: Token): set<QuoteSample> {
    set id | id in samples && samples[id].chain == chain && samples[id].token == token :: samples[id]
  }

  function SampleRank(q: QuoteSample): Rank { Rank(q.quotedAt, 0, q.quoteId, "") }

  function Reversed<T>(s: seq<T>): (r: seq<T>)
    ensures |r| == |s|
  {
    if s == [] then [] else Reversed(s[1..]) + [s[0]]
  }

  lemma {:induction false} ReversedAt<T>(s: seq<T>, i: nat)
    requires i < |s|
    ensures Reversed(s)[i] == s[|s| - 1 - i]
  {
    if i < |s| - 1 {
      ReversedAt(s[1..], i);
    }
  }

  // DESC ... LIMIT, of rows listed in ascending order
  function NewestFirst(s: seq<QuoteSample>): seq<QuoteSample> {
    Reversed(if |s| <= SAMPLE_LIMIT then s else s[|s| - SAMPLE_LIMIT..])
  }

  lemma NewestFirstHead(s: seq<QuoteSample>)
    requires s != []
    ensures NewestFirst(s) != [] && NewestFirst(s)[0] == s[|s| - 1]
  {
    ReversedAt(if |s| <= SAMPLE_LIMIT then s else s[|s| - SAMPLE_LIMIT..], 0);
  }

  lemma NewestFirstOnly(s: seq<QuoteSample>, q: QuoteSample)
    requires q in NewestFirst(s)
    ensures q in s
  {
    var j: nat :| j < |NewestFirst(s)| && NewestFirst(s)[j] == q;
    ReversedAt(if |s| <= SAMPLE_LIMIT then s else s[|s| - SAMPLE_LIMIT..], j);
  }

  // load_quote_samples
  ghost function NewestSamples(samples: map<string, QuoteSample>, chain: Chain, token: Token): seq<QuoteSample> {
    NewestFirst(Sorted(SamplesOf(samples, chain, token), SampleRank))
  }

  // Rows are stored under their own ids.
  ghost predicate WellKeyed(t: TradeTables) {
    forall id | id in t.facts :: t.facts[id].tradeId == id
  }

  ghost predicate SamplesKeyed(t: QuoteTables) {
    forall id | id in t.samples :: t.samples[id].quoteId == id
  }

  lemma MatchingRanked(t: TradeTables, key: WindowKey)
    requires WellKeyed(t)
    ensures Ranked(Matching(t.facts, key), FactRank)
  {
  }

  lemma SamplesRanked(t: QuoteTables, chain: Chain, token: Token)
    requires SamplesKeyed(t)
    ensures Ranked(SamplesOf(t.samples, chain, token), SampleRank)
  {
  }

  // The rows that load_latest_snapshot orders first.
  ghost predicate LatestPressure(t: TradeTables, key: WindowKey) {
    && key in t.snapshots
    && forall k | k in t.snapshots && k.chain == key.chain && k.token == key.token && k.minutes == key.minutes ::
         k.end <= key.end
  }

  ghost predicate LatestSlippage(t: QuoteTables, key: QuoteKey) {
    && key in t.snapshots
    && forall k | k in t.snapshots && k.chain == key.chain && k.token == key.token :: k.asOf <= key.asOf
  }

  ghost function PressureNow(t: TradeTables, chain: Chain, token: Token, minutes: int): Option<Snapshot> {
    if end :| LatestPressure(t, WindowKey(chain, token, minutes, end))
    then Some(t.snapshots[WindowKey(chain, token, minutes, end)])
    else None
  }

  ghost function SlippageNow(t: QuoteTables, chain: Chain, token: Token): Option<Snapshot> {
    if asOf :| LatestSlippage(t, QuoteKey(chain, token, asOf))
    then Some(t.snapshots[QuoteKey(chain, token, asOf)])
    else None
  }

  lemma PressureKnown(t: TradeTables, key: WindowKey)
    requires LatestPressure(t, key)
    ensures PressureNow(t, key.chain, key.token, key.minutes) == Some(t.snapshots[key])
  {
  }

  lemma SlippageKnown(t: QuoteTables, key: QuoteKey)
    requires LatestSlippage(t, key)
    ensures SlippageNow(t, key.chain, key.token) == Some(t.snapshots[key])
  {
  }

  class FeatureStore {
    var facts: map<string, TradeFact>
    var windows: map<WindowKey, TradeWindow>
    var buyPressure: map<WindowKey, Snapshot>
    var samples: map<string, QuoteSample>
    var slippage: map<QuoteKey, Snapshot>

    function Trades(): TradeTables
      reads this
    {
      TradeTables(facts, windows, buyPressure)
    }

    function Quotes(): QuoteTables
      reads this
    {
      QuoteTables(samples, slippage)
    }

    ghost predicate Valid()
      reads this
    {
      WellKeyed(Trades()) && SamplesKeyed(Quotes())
    }

    constructor ()
      ensures Trades() == NO_TRADES && Quotes() == NO_QUOTES && Valid()
    {
      facts, windows, buyPressure, samples, slippage := map[], map[], map[], map[], map[];
    }

    method UpsertTradeFact(trade: TradeFact)
      requires Valid()
      modifies this`facts
      ensures Valid() && facts == old(facts)[trade.tradeId := trade]
    {
      facts := facts[trade.tradeId := trade];
    }

    method LoadTradeFacts(key: WindowKey) returns (rows: seq<TradeFact>)
      requires Valid()
      ensures rows == Query(facts, key)
    {
      MatchingRanked(Trades(), key);
      rows := Ordering.Select(Matching(facts, key), FactRank, FACT_LIMIT);
    }

    method UpsertTradeWindow(key: WindowKey, window: TradeWindow)
      requires Valid()
      modifies this`windows
      ensures Valid() && windows == old(windows)[key := window]
    {
      windows := windows[key := window];
    }

    method SaveBuyPressure(key: WindowKey, snapshot: Snapshot)
      requires Valid()
      modifies this`buyPressure
      ensures Valid() && buyPressure == old(buyPressure)[key := snapshot]
    {
      buyPressure := buyPressure[key := snapshot];
    }

    method AppendQuoteSample(sample: QuoteSample)
      requires Valid()
      modifies this`samples
      ensures Valid() && samples == old(samples)[sample.quoteId := sample]
    {
      samples := samples[sample.quoteId := sample];
    }

    method LoadQuoteSamples(chain: Chain, token: Token) returns (rows: seq<QuoteSample>)
      requires Valid()
      ensures rows == NewestSamples(samples, chain, token)
    {
      var items := SamplesOf(samples, chain, token);
      SamplesRanked(Quotes(), chain, token);
      var ascending := Ordering.Select(items, SampleRank, |items|);
      rows := NewestFirst(ascending);
    }

    method SaveSlippage(key: QuoteKey, snapshot: Snapshot)
      requires Valid()
      modifies this`slippage
      ensures Valid() && slippage == old(slippage)[key := snapshot]
    {
      slippage := slippage[key := snapshot];
    }

    method LoadLatestPressure(chain: Chain, token: Token, minutes: int) returns (latest: Option<Snapshot>)
      ensures latest == PressureNow(Trades(), chain, token, minutes)
    {
      latest := None;
      if key :|
        && key in buyPressure && key.chain == chain && key.token == token && key.minutes == minutes
        && (forall k | k in buyPressure && k.chain == chain && k.token == token && k.minutes == minutes ::
              k.end <= key.end)
      {
        PressureKnown(Trades(), key);
        latest := Some(buyPressure[key]);
      }
    }

    method LoadLatestSlippage(chain: Chain, token: Token) returns (latest: Option<Snapshot>)
      ensures latest == SlippageNow(Quotes(), chain, token)
    {
      latest := None;
      if key :|
        && key in slippage && key.chain == chain && key.token == token
        && (forall k | k in slippage && k.chain == chain && k.token == token :: k.asOf <= key.asOf)
      {
        SlippageKnown(Quotes(), key);
        latest := Some(slippage[key]);
      }
    }
  }
}
