// A record whose ingestion dies: what each prefix of its writes leaves, and what redelivery makes of it.
module IngestionCrashes {
  import opened Schemas
  import opened FeatureStore
  import opened RawEvents
  import opened FeatureAggregator
  import opened Cursors
  import opened OnchainSync
  import opened WindowRows
  import IngestionRuns

  // --- the writes together -----------------------------------------------------------------------

  // All of them make the whole step.
  lemma WritesComplete(st: Stores, x: Incoming, settings: FeatureSettings)
    ensures AfterAll(st, IngestWrites(st, x, settings))
      == Stores(Ingested(st.tables, x.event, settings), Checkpointed(st.cursors, x))
  {
    if Supported(x.event) {
      var collected := Collected(st, x);
      CollectWrites(st, x);
      if KeyOf(x.event) in st.tables.raw {
        assert IngestWrites(st, x, settings) == CollectionOf(st, x) + [] == CollectionOf(st, x);
      } else {
        AfterAllConcat(st, CollectionOf(st, x), NewWrites(st.tables.trades, st.tables.quotes, x.event, settings));
        NewComplete(collected, x.event, settings);
      }
    }
  }

  function CollectionOf(st: Stores, x: Incoming): seq<Write>
    requires Supported(x.event)
  {
    RawWrites(st.tables.raw, x.event) + CursorWrites(st.cursors, x)
  }

  function Collected(st: Stores, x: Incoming): Stores {
    Stores(st.tables.(raw := Saved(st.tables.raw, x.event)), Checkpointed(st.cursors, x))
  }

  lemma CollectWrites(st: Stores, x: Incoming)
    requires Supported(x.event)
    ensures AfterAll(st, CollectionOf(st, x)) == Collected(st, x)
  {
    var raw, cursor := RawWrites(st.tables.raw, x.event), CursorWrites(st.cursors, x);
    AfterAllConcat(st, raw, cursor);
    AfterOne(st, SaveRaw(x.event));
    if x.checkpointKey.Some? {
      AfterOne(AfterAll(st, raw), cursor[0]);
    }
  }

  lemma MessageComplete(st: Stores, e: RawEvent, settings: FeatureSettings)
    ensures AfterAll(st, MessageWrites(e, settings))
      == if Announced(e, settings)
         then st.(tables := st.tables.(stream := st.tables.stream + [TradeAnnouncement(e)])) else st
  {
    if Announced(e, settings) {
      AfterOne(st, Announce(TradeAnnouncement(e)));
    }
  }

  lemma RowsComplete(st: Stores, e: RawEvent, settings: FeatureSettings)
    requires Supported(e) && Classifiable(e)
    ensures var t := st.tables;
      AfterAll(st, RowWrites(t.trades, t.quotes, e, settings))
      == st.(tables := t.(trades := TradeFed(t.trades, e, settings), quotes := QuoteFed(t.quotes, e, settings)))
  {
    var t := st.tables;
    if e.payload.TradePayload? {
      var f := ClassifyTrade(e).value;
      var ws := TradeWrites(t.trades, f, settings.tradeWindows);
      AfterTrades(st, ws, |ws|);
      TradeComplete(t.trades, f, settings.tradeWindows);
    } else {
      AfterQuotes(st, QuoteWrites(t.quotes, ClassifyQuote(e).value, settings), 2);
    }
  }

  lemma NewComplete(st: Stores, e: RawEvent, settings: FeatureSettings)
    requires Supported(e)
    ensures var t := st.tables;
      var trades, quotes := TradeFed(t.trades, e, settings), QuoteFed(t.quotes, e, settings);
      AfterAll(st, NewWrites(t.trades, t.quotes, e, settings))
      == st.(tables := t.(
           trades := trades, quotes := quotes, stream := t.stream + Published(trades, quotes, e, settings)))
  {
    var t := st.tables;
    MessageComplete(st, e, settings);
    AfterAllConcat(st, MessageWrites(e, settings), FeatureWrites(t.trades, t.quotes, e, settings));
    if Classifiable(e) {
      FeaturesComplete(AfterAll(st, MessageWrites(e, settings)), e, settings);
    }
  }

  lemma FeaturesComplete(st: Stores, e: RawEvent, settings: FeatureSettings)
    requires Supported(e) && Classifiable(e)
    ensures var t := st.tables;
      var trades, quotes := TradeFed(t.trades, e, settings), QuoteFed(t.quotes, e, settings);
      AfterAll(st, FeatureWrites(t.trades, t.quotes, e, settings))
      == st.(tables := t.(
           trades := trades, quotes := quotes, stream := t.stream + [LatestFeatures(trades, quotes, e, settings)]))
  {
    var t := st.tables;
    var last := LatestFeatures(TradeFed(t.trades, e, settings), QuoteFed(t.quotes, e, settings), e, settings);
    var rows := RowWrites(t.trades, t.quotes, e, settings);
    RowsComplete(st, e, settings);
    AfterAllConcat(st, rows, [Announce(last)]);
    AfterOne(AfterAll(st, rows), Announce(last));
  }

  // --- the rows of an interrupted trade ----------------------------------------------------------

  lemma {:induction false} WindowsComplete(t: TradeTables, f: TradeFact, windows: seq<int>)
    ensures var ws := WindowWrites(t.facts, f, windows);
      TradeAfter(t, ws, |ws|) == RefreshedAll(t, f, windows) && RefreshedAll(t, f, windows).facts == t.facts
    decreases |windows|
  {
    if windows != [] {
      var n := |windows| - 1;
      WindowsComplete(t, f, windows[..n]);
      var ws := WindowWrites(t.facts, f, windows[..n]);
      LastPair(t.facts, f, windows);
      PairComplete(t, ws, RefreshedAll(t, f, windows[..n]), f, windows[n]);
    }
  }

  lemma PairComplete(t: TradeTables, ws: seq<TradeWrite>, t': TradeTables, f: TradeFact, minutes: int)
    requires TradeAfter(t, ws, |ws|) == t'
    ensures var pair := PairOf(t'.facts, f, minutes);
      TradeAfter(t, ws + pair, |ws| + 2) == Refreshed(t', f, minutes)
  {
    var pair := PairOf(t'.facts, f, minutes);
    TradeAfterConcat(t, ws, pair, |ws| + 2);
    assert TradeAfter(t', pair, 1) == TradeWritten(TradeAfter(t', pair, 0), pair[0]);
  }

  lemma TradeComplete(t: TradeTables, f: TradeFact, windows: seq<int>)
    ensures var ws := TradeWrites(t, f, windows); TradeAfter(t, ws, |ws|) == TradeStep(t, f, windows)
  {
    var t' := t.(facts := t.facts[f.tradeId := f]);
    var rows := WindowWrites(t'.facts, f, windows);
    TradeAfterConcat(t, [SaveFact(f)], rows, 1 + |rows|);
    TradeAfterSnoc(t, [], SaveFact(f));
    WindowsComplete(t', f, windows);
  }

  // The window is among the first q.
  predicate Reached(f: TradeFact, key: WindowKey, windows: seq<int>, q: nat)
    requires q <= |windows|
  {
    key == KeyAt(f, key.minutes) && exists i | 0 <= i < q :: windows[i] == key.minutes
  }

  lemma ReachedNext(f: TradeFact, key: WindowKey, windows: seq<int>, q: nat)
    requires q < |windows|
    ensures Reached(f, key, windows, q + 1) <==> Reached(f, key, windows, q) || key == KeyAt(f, windows[q])
  {
    assert key == KeyAt(f, windows[q]) ==> windows[q] == key.minutes;
  }

  lemma ReachedPrefix(f: TradeFact, key: WindowKey, windows: seq<int>, n: nat, q: nat)
    requires q <= n <= |windows|
    ensures Reached(f, key, windows[..n], q) <==> Reached(f, key, windows, q)
  {
    assert forall i | 0 <= i < q :: windows[..n][i] == windows[i];
  }

  // So many writes make q windows, the last of them perhaps without its pressure.
  function Count(q: nat, half: bool): nat
    requires half ==> q > 0
  {
    if half then 2 * q - 1 else 2 * q
  }

  // Then these windows have their new row and the others their old one.
  ghost predicate RowsAt(t: TradeTables, f: TradeFact, windows: seq<int>, q: nat, half: bool, key: WindowKey)
    requires q <= |windows| && (half ==> q > 0)
  {
    var ws := WindowWrites(t.facts, f, windows);
    && Count(q, half) <= |ws|
    && RowStep(t, TradeAfter(t, ws, Count(q, half)), key, Reached(f, key, windows, q))
  }

  lemma {:induction false} RowsAfter(
    t: TradeTables, f: TradeFact, windows: seq<int>, q: nat, half: bool, key: WindowKey)
    requires q <= |windows| && (half ==> q > 0)
    ensures RowsAt(t, f, windows, q, half, key)
    decreases |windows|
  {
    if windows != [] {
      var n := |windows| - 1;
      if q <= n {
        RowsAfter(t, f, windows[..n], q, half, key);
        RowsExtend(t, f, windows, q, half, key);
      } else {
        RowsAfter(t, f, windows[..n], n, false, key);
        RowsFinish(t, f, windows, half, key);
      }
    }
  }

  lemma RowsExtend(t: TradeTables, f: TradeFact, windows: seq<int>, q: nat, half: bool, key: WindowKey)
    requires q < |windows| && (half ==> q > 0) && RowsAt(t, f, windows[..|windows| - 1], q, half, key)
    ensures RowsAt(t, f, windows, q, half, key)
  {
    RowsSplit(t, f, windows, Count(q, half));
    ReachedPrefix(f, key, windows, |windows| - 1, q);
  }

  lemma RowsFinish(t: TradeTables, f: TradeFact, windows: seq<int>, half: bool, key: WindowKey)
    requires windows != [] && RowsAt(t, f, windows[..|windows| - 1], |windows| - 1, false, key)
    ensures RowsAt(t, f, windows, |windows|, half, key)
  {
    var n := |windows| - 1;
    RowsSplit(t, f, windows, Count(n + 1, half));
    ReachedPrefix(f, key, windows, n, n);
    OneMoreRow(t, TradeAfter(t, WindowWrites(t.facts, f, windows[..n]), 2 * n), f, windows, half, key);
  }

  // The last window comes after the others.
  lemma RowsSplit(t: TradeTables, f: TradeFact, windows: seq<int>, r: nat)
    requires windows != [] && r <= 2 * |windows|
    ensures var n := |windows| - 1;
      var ws, all := WindowWrites(t.facts, f, windows[..n]), WindowWrites(t.facts, f, windows);
      && |ws| == 2 * n && |all| == 2 * |windows|
      && TradeAfter(t, all, r)
           == if r <= 2 * n then TradeAfter(t, ws, r)
              else TradeAfter(TradeAfter(t, ws, 2 * n), PairOf(t.facts, f, windows[n]), r - 2 * n)
  {
    var n := |windows| - 1;
    LastPair(t.facts, f, windows);
    WritesLength(t.facts, f, windows[..n]);
    TradeAfterConcat(t, WindowWrites(t.facts, f, windows[..n]), PairOf(t.facts, f, windows[n]), r);
  }

  lemma {:induction false} WritesLength(facts: map<string, TradeFact>, f: TradeFact, windows: seq<int>)
    ensures |WindowWrites(facts, f, windows)| == 2 * |windows|
    decreases |windows|
  {
    if windows != [] {
      WritesLength(facts, f, windows[..|windows| - 1]);
    }
  }

  lemma LastPair(facts: map<string, TradeFact>, f: TradeFact, windows: seq<int>)
    requires windows != []
    ensures var n := |windows| - 1;
      WindowWrites(facts, f, windows) == WindowWrites(facts, f, windows[..n]) + PairOf(facts, f, windows[n])
  {
  }

  lemma OneMoreRow(t: TradeTables, t': TradeTables, f: TradeFact, windows: seq<int>, half: bool, key: WindowKey)
    requires windows != [] && RowStep(t, t', key, Reached(f, key, windows, |windows| - 1))
    ensures RowStep(
      t, TradeAfter(t', PairOf(t.facts, f, windows[|windows| - 1]), if half then 1 else 2), key,
      Reached(f, key, windows, |windows|))
  {
    var pair := PairOf(t.facts, f, windows[|windows| - 1]);
    ReachedNext(f, key, windows, |windows| - 1);
    assert TradeAfter(t', pair, 1) == TradeWritten(TradeAfter(t', pair, 0), pair[0]);
    assert TradeAfter(t', pair, 2) == TradeWritten(TradeAfter(t', pair, 1), pair[1]);
  }

  // --- one record, interrupted -------------------------------------------------------------------

  // Before its k-th write the record has written neither fact nor row.
  function Preamble(st: Stores, x: Incoming, settings: FeatureSettings): nat
    requires Supported(x.event)
  {
    |CollectionOf(st, x)| + |MessageWrites(x.event, settings)|
  }

  predicate New(st: Stores, x: Incoming) { Supported(x.event) && KeyOf(x.event) !in st.tables.raw }

  lemma Split(st: Stores, x: Incoming, settings: FeatureSettings)
    requires New(st, x)
    ensures IngestWrites(st, x, settings)
      == (CollectionOf(st, x) + MessageWrites(x.event, settings))
         + FeatureWrites(st.tables.trades, st.tables.quotes, x.event, settings)
  {
  }

  // The raw event is the first write, and the only one of its kind.
  predicate RawFirst(ws: seq<Write>, e: RawEvent) {
    && |ws| > 0 && ws[0] == SaveRaw(e)
    && forall i | 1 <= i < |ws| :: !ws[i].SaveRaw?
  }

  lemma WritesRawFirst(st: Stores, x: Incoming, settings: FeatureSettings)
    requires New(st, x)
    ensures RawFirst(IngestWrites(st, x, settings), x.event)
  {
    var fs := FeatureWrites(st.tables.trades, st.tables.quotes, x.event, settings);
    Split(st, x, settings);
    assert forall w | w in fs :: !w.SaveRaw?;
  }

  lemma {:induction false} RawKept(st: Stores, ws: seq<Write>, e: RawEvent, k: nat)
    requires RawFirst(ws, e) && KeyOf(e) !in st.tables.raw && 0 < k <= |ws|
    ensures After(st, ws, k).tables.raw == st.tables.raw[KeyOf(e) := e]
    decreases k
  {
    if k == 1 {
      assert After(st, ws, 1) == Written(After(st, ws, 0), ws[0]);
    } else {
      RawKept(st, ws, e, k - 1);
    }
  }

  // However often the record is redelivered after that, it is a duplicate.
  lemma RedeliveredInVain(
    st: Stores, x: Incoming, settings: FeatureSettings, k: nat, again: seq<Incoming>)
    requires New(st, x) && 0 < k <= |IngestWrites(st, x, settings)|
    requires forall y | y in again :: KeyOf(y.event) == KeyOf(x.event)
    ensures var c := After(st, IngestWrites(st, x, settings), k).tables;
      IngestedAll(c, again, settings) == c
  {
    WritesRawFirst(st, x, settings);
    RawKept(st, IngestWrites(st, x, settings), x.event, k);
    IngestionRuns.AgainChangesNothing(After(st, IngestWrites(st, x, settings), k).tables, again, settings);
  }

  lemma {:induction false} RowsUntouched(st: Stores, ws: seq<Write>, k: nat)
    requires k <= |ws| && forall i | 0 <= i < k :: !ws[i].OfTrade? && !ws[i].OfQuote?
    ensures After(st, ws, k).tables.trades == st.tables.trades && After(st, ws, k).tables.quotes == st.tables.quotes
    decreases k
  {
    if k > 0 {
      RowsUntouched(st, ws, k - 1);
    }
  }

  lemma PreambleKinds(st: Stores, x: Incoming, settings: FeatureSettings)
    requires Supported(x.event)
    ensures forall w | w in CollectionOf(st, x) + MessageWrites(x.event, settings) :: !w.OfTrade? && !w.OfQuote?
  {
  }

  // How many of n windows a trade has refreshed with m writes, the fact included.
  function RowsDone(m: nat, n: nat): (q: nat)
    ensures q <= n
  {
    if m / 2 <= n then m / 2 else n
  }

  lemma PastPreamble(st: Stores, x: Incoming, settings: FeatureSettings)
    requires New(st, x) && |IngestWrites(st, x, settings)| > Preamble(st, x, settings)
    ensures Classifiable(x.event)
  {
    Split(st, x, settings);
  }

  lemma WritesOfTrade(st: Stores, x: Incoming, settings: FeatureSettings) returns (pre: seq<Write>, last: Message)
    requires New(st, x) && x.event.payload.TradePayload? && Classifiable(x.event)
    ensures |pre| == Preamble(st, x, settings) && forall w | w in pre :: !w.OfTrade? && !w.OfQuote?
    ensures var rows := TradeWrites(st.tables.trades, ClassifyTrade(x.event).value, settings.tradeWindows);
      IngestWrites(st, x, settings) == pre + (OfTrades(rows) + [Announce(last)])
  {
    var t, e := st.tables, x.event;
    pre := CollectionOf(st, x) + MessageWrites(e, settings);
    last := LatestFeatures(TradeFed(t.trades, e, settings), QuoteFed(t.quotes, e, settings), e, settings);
    Split(st, x, settings);
    PreambleKinds(st, x, settings);
    TradeFeatures(t.trades, t.quotes, e, settings);
  }

  lemma RowsLeftAfter(st: Stores, x: Incoming, settings: FeatureSettings, k: nat, key: WindowKey)
    requires New(st, x) && x.event.payload.TradePayload? && Classifiable(x.event)
    requires Preamble(st, x, settings) < k <= |IngestWrites(st, x, settings)|
    ensures RowsLeft(
      st.tables.trades, After(st, IngestWrites(st, x, settings), k).tables.trades, ClassifyTrade(x.event).value,
      settings.tradeWindows, k - Preamble(st, x, settings), key)
  {
    var pre, last := WritesOfTrade(st, x, settings);
    RowsLast(st, pre, ClassifyTrade(x.event).value, settings.tradeWindows, last, k, key);
  }

  lemma RowsLast(
    st: Stores, pre: seq<Write>, f: TradeFact, windows: seq<int>, last: Message, k: nat, key: WindowKey)
    requires |pre| < k <= |pre| + |TradeWrites(st.tables.trades, f, windows)| + 1
    requires forall w | w in pre :: !w.OfTrade? && !w.OfQuote?
    ensures var rows := TradeWrites(st.tables.trades, f, windows);
      RowsLeft(
        st.tables.trades, After(st, pre + (OfTrades(rows) + [Announce(last)]), k).tables.trades, f, windows,
        k - |pre|, key)
  {
    var rows := TradeWrites(st.tables.trades, f, windows);
    AfterConcat(st, pre, OfTrades(rows) + [Announce(last)], k);
    RowsUntouched(st, pre, |pre|);
    RowsThenMessage(AfterAll(st, pre), f, windows, last, k - |pre|, key);
  }

  lemma TradeFeatures(t: TradeTables, q: QuoteTables, e: RawEvent, settings: FeatureSettings)
    requires e.payload.TradePayload? && ClassifyTrade(e).Some?
    ensures FeatureWrites(t, q, e, settings)
      == OfTrades(TradeWrites(t, ClassifyTrade(e).value, settings.tradeWindows))
         + [Announce(LatestFeatures(TradeFed(t, e, settings), QuoteFed(q, e, settings), e, settings))]
  {
  }

  lemma RowsThenMessage(
    st: Stores, f: TradeFact, windows: seq<int>, last: Message, m: nat, key: WindowKey)
    requires 0 < m <= |TradeWrites(st.tables.trades, f, windows)| + 1
    ensures var rows := TradeWrites(st.tables.trades, f, windows);
      RowsLeft(
        st.tables.trades, After(st, OfTrades(rows) + [Announce(last)], m).tables.trades, f, windows, m, key)
  {
    var rows := TradeWrites(st.tables.trades, f, windows);
    AfterConcat(st, OfTrades(rows), [Announce(last)], m);
    AfterTrades(st, rows, if m <= |rows| then m else |rows|);
    AfterOne(AfterAll(st, OfTrades(rows)), Announce(last));
    InterruptedRows(st.tables.trades, f, windows, m, key);
  }

  // A trade whose ingestion dies after k writes: without its fact, or with the fact and the rows of the first windows
  // only. Redelivering it changes nothing, so the other rows stay without it until another trade rewrites them.
  lemma InterruptedTrade(
    st: Stores, x: Incoming, settings: FeatureSettings, k: nat, again: seq<Incoming>, key: WindowKey)
    requires New(st, x) && x.event.payload.TradePayload? && 0 < k <= |IngestWrites(st, x, settings)|
    requires forall y | y in again :: KeyOf(y.event) == KeyOf(x.event)
    ensures var c := After(st, IngestWrites(st, x, settings), k).tables;
      var t, left := st.tables.trades, IngestedAll(c, again, settings).trades;
      if k <= Preamble(st, x, settings) then left == t
      else
        && ClassifyTrade(x.event).Some?
        && RowsLeft(
             t, left, ClassifyTrade(x.event).value, settings.tradeWindows, k - Preamble(st, x, settings), key)
  {
    RedeliveredInVain(st, x, settings, k, again);
    InterruptedFeatures(st, x, settings, k, key);
  }

  lemma InterruptedFeatures(st: Stores, x: Incoming, settings: FeatureSettings, k: nat, key: WindowKey)
    requires New(st, x) && x.event.payload.TradePayload? && k <= |IngestWrites(st, x, settings)|
    ensures var t, left := st.tables.trades, After(st, IngestWrites(st, x, settings), k).tables.trades;
      if k <= Preamble(st, x, settings) then left == t
      else
        && ClassifyTrade(x.event).Some?
        && RowsLeft(
             t, left, ClassifyTrade(x.event).value, settings.tradeWindows, k - Preamble(st, x, settings), key)
  {
    if k <= Preamble(st, x, settings) {
      NoRowsYet(st, x, settings, k);
    } else {
      PastPreamble(st, x, settings);
      RowsLeftAfter(st, x, settings, k, key);
    }
  }

  // After m writes: the fact is there, and the first windows have their new row.
  ghost predicate RowsLeft(
    t: TradeTables, left: TradeTables, f: TradeFact, windows: seq<int>, m: nat, key: WindowKey)
  {
    RowStep(t.(facts := t.facts[f.tradeId := f]), left, key, Reached(f, key, windows, RowsDone(m, |windows|)))
  }

  lemma NoRowsYet(st: Stores, x: Incoming, settings: FeatureSettings, k: nat)
    requires New(st, x) && k <= Preamble(st, x, settings) && k <= |IngestWrites(st, x, settings)|
    ensures After(st, IngestWrites(st, x, settings), k).tables.trades == st.tables.trades
  {
    var pre := CollectionOf(st, x) + MessageWrites(x.event, settings);
    Split(st, x, settings);
    PreambleKinds(st, x, settings);
    AfterConcat(st, pre, FeatureWrites(st.tables.trades, st.tables.quotes, x.event, settings), k);
    RowsUntouched(st, pre, k);
  }

  lemma InterruptedRows(t: TradeTables, f: TradeFact, windows: seq<int>, m: nat, key: WindowKey)
    requires m > 0
    ensures var ws := TradeWrites(t, f, windows);
      RowsLeft(t, TradeAfter(t, ws, if m <= |ws| then m else |ws|), f, windows, m, key)
  {
    var q, half := RowsDone(m, |windows|), Halfway(m, |windows|);
    WritesCount(m, |windows|);
    FactAndRows(t, f, windows, q, half, key);
  }

  lemma FactAndRows(t: TradeTables, f: TradeFact, windows: seq<int>, q: nat, half: bool, key: WindowKey)
    requires q <= |windows| && (half ==> q > 0)
    ensures var ws := TradeWrites(t, f, windows);
      && |ws| == 1 + 2 * |windows|
      && RowStep(
           t.(facts := t.facts[f.tradeId := f]), TradeAfter(t, ws, 1 + Count(q, half)), key,
           Reached(f, key, windows, q))
  {
    FactThenRows(t, f, windows, Count(q, half));
    RowsAfter(t.(facts := t.facts[f.tradeId := f]), f, windows, q, half, key);
  }

  // The last write was a row, and its pressure is missing.
  predicate Halfway(m: nat, n: nat) { m <= 2 * n && m % 2 == 0 }

  lemma WritesCount(m: nat, n: nat)
    requires m > 0
    ensures Halfway(m, n) ==> RowsDone(m, n) > 0
    ensures 1 + Count(RowsDone(m, n), Halfway(m, n)) == if m <= 1 + 2 * n then m else 1 + 2 * n
  {
  }

  lemma FactThenRows(t: TradeTables, f: TradeFact, windows: seq<int>, r: nat)
    requires r <= 2 * |windows|
    ensures var t', ws := t.(facts := t.facts[f.tradeId := f]), TradeWrites(t, f, windows);
      && |ws| == 1 + 2 * |windows| && |WindowWrites(t'.facts, f, windows)| == 2 * |windows|
      && TradeAfter(t, ws, 1 + r) == TradeAfter(t', WindowWrites(t'.facts, f, windows), r)
  {
    var rows := WindowWrites(t.facts[f.tradeId := f], f, windows);
    WritesLength(t.facts[f.tradeId := f], f, windows);
    TradeAfterConcat(t, [SaveFact(f)], rows, 1 + r);
    TradeAfterSnoc(t, [], SaveFact(f));
  }

  // --- exactly when nothing is lost --------------------------------------------------------------

  predicate OnlyCursors(ws: seq<Write>, k: nat) { forall i | k <= i < |ws| :: ws[i].SaveCursor? }

  lemma {:induction false} StreamGrows(st: Stores, ws: seq<Write>, k: nat, n: nat)
    requires k <= n <= |ws|
    ensures |After(st, ws, k).tables.stream| <= |After(st, ws, n).tables.stream|
    ensures (exists i | k <= i < n :: ws[i].Announce?) ==>
      |After(st, ws, k).tables.stream| < |After(st, ws, n).tables.stream|
    decreases n
  {
    if k < n {
      StreamGrows(st, ws, k, n - 1);
    }
  }

  lemma {:induction false} CursorsKeepTables(st: Stores, ws: seq<Write>, k: nat, n: nat)
    requires k <= n <= |ws| && OnlyCursors(ws, k)
    ensures After(st, ws, n).tables == After(st, ws, k).tables
    decreases n
  {
    if k < n {
      CursorsKeepTables(st, ws, k, n - 1);
    }
  }

  // After the raw event, whatever is still to be written ends with a message, unless only the cursor is.
  lemma AnnouncedLast(st: Stores, x: Incoming, settings: FeatureSettings, k: nat)
    requires New(st, x) && 0 < k <= |IngestWrites(st, x, settings)|
    requires !OnlyCursors(IngestWrites(st, x, settings), k)
    ensures var ws := IngestWrites(st, x, settings); exists i | k <= i < |ws| :: ws[i].Announce?
  {
    var ws := IngestWrites(st, x, settings);
    Split(st, x, settings);
    var n := |ws| - 1;
    assert !ws[n].Announce? ==> !Classifiable(x.event) && !Announced(x.event, settings);
    var i :| k <= i < |ws| && !ws[i].SaveCursor?;
    assert ws[n].Announce?;
  }

  // A record that dies and is redelivered ends up as if it had not died, checkpoints apart, if and only if it died
  // before its first write or had nothing but its cursor left to write.
  lemma LostExactly(
    st: Stores, x: Incoming, settings: FeatureSettings, k: nat, again: seq<Incoming>)
    requires New(st, x) && k <= |IngestWrites(st, x, settings)|
    requires again != [] && forall y | y in again :: y.event == x.event
    ensures var ws := IngestWrites(st, x, settings);
      IngestedAll(After(st, ws, k).tables, again, settings) == Ingested(st.tables, x.event, settings)
      <==> k == 0 || OnlyCursors(ws, k)
  {
    var ws := IngestWrites(st, x, settings);
    WritesComplete(st, x, settings);
    if k == 0 {
      FirstCounts(st.tables, x, settings, again);
    } else {
      RedeliveredInVain(st, x, settings, k, again);
      if OnlyCursors(ws, k) {
        CursorsKeepTables(st, ws, k, |ws|);
      } else {
        AnnouncedLast(st, x, settings, k);
        StreamGrows(st, ws, k, |ws|);
      }
    }
  }

  lemma {:induction false} FirstCounts(t: Tables, x: Incoming, settings: FeatureSettings, again: seq<Incoming>)
    requires Supported(x.event) && KeyOf(x.event) !in t.raw
    requires again != [] && forall y | y in again :: y.event == x.event
    ensures IngestedAll(t, again, settings) == Ingested(t, x.event, settings)
    decreases |again|
  {
    var n := |again| - 1;
    assert again[n] in again;
    if n > 0 {
      FirstCounts(t, x, settings, again[..n]);
    } else {
      assert again[..n] == [];
    }
  }
}
