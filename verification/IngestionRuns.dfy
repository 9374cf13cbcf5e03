// Whole ingestion runs: duplicates change nothing but a checkpoint, and a slot checkpoint never falls.
module IngestionRuns {
  import opened Schemas
  import opened FeatureStore
  import opened RawEvents
  import opened FeatureAggregator
  import opened Cursors
  import opened OnchainSync

  // --- idempotence -------------------------------------------------------------------------------

  // The keys that a list of records brings in.
  function Keys(xs: seq<Incoming>): set<EventKey> {
    set x | x in xs && Supported(x.event) :: KeyOf(x.event)
  }

  // The records that are the first with their source and event id, and not in the table yet.
  function Firsts(known: set<EventKey>, xs: seq<Incoming>): seq<Incoming> {
    if xs == [] then [] else
      var x := xs[|xs| - 1];
      Firsts(known, xs[..|xs| - 1])
      + if Supported(x.event) && KeyOf(x.event) !in known + Keys(xs[..|xs| - 1]) then [x] else []
  }

  lemma {:induction false} IngestedKeys(t: Tables, xs: seq<Incoming>, settings: FeatureSettings)
    ensures IngestedAll(t, xs, settings).raw.Keys == t.raw.Keys + Keys(xs)
    decreases |xs|
  {
    if xs != [] {
      var n := |xs| - 1;
      IngestedKeys(t, xs[..n], settings);
      KeysSnoc(xs[..n], xs[n]);
      assert xs == xs[..n] + [xs[n]];
    }
  }

  lemma KeysSnoc(xs: seq<Incoming>, x: Incoming)
    ensures Keys(xs + [x]) == Keys(xs) + if Supported(x.event) then {KeyOf(x.event)} else {}
  {
  }

  // Any list of trades and quotes, with duplicates, leaves the same raw events, facts, samples, rows and messages as
  // its first occurrences alone, whether or not they all classify.
  lemma {:induction false} DuplicatesChangeNothing(t: Tables, xs: seq<Incoming>, settings: FeatureSettings)
    ensures IngestedAll(t, xs, settings) == IngestedAll(t, Firsts(t.raw.Keys, xs), settings)
    decreases |xs|
  {
    if xs != [] {
      var n := |xs| - 1;
      var before, firsts := xs[..n], Firsts(t.raw.Keys, xs[..n]);
      DuplicatesChangeNothing(t, before, settings);
      IngestedKeys(t, before, settings);
      OneMoreRecord(t, before, xs[n], firsts, settings);
      assert xs == before + [xs[n]];
      assert Firsts(t.raw.Keys, xs) == firsts || Firsts(t.raw.Keys, xs) == firsts + [xs[n]];
    }
  }

  lemma OneMoreRecord(
    t: Tables, before: seq<Incoming>, x: Incoming, firsts: seq<Incoming>, settings: FeatureSettings)
    requires IngestedAll(t, before, settings) == IngestedAll(t, firsts, settings)
    requires IngestedAll(t, before, settings).raw.Keys == t.raw.Keys + Keys(before)
    ensures Supported(x.event) && KeyOf(x.event) !in t.raw.Keys + Keys(before) ==>
      IngestedAll(t, before + [x], settings) == IngestedAll(t, firsts + [x], settings)
    ensures !(Supported(x.event) && KeyOf(x.event) !in t.raw.Keys + Keys(before)) ==>
      IngestedAll(t, before + [x], settings) == IngestedAll(t, firsts, settings)
  {
  }

  // Ingesting a whole list again changes nothing at all.
  lemma {:induction false} AgainChangesNothing(t: Tables, xs: seq<Incoming>, settings: FeatureSettings)
    requires Keys(xs) <= t.raw.Keys
    ensures IngestedAll(t, xs, settings) == t
    decreases |xs|
  {
    if xs != [] {
      var n := |xs| - 1;
      assert xs == xs[..n] + [xs[n]];
      KeysSnoc(xs[..n], xs[n]);
      AgainChangesNothing(t, xs[..n], settings);
    }
  }

  lemma RepeatedRun(t: Tables, xs: seq<Incoming>, settings: FeatureSettings)
    ensures var once := IngestedAll(t, xs, settings); IngestedAll(once, xs, settings) == once
  {
    IngestedKeys(t, xs, settings);
    AgainChangesNothing(IngestedAll(t, xs, settings), xs, settings);
  }

  // --- checkpoints -------------------------------------------------------------------------------

  // The slots saved under one key by trades.
  function Slots(xs: seq<Incoming>, key: string): seq<int> {
    if xs == [] then [] else
      var x := xs[|xs| - 1];
      Slots(xs[..|xs| - 1], key)
      + if x.event.payload.TradePayload? && x.checkpointKey == Some(key) then [x.slot] else []
  }

  function Highest(slots: seq<int>, start: int): int {
    if slots == [] then start else
      var rest := Highest(slots[..|slots| - 1], start);
      if slots[|slots| - 1] > rest then slots[|slots| - 1] else rest
  }

  // Only trades save under this key.
  predicate TradesOnly(xs: seq<Incoming>, key: string) {
    forall x | x in xs && x.checkpointKey == Some(key) :: !x.event.payload.QuotePayload?
  }

  lemma HighestSnoc(slots: seq<int>, slot: int, start: int)
    ensures Highest(slots + [slot], start)
      == if slot > Highest(slots, start) then slot else Highest(slots, start)
  {
  }

  // After any trades, duplicates included, an integer cursor is the largest slot it has seen.
  lemma {:induction false} CursorIsHighest(
    cursors: map<string, string>, xs: seq<Incoming>, key: string, start: int)
    requires key in cursors && cursors[key] == Str(start) && TradesOnly(xs, key)
    ensures var after := CheckpointedAll(cursors, xs);
      key in after && after[key] == Str(Highest(Slots(xs, key), start))
    decreases |xs|
  {
    if xs != [] {
      var n := |xs| - 1;
      CursorIsHighest(cursors, xs[..n], key, start);
      var high := Highest(Slots(xs[..n], key), start);
      MaxCursorOfNumbers(high, xs[n].slot);
      HighestSnoc(Slots(xs[..n], key), xs[n].slot, start);
      assert Slots(xs[..n], key) + [] == Slots(xs[..n], key);
    }
  }

  lemma {:induction false} HighestGrows(slots: seq<int>, more: seq<int>, start: int)
    ensures Highest(slots, start) <= Highest(slots + more, start)
    decreases |more|
  {
    if more == [] {
      assert slots + more == slots;
    } else {
      var m := |more| - 1;
      HighestGrows(slots, more[..m], start);
      HighestSnoc(slots + more[..m], more[m], start);
      assert slots + more == (slots + more[..m]) + [more[m]];
    }
  }

  lemma {:induction false} SlotsPrefix(xs: seq<Incoming>, key: string, i: nat) returns (more: seq<int>)
    requires i <= |xs|
    ensures Slots(xs, key) == Slots(xs[..i], key) + more
    decreases |xs|
  {
    if i == |xs| {
      assert xs[..i] == xs;
      more := [];
    } else {
      var n := |xs| - 1;
      var rest := SlotsPrefix(xs[..n], key, i);
      assert xs[..n][..i] == xs[..i];
      more := rest
        + if xs[n].event.payload.TradePayload? && xs[n].checkpointKey == Some(key) then [xs[n].slot] else [];
    }
  }

  // So an integer cursor never decreases.
  lemma CursorNeverFalls(cursors: map<string, string>, xs: seq<Incoming>, key: string, start: int, i: nat)
    requires key in cursors && cursors[key] == Str(start) && TradesOnly(xs, key) && i <= |xs|
    ensures var earlier, later := CheckpointedAll(cursors, xs[..i]), CheckpointedAll(cursors, xs);
      && key in earlier && key in later
      && Int(earlier[key]).Some? && Int(later[key]).Some? && Int(earlier[key]).value <= Int(later[key]).value
  {
    CursorIsHighest(cursors, xs[..i], key, start);
    CursorIsHighest(cursors, xs, key, start);
    var more := SlotsPrefix(xs, key, i);
    HighestGrows(Slots(xs[..i], key), more, start);
    IntOfStr(Highest(Slots(xs[..i], key), start));
    IntOfStr(Highest(Slots(xs, key), start));
  }

  // A quote saves its id as it is, whatever was there; a record saves under its own key only.
  lemma QuoteSavesId(cursors: map<string, string>, x: Incoming, key: string)
    requires x.event.payload.QuotePayload?
    ensures x.checkpointKey == Some(key) ==>
      key in Checkpointed(cursors, x) && Checkpointed(cursors, x)[key] == x.event.payload.quoteId
    ensures x.checkpointKey != Some(key) ==>
      (key in Checkpointed(cursors, x) <==> key in cursors)
      && (key in cursors ==> Checkpointed(cursors, x)[key] == cursors[key])
  {
  }

  // --- cursors that are not numbers --------------------------------------------------------------

  // No run of trades ever moves this checkpoint.
  ghost predicate KeptForGood(cursors: map<string, string>, key: string)
    requires key in cursors
  {
    forall xs | TradesOnly(xs, key) ::
      var after := CheckpointedAll(cursors, xs); key in after && after[key] == cursors[key]
  }

  lemma {:induction false} StuckStays(cursors: map<string, string>, xs: seq<Incoming>, key: string)
    requires key in cursors && Stuck(cursors[key]) && TradesOnly(xs, key)
    ensures var after := CheckpointedAll(cursors, xs); key in after && after[key] == cursors[key]
    decreases |xs|
  {
    if xs != [] {
      StuckStays(cursors, xs[..|xs| - 1], key);
    }
  }

  // A cursor that is not a number is kept for good if and only if its first character that is not a nine sorts
  // after it.
  lemma TextCursorKeptExactly(cursors: map<string, string>, key: string)
    requires key in cursors && Int(cursors[key]) == None
    ensures KeptForGood(cursors, key) <==> PastNines(cursors[key])
  {
    TextCursorSticksExactly(cursors[key]);
    if PastNines(cursors[key]) {
      forall xs | TradesOnly(xs, key)
        ensures var after := CheckpointedAll(cursors, xs); key in after && after[key] == cursors[key]
      {
        StuckStays(cursors, xs, key);
      }
    } else {
      var slot := NinesSlot(cursors[key]);
      var x := Incoming(RawEvent("", "", "", "", 0, 0, TradePayload(None, "", 0.0, 0.0, 0.0)), slot, Some(key));
      assert [x][..0] == [] && TradesOnly([x], key);
      assert CheckpointedAll(cursors, [x])[key] != cursors[key];
    }
  }

  // --- what is published -------------------------------------------------------------------------

  // The pressure of the window of this pair and length that ends last.
  ghost predicate IsLatestPressure(
    t: TradeTables, chain: Chain, token: Token, minutes: int, latest: Option<Snapshot>)
  {
    && (forall key | key in t.snapshots && key.chain == chain && key.token == token && key.minutes == minutes
                     && (forall k | k in t.snapshots && k.chain == chain && k.token == token && k.minutes == minutes ::
                           k.end <= key.end) ::
          latest == Some(t.snapshots[key]))
    && (latest.Some? ==>
          exists key :: key in t.snapshots && key.chain == chain && key.token == token && key.minutes == minutes
                        && t.snapshots[key] == latest.value)
  }

  // And the slippage of this pair with the last date.
  ghost predicate IsLatestSlippage(t: QuoteTables, chain: Chain, token: Token, latest: Option<Snapshot>) {
    && (forall key | key in t.snapshots && key.chain == chain && key.token == token
                     && (forall k | k in t.snapshots && k.chain == chain && k.token == token :: k.asOf <= key.asOf) ::
          latest == Some(t.snapshots[key]))
    && (latest.Some? ==>
          exists key :: key in t.snapshots && key.chain == chain && key.token == token
                        && t.snapshots[key] == latest.value)
  }

  lemma PressureIsLatest(t: TradeTables, chain: Chain, token: Token, minutes: int)
    ensures IsLatestPressure(t, chain, token, minutes, PressureNow(t, chain, token, minutes))
  {
    forall key | key in t.snapshots && key.chain == chain && key.token == token && key.minutes == minutes
                 && (forall k | k in t.snapshots && k.chain == chain && k.token == token && k.minutes == minutes ::
                       k.end <= key.end)
      ensures PressureNow(t, chain, token, minutes) == Some(t.snapshots[key])
    {
      PressureKnown(t, key);
    }
  }

  lemma SlippageIsLatest(t: QuoteTables, chain: Chain, token: Token)
    ensures IsLatestSlippage(t, chain, token, SlippageNow(t, chain, token))
  {
    forall key | key in t.snapshots && key.chain == chain && key.token == token
                 && (forall k | k in t.snapshots && k.chain == chain && k.token == token :: k.asOf <= key.asOf)
      ensures SlippageNow(t, chain, token) == Some(t.snapshots[key])
    {
      SlippageKnown(t, key);
    }
  }

  // A new record puts on the stream itself, if it is a trade of the minimum or more, with its amount as it came; and
  // then the latest pressure over the primary window and the latest slippage of its pair, unless it does not classify.
  lemma MessagesExactly(t: Tables, e: RawEvent, settings: FeatureSettings)
    returns (pressure: Option<Snapshot>, slippage: Option<Snapshot>)
    requires Supported(e) && KeyOf(e) !in t.raw
    ensures var after, p := Ingested(t, e, settings), e.payload;
      && IsLatestPressure(after.trades, e.chain, e.token, settings.primaryWindow, pressure)
      && IsLatestSlippage(after.quotes, e.chain, e.token, slippage)
      && after.stream == t.stream
           + (if p.TradePayload? && p.quoteUsd >= settings.minTradeNotionalUsd
              then [TradeMessage(
                e.eventId, e.chain, e.token, p.wallet.GetOr(""), Direction(p.side), p.quoteUsd)]
              else [])
           + (if Classifiable(e) then [FeaturesMessage(e.chain, e.token, pressure, slippage)] else [])
  {
    var after := Ingested(t, e, settings);
    pressure := PressureNow(after.trades, e.chain, e.token, settings.primaryWindow);
    slippage := SlippageNow(after.quotes, e.chain, e.token);
    PressureIsLatest(after.trades, e.chain, e.token, settings.primaryWindow);
    SlippageIsLatest(after.quotes, e.chain, e.token);
  }

  // --- two of the code's own rules that disagree -------------------------------------------------

  // What a stored side would be announced as.
  function DirectionOf(side: Side): string {
    match side
    case BuySide => "inflow"
    case SellSide => "outflow"
  }

  // The announced direction of a classified trade is that of its stored side in exactly these cases. Any other side
  // text goes out as it is, and a sell without one goes out as an inflow.
  lemma DirectionAgreesExactly(t: Tables, e: RawEvent, settings: FeatureSettings)
    requires e.payload.TradePayload? && ClassifyTrade(e).Some?
    ensures KeyOf(e) !in t.raw && Announced(e, settings) ==>
      var s := Ingested(t, e, settings).stream;
      |s| > |t.stream| && s[|t.stream|].TradeMessage? && s[|t.stream|].direction == Direction(e.payload.side)
    ensures var p := e.payload;
      Direction(p.side) == DirectionOf(ClassifyTrade(e).value.side)
      <==>
        || p.side == "buy" || p.side == "sell"
        || (p.side == "inflow" && p.tokenAmount > 0.0)
        || (p.side == "outflow" && p.tokenAmount < 0.0)
        || (p.side == "" && p.tokenAmount > 0.0)
  {
    var p := e.payload;
    assert Direction(p.side) in {"inflow", "outflow"} || Direction(p.side) == p.side;
  }

  // For one: a sell recognised by the signs of its amounts is stored as a sell and announced as an inflow.
  lemma UnsidedSellAnnouncedAsInflow(t: Tables, e: RawEvent, settings: FeatureSettings)
    requires e.payload.TradePayload? && KeyOf(e) !in t.raw && e.payload.side == ""
    requires e.payload.tokenAmount < 0.0 && e.payload.quoteAmount > 0.0
    requires e.payload.quoteUsd >= settings.minTradeNotionalUsd
    ensures ClassifyTrade(e).Some? && ClassifyTrade(e).value.side == SellSide
    ensures var s := Ingested(t, e, settings).stream;
      |s| == |t.stream| + 2 && s[|t.stream|].TradeMessage? && s[|t.stream|].direction == "inflow"
  {
  }

  // --- what a run leaves behind ------------------------------------------------------------------

  function Events(xs: seq<Incoming>): seq<RawEvent> {
    if xs == [] then [] else Events(xs[..|xs| - 1]) + [xs[|xs| - 1].event]
  }

  // The events that a run from an empty repository keeps, in the order of their arrival.
  function Arrivals(xs: seq<Incoming>): seq<RawEvent> { Events(Firsts({}, xs)) }

  lemma EventsSnoc(xs: seq<Incoming>, x: Incoming)
    ensures Events(xs + [x]) == Events(xs) + [x.event]
  {
  }

  ghost predicate Keeps(t: Table, es: seq<RawEvent>) {
    WellKept(t) && forall e :: e in es <==> KeyOf(e) in t && t[KeyOf(e)] == e
  }

  lemma KeepsSnoc(t: Table, es: seq<RawEvent>, e: RawEvent)
    requires Keeps(t, es) && KeyOf(e) !in t
    ensures Keeps(t[KeyOf(e) := e], es + [e])
  {
  }

  // The raw table holds exactly the arrivals, and the feature tables are what feeding them in that order gives.
  lemma {:induction false} RunTables(xs: seq<Incoming>, settings: FeatureSettings)
    ensures var t, es := IngestedAll(EMPTY, xs, settings), Arrivals(xs);
      && Keeps(t.raw, es)
      && t.trades == FeedTrades(NO_TRADES, Facts(es), settings.tradeWindows)
      && t.quotes == FeedQuotes(NO_QUOTES, Samples(es), settings)
    decreases |xs|
  {
    if xs != [] {
      var n := |xs| - 1;
      RunTables(xs[..n], settings);
      RunStep(xs, settings);
    }
  }

  lemma RunStep(xs: seq<Incoming>, settings: FeatureSettings)
    requires xs != []
    requires var t, es := IngestedAll(EMPTY, xs[..|xs| - 1], settings), Arrivals(xs[..|xs| - 1]);
      && Keeps(t.raw, es)
      && t.trades == FeedTrades(NO_TRADES, Facts(es), settings.tradeWindows)
      && t.quotes == FeedQuotes(NO_QUOTES, Samples(es), settings)
    ensures var t, es := IngestedAll(EMPTY, xs, settings), Arrivals(xs);
      && Keeps(t.raw, es)
      && t.trades == FeedTrades(NO_TRADES, Facts(es), settings.tradeWindows)
      && t.quotes == FeedQuotes(NO_QUOTES, Samples(es), settings)
  {
    var n := |xs| - 1;
    var t, es, e := IngestedAll(EMPTY, xs[..n], settings), Arrivals(xs[..n]), xs[n].event;
    IngestedKeys(EMPTY, xs[..n], settings);
    if Supported(e) && KeyOf(e) !in Keys(xs[..n]) {
      EventsSnoc(Firsts({}, xs[..n]), xs[n]);
      assert Arrivals(xs) == es + [e];
      KeepsSnoc(t.raw, es, e);
      TradesFedSnoc(NO_TRADES, es, e, settings);
      QuotesFedSnoc(NO_QUOTES, es, e, settings);
    } else {
      assert Firsts({}, xs) == Firsts({}, xs[..n]);
    }
  }
}
