// sentinel/onchain_feature_sync.py over sentinel/onchain_collector.py: trades and quotes collected once, then
// aggregated and published only if they were new.
module OnchainSync {
  import opened Schemas
  import opened FeatureStore
  import opened RawEvents
  import opened FeatureAggregator
  import opened Cursors

  datatype Message =
    | TradeMessage(eventId: string, chain: Chain, token: Token, wallet: string, direction: string, notionalUsd: real)
    | FeaturesMessage(chain: Chain, token: Token, pressure: Option<Snapshot>, slippage: Option<Snapshot>)

  // A record to ingest; cursor is the slot of a trade.
  datatype Incoming = Incoming(event: RawEvent, slot: int, checkpointKey: Option<string>)

  // --- what ingesting does -----------------------------------------------------------------------

  // Everything but the checkpoints.
  datatype Tables = Tables(raw: Table, trades: TradeTables, quotes: QuoteTables, stream: seq<Message>)

  const EMPTY := Tables(map[], NO_TRADES, NO_QUOTES, [])

  function Direction(side: string): string {
    if side == "buy" then "inflow" else if side == "sell" then "outflow" else if side != "" then side else "inflow"
  }

  ghost function LatestFeatures(t: TradeTables, q: QuoteTables, e: RawEvent, settings: FeatureSettings): Message {
    FeaturesMessage(
      e.chain, e.token, PressureNow(t, e.chain, e.token, settings.primaryWindow), SlippageNow(q, e.chain, e.token))
  }

  // What a trade or quote just aggregated puts on the stream: the trade itself if it is large enough, then the
  // latest features unless the aggregator raised.
  ghost function Published(t: TradeTables, q: QuoteTables, e: RawEvent, settings: FeatureSettings): seq<Message> {
    (if Announced(e, settings) then [TradeAnnouncement(e)] else [])
    + if Classifiable(e) then [LatestFeatures(t, q, e, settings)] else []
  }

  // Other records are refused with a ValueError before anything is stored.
  predicate Supported(e: RawEvent) { !e.payload.OtherPayload? }

  ghost function Ingested(t: Tables, e: RawEvent, settings: FeatureSettings): Tables {
    if !Supported(e) || KeyOf(e) in t.raw then t
    else
      var trades, quotes := TradeFed(t.trades, e, settings), QuoteFed(t.quotes, e, settings);
      Tables(t.raw[KeyOf(e) := e], trades, quotes, t.stream + Published(trades, quotes, e, settings))
  }

  // A trade keeps the larger cursor, a quote overwrites it; both also when the record is a duplicate.
  function Checkpointed(cursors: map<string, string>, x: Incoming): map<string, string> {
    if !Supported(x.event) || x.checkpointKey.None? then cursors
    else
      var key := x.checkpointKey.value;
      cursors[key :=
        if x.event.payload.TradePayload?
        then MaxCursor(if key in cursors then Some(cursors[key]) else None, Str(x.slot))
        else x.event.payload.quoteId]
  }

  // The call returns instead of raising.
  predicate Returns(t: Table, e: RawEvent) { Supported(e) && (KeyOf(e) in t || Classifiable(e)) }

  ghost function IngestedAll(t: Tables, xs: seq<Incoming>, settings: FeatureSettings): Tables {
    if xs == [] then t else Ingested(IngestedAll(t, xs[..|xs| - 1], settings), xs[|xs| - 1].event, settings)
  }

  function CheckpointedAll(cursors: map<string, string>, xs: seq<Incoming>): map<string, string> {
    if xs == [] then cursors else Checkpointed(CheckpointedAll(cursors, xs[..|xs| - 1]), xs[|xs| - 1])
  }

  // --- the writes of one record, in order --------------------------------------------------------

  datatype Write =
    | SaveRaw(event: RawEvent)
    | SaveCursor(key: string, cursor: string)
    | Announce(message: Message)
    | OfTrade(trade: TradeWrite)
    | OfQuote(quote: QuoteWrite)

  datatype Stores = Stores(tables: Tables, cursors: map<string, string>)

  function Written(st: Stores, w: Write): Stores {
    var t := st.tables;
    match w
    case SaveRaw(event) => st.(tables := t.(raw := Saved(t.raw, event)))
    case SaveCursor(key, cursor) => st.(cursors := st.cursors[key := cursor])
    case Announce(message) => st.(tables := t.(stream := t.stream + [message]))
    case OfTrade(trade) => st.(tables := t.(trades := TradeWritten(t.trades, trade)))
    case OfQuote(quote) => st.(tables := t.(quotes := QuoteWritten(t.quotes, quote)))
  }

  // What a process that dies after the first k writes leaves behind.
  function After(st: Stores, ws: seq<Write>, k: nat): Stores
    requires k <= |ws|
    decreases k
  {
    if k == 0 then st else Written(After(st, ws, k - 1), ws[k - 1])
  }

  ghost function AfterAll(st: Stores, ws: seq<Write>): Stores { After(st, ws, |ws|) }

  function RawWrites(t: Table, e: RawEvent): seq<Write> {
    if KeyOf(e) in t then [] else [SaveRaw(e)]
  }

  function CursorWrites(cursors: map<string, string>, x: Incoming): seq<Write>
    requires Supported(x.event)
  {
    if x.checkpointKey.None? then []
    else var key := x.checkpointKey.value; [SaveCursor(key, Checkpointed(cursors, x)[key])]
  }

  predicate Announced(e: RawEvent, settings: FeatureSettings) {
    e.payload.TradePayload? && e.payload.quoteUsd >= settings.minTradeNotionalUsd
  }

  function TradeAnnouncement(e: RawEvent): Message
    requires e.payload.TradePayload?
  {
    TradeMessage(
      e.eventId, e.chain, e.token, e.payload.wallet.GetOr(""), Direction(e.payload.side), e.payload.quoteUsd)
  }

  function MessageWrites(e: RawEvent, settings: FeatureSettings): seq<Write> {
    if Announced(e, settings) then [Announce(TradeAnnouncement(e))] else []
  }

  function OfTrades(ws: seq<TradeWrite>): seq<Write> { seq(|ws|, i requires 0 <= i < |ws| => OfTrade(ws[i])) }

  function OfQuotes(ws: seq<QuoteWrite>): seq<Write> { seq(|ws|, i requires 0 <= i < |ws| => OfQuote(ws[i])) }

  ghost function RowWrites(t: TradeTables, q: QuoteTables, e: RawEvent, settings: FeatureSettings): seq<Write>
    requires Supported(e) && Classifiable(e)
  {
    if e.payload.TradePayload? then OfTrades(TradeWrites(t, ClassifyTrade(e).value, settings.tradeWindows))
    else OfQuotes(QuoteWrites(q, ClassifyQuote(e).value, settings))
  }

  // What is written for a new record once it is collected.
  ghost function FeatureWrites(t: TradeTables, q: QuoteTables, e: RawEvent, settings: FeatureSettings): seq<Write>
    requires Supported(e)
  {
    if !Classifiable(e) then []
    else
      RowWrites(t, q, e, settings)
      + [Announce(LatestFeatures(TradeFed(t, e, settings), QuoteFed(q, e, settings), e, settings))]
  }

  ghost function NewWrites(t: TradeTables, q: QuoteTables, e: RawEvent, settings: FeatureSettings): seq<Write>
    requires Supported(e)
  {
    MessageWrites(e, settings) + FeatureWrites(t, q, e, settings)
  }

  ghost function IngestWrites(st: Stores, x: Incoming, settings: FeatureSettings): seq<Write> {
    if !Supported(x.event) then []
    else
      RawWrites(st.tables.raw, x.event)
      + CursorWrites(st.cursors, x)
      + if KeyOf(x.event) in st.tables.raw then []
        else NewWrites(st.tables.trades, st.tables.quotes, x.event, settings)
  }

  lemma {:induction false} AfterConcat(st: Stores, a: seq<Write>, b: seq<Write>, k: nat)
    requires k <= |a| + |b|
    ensures After(st, a + b, k) == if k <= |a| then After(st, a, k) else After(AfterAll(st, a), b, k - |a|)
    decreases k
  {
    if k > 0 {
      AfterConcat(st, a, b, k - 1);
    }
  }

  lemma AfterAllConcat(st: Stores, a: seq<Write>, b: seq<Write>)
    ensures AfterAll(st, a + b) == AfterAll(AfterAll(st, a), b)
  {
    AfterConcat(st, a, b, |a| + |b|);
  }

  lemma AfterOne(st: Stores, w: Write)
    ensures AfterAll(st, [w]) == Written(st, w)
  {
    assert After(st, [w], 0) == st;
  }

  lemma {:induction false} AfterTrades(st: Stores, ws: seq<TradeWrite>, k: nat)
    requires k <= |ws|
    ensures After(st, OfTrades(ws), k) == st.(tables := st.tables.(trades := TradeAfter(st.tables.trades, ws, k)))
    decreases k
  {
    if k > 0 {
      AfterTrades(st, ws, k - 1);
    }
  }

  lemma {:induction false} AfterQuotes(st: Stores, ws: seq<QuoteWrite>, k: nat)
    requires k <= |ws|
    ensures After(st, OfQuotes(ws), k) == st.(tables := st.tables.(quotes := QuoteAfter(st.tables.quotes, ws, k)))
    decreases k
  {
    if k > 0 {
      AfterQuotes(st, ws, k - 1);
    }
  }

  // More writes, which lead to this state.
  ghost function Noted(before: Stores, writes: seq<Write>, more: seq<Write>, now: Stores): (all: seq<Write>)
    requires now == AfterAll(AfterAll(before, writes), more)
    ensures all == writes + more && now == AfterAll(before, all)
  {
    AfterAllConcat(before, writes, more);
    writes + more
  }

  // --- how it is done ----------------------------------------------------------------------------

  class OnchainFeatureSyncService {
    const settings: FeatureSettings
    const raw: RawEventStore
    const features: FeatureStore
    const checkpoints: CheckpointStore
    const onchain: OnchainFeatureAggregator
    const slippage: SlippageFeatureAggregator
    var stream: seq<Message>

    constructor (
      settings: FeatureSettings, raw: RawEventStore, features: FeatureStore, checkpoints: CheckpointStore)
      requires raw.Valid() && features.Valid()
      ensures this.settings == settings && this.raw == raw && this.features == features
      ensures this.checkpoints == checkpoints && stream == [] && Wired()
    {
      this.settings, this.raw, this.features, this.checkpoints := settings, raw, features, checkpoints;
      stream := [];
      onchain := new OnchainFeatureAggregator(settings, features);
      slippage := new SlippageFeatureAggregator(settings, features);
    }

    ghost predicate Wired()
      reads raw, features
    {
      && onchain.store == slippage.store == features && onchain.settings == slippage.settings == settings
      && raw.Valid() && features.Valid()
    }

    ghost function Contents(): Tables
      reads this, raw, features
    {
      Tables(raw.events, features.Trades(), features.Quotes(), stream)
    }

    ghost function State(): Stores
      reads this, raw, features, checkpoints
    {
      Stores(Contents(), checkpoints.cursors)
    }

    method Publish(message: Message)
      modifies this
      ensures stream == old(stream) + [message]
    {
      stream := stream + [message];
    }

    method PublishLatest(e: RawEvent)
      requires Wired()
      modifies this
      ensures stream == old(stream) + [LatestFeatures(features.Trades(), features.Quotes(), e, settings)]
    {
      var pressure := features.LoadLatestPressure(e.chain, e.token, settings.primaryWindow);
      var slip := features.LoadLatestSlippage(e.chain, e.token);
      Publish(FeaturesMessage(e.chain, e.token, pressure, slip));
    }

    method SaveCheckpoint(x: Incoming)
      requires Supported(x.event)
      modifies checkpoints
      ensures checkpoints.cursors == Checkpointed(old(checkpoints.cursors), x)
    {
      if x.checkpointKey.Some? {
        var key := x.checkpointKey.value;
        if x.event.payload.TradePayload? {
          var current := checkpoints.Load(key);
          checkpoints.Save(key, MaxCursor(current, Str(x.slot)));
        } else {
          checkpoints.Save(key, x.event.payload.quoteId);
        }
      }
    }

    // collect_trade and collect_quote
    method Collect(x: Incoming) returns (inserted: bool, ghost writes: seq<Write>)
      requires Wired() && Supported(x.event)
      modifies raw, checkpoints
      ensures Wired() && raw.events == Saved(old(raw.events), x.event)
      ensures inserted == (KeyOf(x.event) !in old(raw.events))
      ensures checkpoints.cursors == Checkpointed(old(checkpoints.cursors), x)
      ensures writes == RawWrites(old(raw.events), x.event) + CursorWrites(old(checkpoints.cursors), x)
      ensures State() == AfterAll(old(State()), writes)
    {
      ghost var before := State();
      var existing := raw.Load(x.event.sourceName, x.event.eventId);
      inserted := false;
      if existing.None? {
        var _ := raw.Save(x.event);
        inserted := true;
      }
      ghost var saved := RawWrites(before.tables.raw, x.event);
      assert State() == AfterAll(before, saved) by {
        AfterOne(before, SaveRaw(x.event));
      }
      SaveCheckpoint(x);
      ghost var moved := CursorWrites(before.cursors, x);
      writes := saved + moved;
      assert State() == AfterAll(before, writes) by {
        AfterAllConcat(before, saved, moved);
        if x.checkpointKey.Some? {
          AfterOne(AfterAll(before, saved), moved[0]);
        }
      }
    }

    // The message of a large trade.
    method PublishTrade(e: RawEvent) returns (ghost writes: seq<Write>)
      requires Wired() && e.payload.TradePayload?
      modifies this
      ensures stream == old(stream) + if Announced(e, settings) then [TradeAnnouncement(e)] else []
      ensures writes == MessageWrites(e, settings)
      ensures State() == AfterAll(old(State()), writes)
    {
      ghost var before := State();
      writes := [];
      if e.payload.quoteUsd >= settings.minTradeNotionalUsd {
        Publish(TradeAnnouncement(e));
        AfterOne(before, Announce(TradeAnnouncement(e)));
        writes := [Announce(TradeAnnouncement(e))];
      }
    }

    // Facts, windows and features message of a new trade.
    method AggregateTrade(e: RawEvent) returns (ok: bool, ghost writes: seq<Write>)
      requires Wired() && e.payload.TradePayload?
      modifies this, features
      ensures Wired() && ok == Classifiable(e)
      ensures features.Trades() == TradeFed(old(features.Trades()), e, settings)
      ensures features.Quotes() == QuoteFed(old(features.Quotes()), e, settings)
      ensures stream == old(stream)
        + if ok then [LatestFeatures(features.Trades(), features.Quotes(), e, settings)] else []
      ensures writes == FeatureWrites(old(features.Trades()), old(features.Quotes()), e, settings)
      ensures State() == AfterAll(old(State()), writes)
    {
      ghost var before := State();
      ghost var rows;
      ok, rows := onchain.IngestRawTrade(e);
      AfterTrades(before, rows, |rows|);
      writes := OfTrades(rows);
      if ok {
        ghost var stored := State();
        PublishLatest(e);
        AfterOne(stored, Announce(stream[|stream| - 1]));
        writes := Noted(before, writes, [Announce(stream[|stream| - 1])], State());
      }
    }

    // _build_trade_result, for a trade just inserted
    method BuildTradeResult(e: RawEvent) returns (ok: bool, ghost writes: seq<Write>)
      requires Wired() && e.payload.TradePayload?
      modifies this, features
      ensures Wired() && ok == Classifiable(e)
      ensures features.Trades() == TradeFed(old(features.Trades()), e, settings)
      ensures features.Quotes() == QuoteFed(old(features.Quotes()), e, settings)
      ensures stream == old(stream) + Published(features.Trades(), features.Quotes(), e, settings)
      ensures writes == NewWrites(old(features.Trades()), old(features.Quotes()), e, settings)
      ensures State() == AfterAll(old(State()), writes)
    {
      ghost var before := State();
      writes := PublishTrade(e);
      ghost var rows;
      ok, rows := AggregateTrade(e);
      writes := Noted(before, writes, rows, State());
    }

    // Sample, slippage and features message of a new quote.
    method AggregateQuote(e: RawEvent) returns (ok: bool, ghost writes: seq<Write>)
      requires Wired() && e.payload.QuotePayload?
      modifies this, features
      ensures Wired() && ok == Classifiable(e)
      ensures features.Trades() == TradeFed(old(features.Trades()), e, settings)
      ensures features.Quotes() == QuoteFed(old(features.Quotes()), e, settings)
      ensures stream == old(stream)
        + if ok then [LatestFeatures(features.Trades(), features.Quotes(), e, settings)] else []
      ensures writes == FeatureWrites(old(features.Trades()), old(features.Quotes()), e, settings)
      ensures State() == AfterAll(old(State()), writes)
    {
      ghost var before := State();
      ghost var rows;
      ok, rows := slippage.IngestRawQuote(e);
      AfterQuotes(before, rows, |rows|);
      writes := OfQuotes(rows);
      if ok {
        ghost var stored := State();
        PublishLatest(e);
        AfterOne(stored, Announce(stream[|stream| - 1]));
        writes := Noted(before, writes, [Announce(stream[|stream| - 1])], State());
      }
    }

    // _build_quote_result, for a quote just inserted
    method BuildQuoteResult(e: RawEvent) returns (ok: bool, ghost writes: seq<Write>)
      requires Wired() && e.payload.QuotePayload?
      modifies this, features
      ensures Wired() && ok == Classifiable(e)
      ensures features.Trades() == TradeFed(old(features.Trades()), e, settings)
      ensures features.Quotes() == QuoteFed(old(features.Quotes()), e, settings)
      ensures stream == old(stream) + Published(features.Trades(), features.Quotes(), e, settings)
      ensures writes == NewWrites(old(features.Trades()), old(features.Quotes()), e, settings)
      ensures State() == AfterAll(old(State()), writes)
    {
      ok, writes := AggregateQuote(e);
    }

    // False is the exception of a trade that does not classify, after its raw event, its checkpoint and perhaps its
    // message have been written. The writes are listed as they are made.
    method IngestTrade(x: Incoming) returns (ok: bool, ghost writes: seq<Write>)
      requires Wired() && x.event.payload.TradePayload?
      modifies this, raw, features, checkpoints
      ensures Wired() && Contents() == Ingested(old(Contents()), x.event, settings)
      ensures ok == Returns(old(raw.events), x.event)
      ensures checkpoints.cursors == Checkpointed(old(checkpoints.cursors), x)
      ensures writes == IngestWrites(old(State()), x, settings)
      ensures State() == AfterAll(old(State()), writes)
    {
      ghost var before := State();
      var e := x.event;
      var inserted;
      inserted, writes := Collect(x);
      ok := true;
      if inserted {
        ghost var more;
        ok, more := BuildTradeResult(e);
        writes := Noted(before, writes, more, State());
      }
    }

    method IngestQuote(x: Incoming) returns (ok: bool, ghost writes: seq<Write>)
      requires Wired() && x.event.payload.QuotePayload?
      modifies this, raw, features, checkpoints
      ensures Wired() && Contents() == Ingested(old(Contents()), x.event, settings)
      ensures ok == Returns(old(raw.events), x.event)
      ensures checkpoints.cursors == Checkpointed(old(checkpoints.cursors), x)
      ensures writes == IngestWrites(old(State()), x, settings)
      ensures State() == AfterAll(old(State()), writes)
    {
      ghost var before := State();
      var inserted;
      inserted, writes := Collect(x);
      ok := true;
      if inserted {
        ghost var more;
        ok, more := BuildQuoteResult(x.event);
        writes := Noted(before, writes, more, State());
      }
    }

    method IngestRecord(x: Incoming) returns (ok: bool, ghost writes: seq<Write>)
      requires Wired()
      modifies this, raw, features, checkpoints
      ensures Wired() && Contents() == Ingested(old(Contents()), x.event, settings)
      ensures ok == Returns(old(raw.events), x.event)
      ensures checkpoints.cursors == Checkpointed(old(checkpoints.cursors), x)
      ensures writes == IngestWrites(old(State()), x, settings)
      ensures State() == AfterAll(old(State()), writes)
    {
      if x.event.payload.TradePayload? {
        ok, writes := IngestTrade(x);
      } else if x.event.payload.QuotePayload? {
        ok, writes := IngestQuote(x);
      } else {
        ok, writes := false, [];
      }
    }
  }
}
