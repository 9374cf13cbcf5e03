// infra/raw_event_store.py: raw events kept once per source and event id, and read back in order.
module RawEvents {
  import opened Schemas
  import opened Ordering
  import opened FeatureStore

  // The payloads of the two source types that feed the features. The side of a trade is in lower case, stripped, and
  // empty if the source gave none.
  datatype Payload =
    | TradePayload(wallet: Option<string>, side: string, tokenAmount: real, quoteAmount: real, quoteUsd: real)
    | QuotePayload(quoteId: string, notionalUsd: real, expectedOutUsd: real, referenceMidUsd: real)
    | OtherPayload

  datatype RawEvent = RawEvent(
    sourceName: string,
    eventId: string,
    chain: Chain,
    token: Token,
    observedAt: int,
    ingestedAt: int,
    payload: Payload)

  datatype EventKey = EventKey(sourceName: string, eventId: string)

  function KeyOf(e: RawEvent): EventKey { EventKey(e.sourceName, e.eventId) }

  type Table = map<EventKey, RawEvent>

  // INSERT ... ON CONFLICT (source_name, source_event_id) DO NOTHING
  function Saved(t: Table, e: RawEvent): Table {
    if KeyOf(e) in t then t else t[KeyOf(e) := e]
  }

  ghost predicate WellKept(t: Table) {
    forall k | k in t :: KeyOf(t[k]) == k
  }

  // ORDER BY observed_at, ingested_at, source_name, source_event_id
  function EventRank(e: RawEvent): Rank { Rank(e.observedAt, e.ingestedAt, e.sourceName, e.eventId) }

  predicate Requested(e: RawEvent, chain: Option<Chain>, token: Option<Token>) {
    (chain == None || chain.value == e.chain) && (token == None || token.value == e.token)
  }

  function Filtered(t: Table, chain: Option<Chain>, token: Option<Token>): set<RawEvent> {
    set k | k in t && Requested(t[k], chain, token) :: t[k]
  }

  ghost function Read(t: Table, chain: Option<Chain>, token: Option<Token>, limit: nat): seq<RawEvent> {
    Selected(Filtered(t, chain, token), EventRank, limit)
  }

  lemma FilteredRanked(t: Table, chain: Option<Chain>, token: Option<Token>)
    requires WellKept(t)
    ensures Ranked(Filtered(t, chain, token), EventRank)
  {
  }

  // What a query returns: stored events of the chain and token asked for, all of them if they are within the limit, in
  // the order in which they were observed and then ingested.
  lemma ReadExactly(t: Table, chain: Option<Chain>, token: Option<Token>, limit: nat)
    ensures var read := Read(t, chain, token, limit);
      && |read| <= limit
      && (forall e | e in read ::
            (exists k :: k in t && t[k] == e) && (chain.Some? ==> e.chain == chain.value)
            && (token.Some? ==> e.token == token.value))
      && (|read| < limit ==> forall k | k in t && (chain.Some? ==> t[k].chain == chain.value)
            && (token.Some? ==> t[k].token == token.value) :: t[k] in read)
      && forall i, j | 0 <= i < j < |read| ::
           read[i].observedAt < read[j].observedAt
           || (read[i].observedAt == read[j].observedAt && read[i].ingestedAt <= read[j].ingestedAt)
  {
    SelectedSound(Filtered(t, chain, token), EventRank, limit);
  }

  class RawEventStore {
    var events: Table

    ghost predicate Valid()
      reads this
    {
      WellKept(events)
    }

    constructor ()
      ensures Valid() && events == map[]
    {
      events := map[];
    }

    // Saving returns what the table then holds under the event's key: the first event saved there.
    method Save(event: RawEvent) returns (kept: RawEvent)
      requires Valid()
      modifies this
      ensures Valid() && events == Saved(old(events), event)
      ensures kept == events[KeyOf(event)]
      ensures KeyOf(event) in old(events) ==> kept == old(events)[KeyOf(event)]
    {
      if KeyOf(event) !in events {
        events := events[KeyOf(event) := event];
        return event;
      }
      kept := events[KeyOf(event)];
    }

    method Load(sourceName: string, eventId: string) returns (event: Option<RawEvent>)
      ensures event
        == if EventKey(sourceName, eventId) in events then Some(events[EventKey(sourceName, eventId)]) else None
    {
      var key := EventKey(sourceName, eventId);
      if key in events {
        return Some(events[key]);
      }
      event := None;
    }

    method ReadEvents(chain: Option<Chain>, token: Option<Token>, limit: nat) returns (read: seq<RawEvent>)
      requires Valid()
      ensures read == Read(events, chain, token, limit)
    {
      FilteredRanked(events, chain, token);
      read := Ordering.Select(Filtered(events, chain, token), EventRank, limit);
    }
  }
}
