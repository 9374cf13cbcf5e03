// notifications/telegram_publisher.py over the delivery rows of infra/repository.py: at most one message per
// candidate and event type.
module Notifications {
  import opened Schemas

  datatype EventKind = CANDIDATE_QUALIFIED | CROSS_DIMENSION | OTHER_EVENT

  // Texts are stripped; a score of None is one that float() rejects.
  datatype Event = Event(
    messageId: string,
    kind: EventKind,
    eventId: string,
    alphaType: string,
    candidateId: string,
    snapshotId: Option<string>,
    score: Option<real>)

  datatype Config = Config(enabled: bool, botToken: string, chatId: string, alphaTypes: set<string>, minScore: real)

  datatype DeliveryStatus = SENT | SKIPPED | FAILED

  datatype Key = Key(destination: string, id: string, kind: EventKind)

  type Rows = map<Key, DeliveryStatus>

  predicate Closed(rows: Rows, k: Key) { k in rows && rows[k] != DeliveryStatus.FAILED }

  // --- what one event does -----------------------------------------------------------------------

  // The key that guards the delivery of an event.
  function DeliveryKey(c: Config, e: Event): Key {
    Key(c.chatId, if e.kind == CROSS_DIMENSION then e.snapshotId.GetOr(e.eventId) else e.candidateId, e.kind)
  }

  // The key under which a failure is recorded, if any: always the candidate's.
  function FailureKey(c: Config, e: Event): Option<Key> {
    if e.kind == OTHER_EVENT || e.candidateId == "" || c.chatId == "" then None
    else Some(Key(c.chatId, e.candidateId, e.kind))
  }

  // What raises before the delivery row is looked at.
  predicate RaisesEarly(c: Config, e: Event) {
    || c.botToken == "" || c.chatId == "" || e.score.None?
    || (e.kind == CANDIDATE_QUALIFIED && e.candidateId == "")
  }

  // What comes of formatting and sending a message: it is accepted; it is not; or it is, and then an exception comes
  // all the same, because the response is lost or the row cannot be written.
  datatype Reply = ACCEPTED | REFUSED | LOST

  // Raise and Lose are the exceptions, before and after the message is accepted.
  datatype Outcome = Nothing | Skip | Send | Lose | Raise {
    predicate Raises() { this == Lose || this == Raise }
  }

  function Decide(rows: Rows, c: Config, e: Event, reply: Reply): Outcome {
    if e.kind == OTHER_EVENT then Nothing
    else if RaisesEarly(c, e) then Raise
    else if Closed(rows, DeliveryKey(c, e)) then Nothing
    else if e.alphaType !in c.alphaTypes || e.score.value < c.minScore then Skip
    else match reply
      case ACCEPTED => Send
      case LOST => Lose
      case REFUSED => Raise
  }

  // --- its durable effects -----------------------------------------------------------------------

  // A message that Telegram accepts, a committed delivery row, or an acknowledgement on the stream.
  datatype Effect = Sent(key: Key) | SaveRow(row: Key, status: DeliveryStatus) | Acknowledge(messageId: string)

  // The delivery rows, the accepted messages and the acknowledged stream messages.
  datatype State = State(rows: Rows, sends: seq<Key>, acked: seq<string>)

  const EMPTY := State(map[], [], [])

  function Applied(s: State, x: Effect): State {
    match x
    case Sent(key) => s.(sends := s.sends + [key])
    case SaveRow(row, status) => s.(rows := s.rows[row := status])
    case Acknowledge(id) => s.(acked := s.acked + [id])
  }

  // The state after the first k effects: what a process that dies there leaves behind.
  function After(s: State, xs: seq<Effect>, k: nat): State
    requires k <= |xs|
    decreases k
  {
    if k == 0 then s else Applied(After(s, xs, k - 1), xs[k - 1])
  }

  function FailureEffects(c: Config, e: Event): seq<Effect> {
    match FailureKey(c, e)
    case None => []
    case Some(f) => [SaveRow(f, DeliveryStatus.FAILED)]
  }

  // What an exception leaves behind before it is caught.
  function Accepted(rows: Rows, c: Config, e: Event, reply: Reply): seq<Effect> {
    if Decide(rows, c, e, reply) == Lose then [Sent(DeliveryKey(c, e))] else []
  }

  // One event, up to its acknowledgement.
  function EventEffects(rows: Rows, c: Config, e: Event, reply: Reply): seq<Effect> {
    var k := DeliveryKey(c, e);
    match Decide(rows, c, e, reply)
    case Nothing => []
    case Skip => [SaveRow(k, SKIPPED)]
    case Send => [Sent(k), SaveRow(k, SENT)]
    case Lose => [Sent(k)] + FailureEffects(c, e)
    case Raise => FailureEffects(c, e)
  }

  // The whole step of the loop.
  function StepEffects(rows: Rows, c: Config, e: Event, reply: Reply): seq<Effect> {
    EventEffects(rows, c, e, reply) + [Acknowledge(e.messageId)]
  }

  function Handled(s: State, c: Config, e: Event, reply: Reply): State {
    var xs := StepEffects(s.rows, c, e, reply);
    After(s, xs, |xs|)
  }

  function Run(s: State, c: Config, es: seq<Event>, replies: nat -> Reply, n: nat): State
    requires n <= |es|
  {
    if n == 0 then s else Handled(Run(s, c, es, replies, n - 1), c, es[n - 1], replies(n - 1))
  }

  function RunEffects(s: State, c: Config, es: seq<Event>, replies: nat -> Reply, n: nat): seq<Effect>
    requires n <= |es|
  {
    if n == 0 then []
    else
      RunEffects(s, c, es, replies, n - 1)
      + StepEffects(Run(s, c, es, replies, n - 1).rows, c, es[n - 1], replies(n - 1))
  }

  lemma {:induction false} AfterConcat(s: State, a: seq<Effect>, b: seq<Effect>, k: nat)
    requires k <= |a| + |b|
    ensures After(s, a + b, k) == if k <= |a| then After(s, a, k) else After(After(s, a, |a|), b, k - |a|)
    decreases k
  {
    if k > 0 {
      AfterConcat(s, a, b, k - 1);
    }
  }

  // Every state of a batch, completed or not, is one after some prefix of its effects.
  lemma {:induction false} RunIsItsEffects(s: State, c: Config, es: seq<Event>, replies: nat -> Reply, n: nat)
    requires n <= |es|
    ensures var xs := RunEffects(s, c, es, replies, n); After(s, xs, |xs|) == Run(s, c, es, replies, n)
    decreases n
  {
    if n > 0 {
      RunIsItsEffects(s, c, es, replies, n - 1);
      StepAppended(
        s, RunEffects(s, c, es, replies, n - 1), Run(s, c, es, replies, n - 1), c, es[n - 1], replies(n - 1));
    }
  }

  lemma RunNext(log: seq<Effect>, s: State, c: Config, es: seq<Event>, replies: nat -> Reply, n: nat)
    requires n < |es|
    ensures var reached := Run(s, c, es, replies, n);
      && Run(s, c, es, replies, n + 1) == Handled(reached, c, es[n], replies(n))
      && log + RunEffects(s, c, es, replies, n + 1)
           == (log + RunEffects(s, c, es, replies, n)) + StepEffects(reached.rows, c, es[n], replies(n))
  {
    var step := StepEffects(Run(s, c, es, replies, n).rows, c, es[n], replies(n));
    Associate(log, RunEffects(s, c, es, replies, n), step);
  }

  lemma Associate(a: seq<Effect>, b: seq<Effect>, d: seq<Effect>)
    ensures a + (b + d) == (a + b) + d
  {
  }

  lemma StepAppended(s: State, xs: seq<Effect>, reached: State, c: Config, e: Event, reply: Reply)
    requires After(s, xs, |xs|) == reached
    ensures var all := xs + StepEffects(reached.rows, c, e, reply);
      After(s, all, |all|) == Handled(reached, c, e, reply)
  {
    var step := StepEffects(reached.rows, c, e, reply);
    AfterConcat(s, xs, step, |xs| + |step|);
  }

  // The rows once a failure is recorded.
  function Failed(rows: Rows, c: Config, e: Event): Rows {
    match FailureKey(c, e)
    case None => rows
    case Some(f) => rows[f := DeliveryStatus.FAILED]
  }

  // What the step does to rows and messages, effect by effect.
  lemma StepUnrolled(s: State, c: Config, e: Event, reply: Reply, k: nat)
    requires k <= |StepEffects(s.rows, c, e, reply)|
    ensures var xs := EventEffects(s.rows, c, e, reply);
      && (k == 0 ==> After(s, StepEffects(s.rows, c, e, reply), k) == s)
      && (k == 1 <= |xs| ==> After(s, StepEffects(s.rows, c, e, reply), k) == Applied(s, xs[0]))
      && (k == 2 <= |xs| ==> After(s, StepEffects(s.rows, c, e, reply), k) == Applied(Applied(s, xs[0]), xs[1]))
      && (k == |xs| + 1 ==>
            After(s, StepEffects(s.rows, c, e, reply), k)
            == Applied(After(s, StepEffects(s.rows, c, e, reply), |xs|), Acknowledge(e.messageId)))
  {
    var step := StepEffects(s.rows, c, e, reply);
    assert After(s, step, 0) == s;
    assert 1 <= k ==> After(s, step, 1) == Applied(s, step[0]);
    assert 2 <= k ==> After(s, step, 2) == Applied(After(s, step, 1), step[1]);
  }

  lemma StepBy(s: State, c: Config, e: Event, reply: Reply)
    ensures var k := DeliveryKey(c, e);
      var after := Handled(s, c, e, reply);
      && after.acked == s.acked + [e.messageId]
      && match Decide(s.rows, c, e, reply)
         case Nothing => after.rows == s.rows && after.sends == s.sends
         case Skip => after.rows == s.rows[k := SKIPPED] && after.sends == s.sends
         case Send => after.rows == s.rows[k := SENT] && after.sends == s.sends + [k]
         case Lose => after.rows == Failed(s.rows, c, e) && after.sends == s.sends + [k]
         case Raise => after.rows == Failed(s.rows, c, e) && after.sends == s.sends
  {
    var xs := EventEffects(s.rows, c, e, reply);
    StepUnrolled(s, c, e, reply, |xs|);
    StepUnrolled(s, c, e, reply, |xs| + 1);
  }

  // --- how it is done ----------------------------------------------------------------------------

  class TelegramPublisher {
    const config: Config
    var rows: Rows
    var sends: seq<Key>
    var acked: seq<string>
    // Every effect so far, in order.
    ghost var log: seq<Effect>

    function Contents(): State
      reads this
    {
      State(rows, sends, acked)
    }

    constructor (config: Config)
      ensures this.config == config && Contents() == EMPTY && log == []
    {
      this.config, rows, sends, acked, log := config, map[], [], [], [];
    }

    method SaveDelivery(key: Key, status: DeliveryStatus)
      modifies this
      ensures Contents() == Applied(old(Contents()), SaveRow(key, status)) && log == old(log) + [SaveRow(key, status)]
    {
      rows, log := rows[key := status], log + [SaveRow(key, status)];
    }

    method Transport(key: Key)
      modifies this
      ensures Contents() == Applied(old(Contents()), Sent(key)) && log == old(log) + [Sent(key)]
    {
      sends, log := sends + [key], log + [Sent(key)];
    }

    method AcknowledgeMessage(id: string)
      modifies this
      ensures Contents() == Applied(old(Contents()), Acknowledge(id)) && log == old(log) + [Acknowledge(id)]
    {
      acked, log := acked + [id], log + [Acknowledge(id)];
    }

    // True is an exception; no row has been written then.
    method ProcessEvent(e: Event, reply: Reply) returns (raised: bool)
      modifies this
      ensures raised == Decide(old(rows), config, e, reply).Raises()
      ensures var xs :=
          if raised then Accepted(old(rows), config, e, reply) else EventEffects(old(rows), config, e, reply);
        log == old(log) + xs && Contents() == After(old(Contents()), xs, |xs|)
    {
      ghost var start := Contents();
      raised := false;
      if e.kind == OTHER_EVENT {
        return;
      }
      if config.botToken == "" || config.chatId == "" || e.score.None? {
        return true;
      }
      if e.kind == CANDIDATE_QUALIFIED && e.candidateId == "" {
        return true;
      }
      var key := DeliveryKey(config, e);
      if key in rows && (rows[key] == SENT || rows[key] == SKIPPED) {
        return;
      }
      if e.alphaType !in config.alphaTypes {
        SaveDelivery(key, SKIPPED);
        OneEffect(start, SaveRow(key, SKIPPED));
        return;
      }
      if e.score.value < config.minScore {
        SaveDelivery(key, SKIPPED);
        OneEffect(start, SaveRow(key, SKIPPED));
        return;
      }
      if reply == REFUSED {
        return true;
      }
      Transport(key);
      if reply == LOST {
        OneEffect(start, Sent(key));
        return true;
      }
      SaveDelivery(key, SENT);
      TwoEffects(start, Sent(key), SaveRow(key, SENT));
    }

    method RecordFailedDelivery(e: Event)
      modifies this
      ensures var xs := FailureEffects(config, e);
        log == old(log) + xs && Contents() == After(old(Contents()), xs, |xs|)
    {
      ghost var start := Contents();
      if e.kind != OTHER_EVENT && e.candidateId != "" && config.chatId != "" {
        SaveDelivery(Key(config.chatId, e.candidateId, e.kind), DeliveryStatus.FAILED);
        OneEffect(start, SaveRow(Key(config.chatId, e.candidateId, e.kind), DeliveryStatus.FAILED));
      }
    }

    // One turn of the loop; the acknowledgement comes last, exception or not.
    method ProcessMessage(e: Event, reply: Reply)
      modifies this
      ensures log == old(log) + StepEffects(old(rows), config, e, reply)
      ensures Contents() == Handled(old(Contents()), config, e, reply)
    {
      ghost var start := Contents();
      var raised := ProcessEvent(e, reply);
      if raised {
        RecordFailedDelivery(e);
      }
      AcknowledgeMessage(e.messageId);
      ghost var xs := EventEffects(start.rows, config, e, reply);
      if raised {
        RaisedEffects(start, config, e, reply);
      }
      AfterConcat(start, xs, [Acknowledge(e.messageId)], |xs|);
    }

    method ProcessOnce(es: seq<Event>, replies: nat -> Reply) returns (processed: nat)
      modifies this
      ensures processed == if config.enabled then |es| else 0
      ensures log == old(log) + RunEffects(old(Contents()), config, es, replies, processed)
      ensures Contents() == Run(old(Contents()), config, es, replies, processed)
    {
      ghost var begun, start := log, Contents();
      processed := 0;
      if !config.enabled {
        return;
      }
      while processed < |es|
        invariant processed <= |es|
        invariant log == begun + RunEffects(start, config, es, replies, processed)
        invariant Contents() == Run(start, config, es, replies, processed)
      {
        ProcessMessage(es[processed], replies(processed));
        RunNext(begun, start, config, es, replies, processed);
        processed := processed + 1;
      }
    }
  }

  // Catching an exception completes the effects of the event.
  lemma RaisedEffects(s: State, c: Config, e: Event, reply: Reply)
    requires Decide(s.rows, c, e, reply).Raises()
    ensures var sent, failure := Accepted(s.rows, c, e, reply), FailureEffects(c, e);
      && EventEffects(s.rows, c, e, reply) == sent + failure
      && After(s, sent + failure, |sent + failure|) == After(After(s, sent, |sent|), failure, |failure|)
  {
    var sent, failure := Accepted(s.rows, c, e, reply), FailureEffects(c, e);
    AfterConcat(s, sent, failure, |sent + failure|);
  }

  lemma OneEffect(s: State, x: Effect)
    ensures After(s, [x], 1) == Applied(s, x)
  {
    assert After(s, [x], 0) == s;
  }

  lemma TwoEffects(s: State, x: Effect, y: Effect)
    ensures After(s, [x, y], 2) == Applied(Applied(s, x), y)
  {
    assert After(s, [x, y], 0) == s && After(s, [x, y], 1) == Applied(s, x);
  }

  // --- sent and skipped rows ---------------------------------------------------------------------

  predicate Reopened(before: Rows, after: Rows, k: Key) { k in before && (k !in after || after[k] != before[k]) }

  // Exactly when one event undoes a sent or skipped row: it records its failure under that key, because credentials
  // or a score are missing, or because it is a snapshot guarded by another key whose delivery raises.
  lemma ReopenedExactly(s: State, c: Config, e: Event, reply: Reply, k: Key)
    requires Closed(s.rows, k)
    ensures Reopened(s.rows, Handled(s, c, e, reply).rows, k)
      <==>
        && e.kind != OTHER_EVENT && e.candidateId != "" && c.chatId != ""
        && k == Key(c.chatId, e.candidateId, e.kind)
        && (|| c.botToken == "" || e.score.None?
            || (&& e.kind == CROSS_DIMENSION && reply != ACCEPTED
                && !Closed(s.rows, Key(c.chatId, e.snapshotId.GetOr(e.eventId), CROSS_DIMENSION))
                && e.alphaType in c.alphaTypes && e.score.value >= c.minScore))
  {
    StepBy(s, c, e, reply);
  }

  // For a qualified candidate: only by an event for that candidate that is malformed, or comes without a bot token.
  // What the transport does plays no part.
  lemma QualifiedReopenedExactly(s: State, c: Config, e: Event, reply: Reply, k: Key)
    requires Closed(s.rows, k) && e.kind == CANDIDATE_QUALIFIED && k.id != "" && k.destination != ""
    ensures Reopened(s.rows, Handled(s, c, e, reply).rows, k)
      <==> k == DeliveryKey(c, e) && (c.botToken == "" || e.score.None?)
  {
    StepBy(s, c, e, reply);
  }

  // The guard of an event names the chat, the kind, and the candidate or, for a snapshot, its id or the event's own.
  // The event is told exactly if it is of a known kind and well formed, its guard is not sent or skipped, it is of a
  // wanted type with a score high enough, and the transport takes it; it is skipped exactly if only the type or the
  // score is against it.
  lemma SentExactly(s: State, c: Config, e: Event, reply: Reply)
    ensures var k := Key(
        c.chatId, if e.kind == CROSS_DIMENSION then (if e.snapshotId.Some? then e.snapshotId.value else e.eventId)
          else e.candidateId, e.kind);
      var after := Handled(s, c, e, reply);
      var sound := e.kind != OTHER_EVENT && c.botToken != "" && c.chatId != "" && e.score.Some?
        && (e.kind == CANDIDATE_QUALIFIED ==> e.candidateId != "");
      var open := !(k in s.rows && s.rows[k] in {SENT, SKIPPED});
      && after.sends == s.sends +
           (if sound && open && e.alphaType in c.alphaTypes && e.score.value >= c.minScore && reply != REFUSED then [k]
            else [])
      && (sound && open ==>
            && (k in after.rows && after.rows[k] == SKIPPED <==>
                  e.alphaType !in c.alphaTypes || e.score.value < c.minScore)
            && (k in after.rows && after.rows[k] == SENT <==>
                  e.alphaType in c.alphaTypes && e.score.value >= c.minScore && reply == ACCEPTED))
      && after.acked == s.acked + [e.messageId]
  {
    StepBy(s, c, e, reply);
  }

  predicate MarkedFailed(rows: Rows, k: Key) { k in rows && rows[k] == DeliveryStatus.FAILED }

  // An event that raises leaves a failed row under its own key exactly if there was one, or it carries a candidate
  // id that is its key and a chat is configured. A snapshot without a candidate id leaves none.
  lemma FailureRecordedExactly(s: State, c: Config, e: Event, reply: Reply)
    requires Decide(s.rows, c, e, reply).Raises()
    ensures MarkedFailed(Handled(s, c, e, reply).rows, DeliveryKey(c, e))
      <==>
        || MarkedFailed(s.rows, DeliveryKey(c, e))
        || (&& e.candidateId != "" && c.chatId != ""
            && (e.kind == CANDIDATE_QUALIFIED || e.candidateId == e.snapshotId.GetOr(e.eventId)))
  {
    StepBy(s, c, e, reply);
  }

  // --- runs in which the process may die ---------------------------------------------------------

  // One event, and how many of its effects came about before the process died.
  datatype Turn = Turn(event: Event, reply: Reply, cut: nat)

  function Turned(s: State, c: Config, t: Turn): State {
    var xs := StepEffects(s.rows, c, t.event, t.reply);
    After(s, xs, if t.cut <= |xs| then t.cut else |xs|)
  }

  function Lived(s: State, c: Config, ts: seq<Turn>, n: nat): State
    requires n <= |ts|
  {
    if n == 0 then s else Turned(Lived(s, c, ts, n - 1), c, ts[n - 1])
  }

  lemma LivedNext(s: State, c: Config, ts: seq<Turn>, n: nat)
    requires n < |ts|
    ensures Lived(s, c, ts, n + 1) == Turned(Lived(s, c, ts, n), c, ts[n])
  {
  }

  // Turns that are all completed are a batch.
  lemma {:induction false} CompletedTurns(
    s: State, c: Config, es: seq<Event>, replies: nat -> Reply, ts: seq<Turn>, n: nat)
    requires n <= |es| == |ts|
    requires forall i: nat | i < n :: ts[i].event == es[i] && ts[i].reply == replies(i) && ts[i].cut >= 3
    ensures Lived(s, c, ts, n) == Run(s, c, es, replies, n)
    decreases n
  {
    if n > 0 {
      CompletedTurns(s, c, es, replies, ts, n - 1);
      CompletedTurn(Run(s, c, es, replies, n - 1), c, ts[n - 1], es[n - 1], replies(n - 1));
      LivedNext(s, c, ts, n - 1);
    }
  }

  lemma CompletedTurn(s: State, c: Config, t: Turn, e: Event, reply: Reply)
    requires t.event == e && t.reply == reply && t.cut >= 3
    ensures Turned(s, c, t) == Handled(s, c, e, reply)
  {
  }

  // Credentials set, a score that parses, an id; and no failure of this event is recorded under another's key.
  predicate WellFormed(c: Config, e: Event) {
    e.kind != OTHER_EVENT ==>
      !RaisesEarly(c, e) && (FailureKey(c, e) == None || FailureKey(c, e) == Some(DeliveryKey(c, e)))
  }

  predicate AllWellFormed(c: Config, ts: seq<Turn>) {
    forall i | 0 <= i < |ts| :: WellFormed(c, ts[i].event)
  }

  lemma TurnBy(s: State, c: Config, t: Turn)
    ensures var xs := EventEffects(s.rows, c, t.event, t.reply);
      var after := Turned(s, c, t);
      && (t.cut == 0 ==> after == s)
      && (t.cut > 0 && xs == [] ==> after.rows == s.rows && after.sends == s.sends)
      && (t.cut > 0 && |xs| == 1 ==>
            after.rows == Applied(s, xs[0]).rows && after.sends == Applied(s, xs[0]).sends)
      && (t.cut == 1 && |xs| == 2 ==> after == Applied(s, xs[0]))
      && (t.cut > 1 && |xs| == 2 ==>
            && after.rows == Applied(Applied(s, xs[0]), xs[1]).rows
            && after.sends == Applied(Applied(s, xs[0]), xs[1]).sends)
  {
    var xs := EventEffects(s.rows, c, t.event, t.reply);
    var k := if t.cut <= |xs| + 1 then t.cut else |xs| + 1;
    StepUnrolled(s, c, t.event, t.reply, k);
    StepUnrolled(s, c, t.event, t.reply, |xs|);
  }

  lemma ClosedStays(before: Rows, s: State, c: Config, t: Turn, k: Key)
    requires WellFormed(c, t.event) && Closed(before, k) && !Reopened(before, s.rows, k)
    ensures !Reopened(before, Turned(s, c, t).rows, k)
  {
    TurnBy(s, c, t);
  }

  // From any state, over every run of well-formed events, wherever the process dies: sent and skipped never change.
  lemma {:induction false} ClosedForGood(s: State, c: Config, ts: seq<Turn>, n: nat, k: Key)
    requires n <= |ts| && AllWellFormed(c, ts) && Closed(s.rows, k)
    ensures !Reopened(s.rows, Lived(s, c, ts, n).rows, k)
    decreases n
  {
    if n > 0 {
      ClosedForGood(s, c, ts, n - 1, k);
      ClosedStays(s.rows, Lived(s, c, ts, n - 1), c, ts[n - 1], k);
      LivedNext(s, c, ts, n - 1);
    }
  }

  // The message is accepted and its row does not say so: the process dies in between, or an exception comes.
  predicate TornSend(s: State, c: Config, t: Turn, k: Key) {
    && DeliveryKey(c, t.event) == k
    && match Decide(s.rows, c, t.event, t.reply)
       case Send => t.cut == 1
       case Lose => t.cut >= 1
       case _ => false
  }

  function TornSends(s: State, c: Config, ts: seq<Turn>, n: nat, k: Key): nat
    requires n <= |ts|
  {
    if n == 0 then 0
    else TornSends(s, c, ts, n - 1, k) + if TornSend(Lived(s, c, ts, n - 1), c, ts[n - 1], k) then 1 else 0
  }

  predicate SentRow(rows: Rows, k: Key) { k in rows && rows[k] == SENT }

  predicate Tally(s: State, k: Key, torn: nat) {
    multiset(s.sends)[k] == torn + if SentRow(s.rows, k) then 1 else 0
  }

  // Over every such run, the messages accepted under a key are one if its row says sent, and one more for each that was
  // accepted before the process died or an exception came.
  lemma {:induction false} SendsExactly(c: Config, ts: seq<Turn>, n: nat, k: Key)
    requires n <= |ts| && AllWellFormed(c, ts)
    ensures Tally(Lived(EMPTY, c, ts, n), k, TornSends(EMPTY, c, ts, n, k))
    decreases n
  {
    if n > 0 {
      SendsExactly(c, ts, n - 1, k);
      SendsNext(c, ts, n - 1, k);
    }
  }

  lemma SendsNext(c: Config, ts: seq<Turn>, n: nat, k: Key)
    requires n < |ts| && AllWellFormed(c, ts)
    requires Tally(Lived(EMPTY, c, ts, n), k, TornSends(EMPTY, c, ts, n, k))
    ensures Tally(Lived(EMPTY, c, ts, n + 1), k, TornSends(EMPTY, c, ts, n + 1, k))
  {
    LivedNext(EMPTY, c, ts, n);
    TurnSends(Lived(EMPTY, c, ts, n), c, ts[n], k, TornSends(EMPTY, c, ts, n, k));
  }

  // The turn gets as far as a message that is accepted.
  predicate Accepts(s: State, c: Config, t: Turn) {
    (Decide(s.rows, c, t.event, t.reply) == Send || Decide(s.rows, c, t.event, t.reply) == Lose) && t.cut > 0
  }

  lemma TurnSends(s: State, c: Config, t: Turn, k: Key, torn: nat)
    requires WellFormed(c, t.event) && Tally(s, k, torn)
    ensures Tally(Turned(s, c, t), k, torn + if TornSend(s, c, t, k) then 1 else 0)
  {
    if Accepts(s, c, t) {
      AcceptedTurn(s, c, t, k);
    } else {
      OtherTurn(s, c, t, k);
    }
  }

  lemma AcceptedTurn(s: State, c: Config, t: Turn, k: Key)
    requires WellFormed(c, t.event) && Accepts(s, c, t)
    ensures Turned(s, c, t).sends == s.sends + [DeliveryKey(c, t.event)]
    ensures !SentRow(s.rows, DeliveryKey(c, t.event))
    ensures SentRow(Turned(s, c, t).rows, k) <==>
      SentRow(s.rows, k) || (DeliveryKey(c, t.event) == k && !TornSend(s, c, t, k))
  {
    TurnBy(s, c, t);
  }

  lemma OtherTurn(s: State, c: Config, t: Turn, k: Key)
    requires WellFormed(c, t.event) && !Accepts(s, c, t)
    ensures Turned(s, c, t).sends == s.sends && !TornSend(s, c, t, k)
    ensures SentRow(Turned(s, c, t).rows, k) <==> SentRow(s.rows, k)
  {
    TurnBy(s, c, t);
  }

  // So without such a death or exception each key has at most one accepted message: one exactly when its row says sent.
  lemma AtMostOneSend(c: Config, ts: seq<Turn>, n: nat, k: Key)
    requires n <= |ts| && AllWellFormed(c, ts)
    requires forall i | 0 <= i < n :: !TornSend(Lived(EMPTY, c, ts, i), c, ts[i], k)
    ensures var s := Lived(EMPTY, c, ts, n);
      multiset(s.sends)[k] == if SentRow(s.rows, k) then 1 else 0
  {
    SendsExactly(c, ts, n, k);
    NoTornSends(c, ts, n, k);
  }

  lemma {:induction false} NoTornSends(c: Config, ts: seq<Turn>, n: nat, k: Key)
    requires n <= |ts| && forall i | 0 <= i < n :: !TornSend(Lived(EMPTY, c, ts, i), c, ts[i], k)
    ensures TornSends(EMPTY, c, ts, n, k) == 0
    decreases n
  {
    if n > 0 {
      NoTornSends(c, ts, n - 1, k);
    }
  }

  // --- where it does not hold --------------------------------------------------------------------

  // A malformed event for a candidate already told about makes the next good one tell again.
  lemma MalformedEventSendsAgain(c: Config, good: Event, bad: Event, reply: Reply, s: State)
    requires good.kind == bad.kind == CANDIDATE_QUALIFIED && good.candidateId == bad.candidateId
    requires WellFormed(c, good) && good.alphaType in c.alphaTypes && good.score.value >= c.minScore
    requires bad.score.None? && !Closed(s.rows, DeliveryKey(c, good))
    ensures var k := DeliveryKey(c, good);
      var once := Handled(s, c, good, ACCEPTED);
      var twice := Handled(Handled(once, c, bad, reply), c, good, ACCEPTED);
      twice.sends == s.sends + [k] + [k]
  {
    var once := Handled(s, c, good, ACCEPTED);
    StepBy(s, c, good, ACCEPTED);
    StepBy(once, c, bad, reply);
    StepBy(Handled(once, c, bad, reply), c, good, ACCEPTED);
  }

  // A process dies after any of the effects of an event whose message is accepted, or an exception comes after that;
  // then another event comes for the same key that would have been sent too. Together they are told once, or twice if
  // the first message was accepted and its row does not say so.
  lemma CrashedSendExactly(c: Config, first: Turn, second: Event, s: State)
    requires Decide(s.rows, c, first.event, first.reply) in {Send, Lose}
    requires Decide(s.rows, c, second, ACCEPTED) == Send
    requires DeliveryKey(c, first.event) == DeliveryKey(c, second)
    ensures var k := DeliveryKey(c, second);
      Handled(Turned(s, c, first), c, second, ACCEPTED).sends
      == s.sends + if TornSend(s, c, first, k) then [k, k] else [k]
  {
    TurnBy(s, c, first);
    StepBy(Turned(s, c, first), c, second, ACCEPTED);
  }
}
