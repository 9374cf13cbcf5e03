// The durable tables behind infra/repository.py as one value, and every durable write as one step on it.
//
// An Effect is a single committed transaction, or a dispatch to an execution adapter, which the outside world
// remembers even when the process does not. A run of code is a sequence of effects; a crash (or an exception)
// leaves exactly the state after some prefix of it.
module World {
  import opened Schemas
  import StateEngine

  datatype Order = Order(intent: Intent, adjustedUsd: real, status: Status, attempts: nat)

  // One row each of token_signals, state_transitions, route_decisions and risk_decisions.
  datatype Decisions = Decisions(
    signal: TokenSignal, transition: StateTransition, intent: Option<Intent>, allowed: bool)

  datatype FsmKey = FsmKey(chain: Chain, token: Token)

  datatype World = World(
    orders: map<IntentId, Order>,
    ledger: seq<LedgerEntry>,
    reports: seq<Report>,
    reconciliations: seq<Reconciliation>,
    decisions: seq<Decisions>,
    positions: map<Token, PositionState>,
    portfolio: Option<Portfolio>,
    checkpoints: map<FsmKey, StateEngine.Checkpoint>,
    dispatches: seq<IntentId>)

  const EMPTY := World(map[], [], [], [], [], map[], None, map[], [])

  datatype Effect =
    | SaveDecisions(row: Decisions)
    | SaveReport(report: Report)
    | SaveReconciliation(result: Reconciliation)
    | AppendLedger(entries: seq<LedgerEntry>)
    | UpsertOrder(intent: Intent, adjustedUsd: real, status: Status, attempts: nat)
    | MarkOrder(id: IntentId, newStatus: Status)
    | SetAttempts(id: IntentId, newAttempts: nat)
    | SavePosition(token: Token, position: PositionState)
    | SavePortfolio(portfolio: Portfolio)
    | SaveCheckpoint(key: FsmKey, checkpoint: StateEngine.Checkpoint)
    | Dispatch(id: IntentId)

  // Rows are inserted only when no equal row exists.
  function InsertNew<T(==)>(rows: seq<T>, row: T): seq<T> {
    if row in rows then rows else rows + [row]
  }

  function InsertAll(ledger: seq<LedgerEntry>, entries: seq<LedgerEntry>): seq<LedgerEntry>
    decreases |entries|
  {
    if entries == [] then ledger
    else InsertNew(InsertAll(ledger, entries[..|entries| - 1]), entries[|entries| - 1])
  }

  function Apply(w: World, e: Effect): World {
    match e
    case SaveDecisions(row) => w.(decisions := w.decisions + [row])
    case SaveReport(report) => w.(reports := InsertNew(w.reports, report))
    case SaveReconciliation(result) => w.(reconciliations := InsertNew(w.reconciliations, result))
    case AppendLedger(entries) => w.(ledger := InsertAll(w.ledger, entries))
    case UpsertOrder(intent, adjusted, status, attempts) =>
      w.(orders := w.orders[intent.id := Order(intent, adjusted, status, attempts)])
    case MarkOrder(id, status) =>
      if id in w.orders then w.(orders := w.orders[id := w.orders[id].(status := status)]) else w
    case SetAttempts(id, attempts) =>
      if id in w.orders then w.(orders := w.orders[id := w.orders[id].(attempts := attempts)]) else w
    case SavePosition(token, position) => w.(positions := w.positions[token := position])
    case SavePortfolio(portfolio) => w.(portfolio := Some(portfolio))
    case SaveCheckpoint(key, checkpoint) => w.(checkpoints := w.checkpoints[key := checkpoint])
    case Dispatch(id) => w.(dispatches := w.dispatches + [id])
  }

  // The state after the first k effects: what a process that dies there leaves behind.
  function After(w: World, es: seq<Effect>, k: nat): World
    requires k <= |es|
    decreases k
  {
    if k == 0 then w else Apply(After(w, es, k - 1), es[k - 1])
  }

  function ApplyAll(w: World, es: seq<Effect>): World { After(w, es, |es|) }

  // --- reads -------------------------------------------------------------------------------------

  function StatusOf(w: World, id: IntentId): Option<Status> {
    if id in w.orders then Some(w.orders[id].status) else None
  }

  function AttemptsOf(w: World, id: IntentId): nat {
    if id in w.orders then w.orders[id].attempts else 0
  }

  function PositionOf(w: World, token: Token): PositionState {
    if token in w.positions then w.positions[token] else CLOSED
  }

  function PortfolioOf(w: World): Portfolio { w.portfolio.GetOr(FRESH) }

  function CheckpointOf(w: World, key: FsmKey): Option<StateEngine.Checkpoint> {
    if key in w.checkpoints then Some(w.checkpoints[key]) else None
  }

  // ORDER BY id DESC LIMIT 1
  function LatestReport(reports: seq<Report>, id: IntentId): (r: Option<Report>)
    ensures r.Some? ==> r.value in reports && r.value.id == id
    decreases |reports|
  {
    if reports == [] then None
    else if reports[|reports| - 1].id == id then Some(reports[|reports| - 1])
    else LatestReport(reports[..|reports| - 1], id)
  }

  predicate HasStatus(ledger: seq<LedgerEntry>, id: IntentId, status: Status) {
    exists i | 0 <= i < |ledger| :: ledger[i].id == id && ledger[i].status == status
  }

  function CountDispatches(dispatches: seq<IntentId>, id: IntentId): nat {
    multiset(dispatches)[id]
  }

  // --- recoverable intents -----------------------------------------------------------------------

  datatype Recoverable = Recoverable(intent: Intent, status: Status, adjustedUsd: real)

  // An order that looks unfinished and whose ledger has a submission but no end.
  predicate IsRecoverable(w: World, id: IntentId) {
    && id in w.orders
    && w.orders[id].intent.id == id
    && w.orders[id].status in {SUBMITTED, FILLED, RETRY}
    && HasStatus(w.ledger, id, SUBMITTED)
    && !HasStatus(w.ledger, id, RECONCILED)
    && !HasStatus(w.ledger, id, REJECTED)
  }

  predicate IsRow(w: World, r: Recoverable) {
    && IsRecoverable(w, r.intent.id)
    && w.orders[r.intent.id] == Order(r.intent, r.adjustedUsd, r.status, w.orders[r.intent.id].attempts)
  }

  // One row for every recoverable order, in any order.
  ghost predicate Enumerates(w: World, rs: seq<Recoverable>) {
    && (forall i | 0 <= i < |rs| :: IsRow(w, rs[i]))
    && (forall i, j | 0 <= i < j < |rs| :: rs[i].intent.id != rs[j].intent.id)
    && (forall id | id in w.orders && IsRecoverable(w, id) :: exists i | 0 <= i < |rs| :: rs[i].intent.id == id)
  }

  // --- running effects ---------------------------------------------------------------------------

  lemma {:induction false} AfterConcat(w: World, a: seq<Effect>, b: seq<Effect>, k: nat)
    requires k <= |a| + |b|
    ensures After(w, a + b, k) == if k <= |a| then After(w, a, k) else After(ApplyAll(w, a), b, k - |a|)
    decreases k
  {
    if k > 0 {
      AfterConcat(w, a, b, k - 1);
    }
  }

  lemma ApplyAllConcat(w: World, a: seq<Effect>, b: seq<Effect>)
    ensures ApplyAll(w, a + b) == ApplyAll(ApplyAll(w, a), b)
  {
    AfterConcat(w, a, b, |a| + |b|);
  }

  lemma ApplyAllSnoc(w: World, es: seq<Effect>, e: Effect)
    ensures ApplyAll(w, es + [e]) == Apply(ApplyAll(w, es), e)
  {
    AfterConcat(w, es, [e], |es|);
    assert (es + [e])[|es|] == e;
  }

  lemma ApplyAllOne(w: World, e: Effect)
    ensures ApplyAll(w, [e]) == Apply(w, e)
  {
    assert After(w, [e], 0) == w;
  }

  lemma {:induction false} InsertAllKeeps(ledger: seq<LedgerEntry>, entries: seq<LedgerEntry>)
    ensures var l := InsertAll(ledger, entries);
      forall x :: x in l <==> x in ledger || x in entries
    decreases |entries|
  {
    if entries != [] {
      var n := |entries| - 1;
      InsertAllKeeps(ledger, entries[..n]);
      assert entries == entries[..n] + [entries[n]];
    }
  }

  // Appending entries adds exactly their statuses.
  lemma AppendedStatus(ledger: seq<LedgerEntry>, entries: seq<LedgerEntry>, id: IntentId, status: Status)
    ensures HasStatus(InsertAll(ledger, entries), id, status)
      <==> HasStatus(ledger, id, status) || HasStatus(entries, id, status)
  {
    var l := InsertAll(ledger, entries);
    InsertAllKeeps(ledger, entries);
    if HasStatus(l, id, status) {
      var i :| 0 <= i < |l| && l[i].id == id && l[i].status == status;
      assert l[i] in ledger || l[i] in entries;
    }
    if HasStatus(ledger, id, status) {
      var i :| 0 <= i < |ledger| && ledger[i].id == id && ledger[i].status == status;
      assert ledger[i] in ledger;
    }
    if HasStatus(entries, id, status) {
      var i :| 0 <= i < |entries| && entries[i].id == id && entries[i].status == status;
      assert entries[i] in entries;
    }
  }

  lemma OneStatus(e: LedgerEntry, id: IntentId, status: Status)
    ensures HasStatus([e], id, status) <==> e.id == id && e.status == status
  {
    assert [e][0] == e;
  }

  lemma LatestAfterInsert(reports: seq<Report>, r: Report, id: IntentId)
    requires r !in reports
    ensures LatestReport(InsertNew(reports, r), id) == if r.id == id then Some(r) else LatestReport(reports, id)
  {
  }

  lemma OtherReportKept(reports: seq<Report>, r: Report, id: IntentId)
    requires r.id != id
    ensures LatestReport(InsertNew(reports, r), id) == LatestReport(reports, id)
  {
  }
}
