// infra/repository.py and infra/checkpoints.py: repositories that update table rows in place.
module Repository {
  import opened Schemas
  import opened World
  import StateEngine

  class StorageRepository {
    var orders: map<IntentId, Order>
    var ledger: seq<LedgerEntry>
    var reports: seq<Report>
    var reconciliations: seq<Reconciliation>
    var decisions: seq<Decisions>
    var positions: map<Token, PositionState>
    var portfolio: Option<Portfolio>
    var checkpoints: map<FsmKey, StateEngine.Checkpoint>
    ghost var dispatches: seq<IntentId>
    // Every effect so far, in order: its prefixes are the crash points.
    ghost var log: seq<Effect>

    ghost function View(): World
      reads this
    {
      World(orders, ledger, reports, reconciliations, decisions, positions, portfolio, checkpoints, dispatches)
    }

    // What each writing method does: exactly one effect, logged.
    twostate predicate Did(e: Effect)
      reads this
    {
      View() == Apply(old(View()), e) && log == old(log) + [e]
    }

    constructor ()
      ensures View() == EMPTY && log == []
    {
      orders, ledger, reports, reconciliations := map[], [], [], [];
      decisions, positions, portfolio, checkpoints := [], map[], None, map[];
      dispatches, log := [], [];
    }

    // --- AuditRepository ---

    method SaveDecisionRows(row: Decisions)
      modifies this
      ensures Did(SaveDecisions(row))
    {
      decisions := decisions + [row];
      log := log + [SaveDecisions(row)];
    }

    method SaveExecutionReport(report: Report)
      modifies this
      ensures Did(SaveReport(report))
    {
      if report !in reports {
        reports := reports + [report];
      }
      log := log + [SaveReport(report)];
    }

    method SaveReconciliationResult(result: Reconciliation)
      modifies this
      ensures Did(SaveReconciliation(result))
    {
      if result !in reconciliations {
        reconciliations := reconciliations + [result];
      }
      log := log + [SaveReconciliation(result)];
    }

    method AppendExecutionLedger(entries: seq<LedgerEntry>)
      modifies this
      ensures Did(AppendLedger(entries))
    {
      var i := 0;
      while i < |entries|
        invariant 0 <= i <= |entries|
        invariant ledger == InsertAll(old(ledger), entries[..i])
        invariant View() == old(View()).(ledger := ledger) && log == old(log)
      {
        assert entries[..i + 1][..i] == entries[..i];
        if entries[i] !in ledger {
          ledger := ledger + [entries[i]];
        }
        i := i + 1;
      }
      assert entries[..i] == entries;
      log := log + [AppendLedger(entries)];
    }

    method LoadLatestExecutionReport(id: IntentId) returns (r: Option<Report>)
      ensures r == LatestReport(reports, id)
    {
      var i := |reports|;
      assert reports[..i] == reports;
      while i > 0
        invariant 0 <= i <= |reports|
        invariant LatestReport(reports, id) == LatestReport(reports[..i], id)
      {
        assert reports[..i][..i - 1] == reports[..i - 1];
        if reports[i - 1].id == id {
          return Some(reports[i - 1]);
        }
        i := i - 1;
      }
      r := None;
    }

    // --- OrderRepository ---

    method Upsert(intent: Intent, adjustedUsd: real, status: Status, attempts: nat)
      modifies this
      ensures Did(UpsertOrder(intent, adjustedUsd, status, attempts))
    {
      orders := orders[intent.id := Order(intent, adjustedUsd, status, attempts)];
      log := log + [UpsertOrder(intent, adjustedUsd, status, attempts)];
    }

    method MarkOrderStatus(id: IntentId, status: Status)
      modifies this
      ensures Did(MarkOrder(id, status))
    {
      if id in orders {
        orders := orders[id := orders[id].(status := status)];
      }
      log := log + [MarkOrder(id, status)];
    }

    method IncrementExecutionAttempts(id: IntentId) returns (next: nat)
      modifies this
      ensures next == AttemptsOf(old(View()), id) + 1
      ensures Did(SetAttempts(id, next))
    {
      next := (if id in orders then orders[id].attempts else 0) + 1;
      if id in orders {
        orders := orders[id := orders[id].(attempts := next)];
      }
      log := log + [SetAttempts(id, next)];
    }

    // load_recoverable_intents; the query has no ORDER BY, so the rows come in any order.
    method LoadRecoverableIntents() returns (rs: seq<Recoverable>)
      ensures Enumerates(View(), rs)
    {
      rs := [];
      var rest := orders.Keys;
      while rest != {}
        invariant rest <= orders.Keys
        invariant forall i | 0 <= i < |rs| :: rs[i].intent.id !in rest && IsRow(View(), rs[i])
        invariant forall i, j | 0 <= i < j < |rs| :: rs[i].intent.id != rs[j].intent.id
        invariant forall id | id in orders && id !in rest && IsRecoverable(View(), id) ::
          exists i | 0 <= i < |rs| :: rs[i].intent.id == id
        decreases rest
      {
        var id :| id in rest;
        rest := rest - {id};
        var row := orders[id];
        ghost var before := rs;
        if row.status in {SUBMITTED, FILLED, RETRY} && row.intent.id == id {
          var submitted := HasStatus(ledger, id, SUBMITTED);
          var reconciled := HasStatus(ledger, id, RECONCILED);
          var rejected := HasStatus(ledger, id, REJECTED);
          if submitted && !reconciled && !rejected {
            rs := rs + [Recoverable(row.intent, row.status, row.adjustedUsd)];
            assert rs[|before|].intent.id == id;
          }
        }
        forall other | other in orders && other !in rest && IsRecoverable(View(), other)
          ensures exists i | 0 <= i < |rs| :: rs[i].intent.id == other
        {
          if other != id {
            var i :| 0 <= i < |before| && before[i].intent.id == other;
            assert rs[i].intent.id == other;
          }
        }
      }
    }

    // --- StateRepository ---

    method StorePosition(token: Token, position: PositionState)
      modifies this
      ensures Did(SavePosition(token, position))
    {
      positions := positions[token := position];
      log := log + [SavePosition(token, position)];
    }

    method StorePortfolio(p: Portfolio)
      modifies this
      ensures Did(SavePortfolio(p))
    {
      portfolio := Some(p);
      log := log + [SavePortfolio(p)];
    }

    // --- CheckpointStore ---

    method StoreCheckpoint(key: FsmKey, checkpoint: StateEngine.Checkpoint)
      modifies this
      ensures Did(SaveCheckpoint(key, checkpoint))
    {
      checkpoints := checkpoints[key := checkpoint];
      log := log + [SaveCheckpoint(key, checkpoint)];
    }

    // Not a table: the adapter call that the outside world sees.
    ghost method NoteDispatch(id: IntentId)
      modifies this
      ensures Did(Dispatch(id))
    {
      dispatches := dispatches + [id];
      log := log + [Dispatch(id)];
    }
  }
}
