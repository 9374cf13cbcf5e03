// What risk lets through to the adapters: for every batch, exactly when it dispatches; over whole runs, the cooldown;
// and the recoveries that do not ask.
module RiskRuns {
  import opened Schemas
  import opened World
  import opened Pipeline
  import opened OrderLifecycle
  import opened CrashRecovery
  import opened CrashWindows
  import opened Lives
  import opened VenueRuns
  import RiskEngine

  // --- one batch ---------------------------------------------------------------------------------

  predicate Dispatches(es: seq<Effect>, id: IntentId) { Dispatch(id) in es }

  // The account, the runtime and the balance admit an order on this venue, in the fields of settings and store.
  ghost predicate Open(s: Settings, w: World, input: Input, x: Intent) {
    var p, position := PortfolioOf(w), PositionOf(w, input.signal.token);
    && !s.killSwitch && p.dailyPnl > -s.maxDailyLoss
    && (position.isOpen || p.openPositions < s.maxConcurrentPositions)
    && (s.liveEnvironment ==>
          && s.liveTradingEnabled
          && (x.id.venueType == DEX ==> s.dexCredentials) && (x.id.venueType == CEX ==> s.cexCredentials)
          && (s.enforceBalancePreflight ==>
                input.balanceUsd.Some? && input.balanceUsd.value > s.minAvailableBalanceUsd))
    && (x.id.action == EXIT && s.enforcePositionPreflight ==> position.isOpen)
  }

  // The market, the exposures, the position and the cooldown admit a purchase.
  ghost predicate Attractive(s: Settings, w: World, input: Input) {
    var f, p, position := input.signal.features, PortfolioOf(w), PositionOf(w, input.signal.token);
    && f.liquidityUsd >= s.minLiquidityUsd && f.volume5mUsd >= s.minVolume5mUsd
    && Trunc(f.slippageBps) <= s.maxSlippageBps
    && p.tokenExposure < s.maxTokenExposure && p.chainExposure < s.maxChainExposure
    && (s.enforcePositionPreflight ==> !position.isOpen)
    && (!position.isOpen && position.lastExit.Some? && s.cooldownMinutes > 0 ==>
          input.policyAt >= position.lastExit.value + s.cooldownMinutes * 60)
  }

  lemma PermittedExactly(s: Settings, w: World, input: Input, x: Intent)
    requires PlanOf(s, w, input).intent == Some(x) && !AlreadyTerminal(w, x.id)
    ensures Permits(s, w, input, x) <==>
      && Open(s, w, input, x)
      && (x.Action() == BUY ==>
            Attractive(s, w, input) && RiskEngine.SizedNotional(RiskContext(s, PlanOf(s, w, input), input)) > 0.0)
  {
    RiskEngine.AllowedExactly(RiskContext(s, PlanOf(s, w, input), input));
  }

  lemma ExecutionDispatches(
    s: Settings, x: Intent, adjusted: real, at: int, adapter: nat -> Outcome, n: nat)
    ensures Dispatches(ExecuteEffects(s, x, adjusted, at, adapter, n), x.id) <==> n < s.MaxAttempts()
  {
    if n < s.MaxAttempts() {
      assert AttemptEffects(s, x, adjusted, at, adapter, n)[1] == Dispatch(x.id);
    }
  }

  // A batch dispatches the order it plans exactly if that order has not ended and has attempts left, and every check
  // admits it; and it dispatches no other.
  lemma DispatchesExactly(s: Settings, w: World, input: Input, id: IntentId)
    ensures Dispatches(ProcessEffects(s, w, input), id) <==>
      && PlanOf(s, w, input).intent.Some? && PlanOf(s, w, input).intent.value.id == id
      && var x := PlanOf(s, w, input).intent.value;
         && !AlreadyTerminal(w, id) && AttemptsOf(w, id) < s.MaxAttempts()
         && Open(s, w, input, x)
         && (x.Action() == BUY ==>
               Attractive(s, w, input) && RiskEngine.SizedNotional(RiskContext(s, PlanOf(s, w, input), input)) > 0.0)
  {
    var p, es := PlanOf(s, w, input), ProcessEffects(s, w, input);
    if p.intent.Some? {
      var x := p.intent.value;
      ProcessAbout(s, w, input, x);
      if Dispatches(es, id) {
        assert Concerns(Dispatch(id), id);
      }
      if !AlreadyTerminal(w, x.id) {
        PermittedExactly(s, w, input, x);
        if Allowed(s, p, input) {
          TradeDispatches(s, w, input, x);
        }
      }
    }
  }

  lemma TradeDispatches(s: Settings, w: World, input: Input, x: Intent)
    requires Permits(s, w, input, x)
    ensures Dispatches(ProcessEffects(s, w, input), x.id) <==> AttemptsOf(w, x.id) < s.MaxAttempts()
  {
    var adjusted, at, n := Adjusted(s, PlanOf(s, w, input), input), input.signal.timestamp, AttemptsOf(w, x.id);
    ExecutionDispatches(s, x, adjusted, at, input.adapter, n);
    if Exhausted(s, w, input) {
      ExhaustedAbout(s, w, input, x);
    } else {
      var report := ExecuteResult(s, x, input.adapter, n).value;
      FillsEffects(s, w, input, x, report);
      ClosingShape(s, w, input, x, report);
    }
  }

  lemma {:induction false} NotDispatched(w: World, es: seq<Effect>, k: nat, id: IntentId)
    requires k <= |es| && !Dispatches(es, id)
    ensures CountDispatches(After(w, es, k).dispatches, id) == CountDispatches(w.dispatches, id)
    decreases k
  {
    if k > 0 {
      NotDispatched(w, es, k - 1, id);
      assert es[k - 1] in es;
      if es[k - 1].Dispatch? {
        DispatchedSnoc(After(w, es, k - 1).dispatches, es[k - 1].id, id);
      }
    }
  }

  // Over every run, wherever it is cut: a batch that dispatches an order does so with no kill switch on, no daily loss
  // at the limit and a slot, and a purchase above the liquidity and volume minima and outside the cooldown of the
  // token.
  lemma DispatchedOverRuns(s: Settings, states: seq<World>, steps: seq<Step>, k: nat, id: IntentId)
    requires Run(s, states, steps) && k < |steps| && steps[k].Process?
    requires CountDispatches(states[k + 1].dispatches, id) > CountDispatches(states[k].dispatches, id)
    ensures var w, input := states[k], steps[k].input;
      var f, position := input.signal.features, PositionOf(w, input.signal.token);
      && !s.killSwitch && PortfolioOf(w).dailyPnl > -s.maxDailyLoss
      && (position.isOpen || PortfolioOf(w).openPositions < s.maxConcurrentPositions)
      && (id.action == BUY ==> f.liquidityUsd >= s.minLiquidityUsd && f.volume5mUsd >= s.minVolume5mUsd)
      && (id.action == BUY && !position.isOpen && position.lastExit.Some? && s.cooldownMinutes > 0 ==>
            input.policyAt >= position.lastExit.value + s.cooldownMinutes * 60)
  {
    var w, input := states[k], steps[k].input;
    var es := ProcessEffects(s, w, input);
    assert Moves(s, w, steps[k], states[k + 1]);
    if !Dispatches(es, id) {
      NotDispatched(w, es, if steps[k].cut <= |es| then steps[k].cut else |es|, id);
    }
    DispatchesExactly(s, w, input, id);
  }

  // --- recoveries --------------------------------------------------------------------------------

  // Execution depends on no setting but the number of retries ...
  lemma {:induction false} ExecutionUnchecked(
    s: Settings, t: Settings, x: Intent, adjusted: real, at: int, adapter: nat -> Outcome, n: nat)
    requires s.maxRetries == t.maxRetries
    ensures ExecuteEffects(s, x, adjusted, at, adapter, n) == ExecuteEffects(t, x, adjusted, at, adapter, n)
    ensures ExecuteResult(s, x, adapter, n) == ExecuteResult(t, x, adapter, n)
    decreases s.MaxAttempts() - n
  {
    if n < s.MaxAttempts() {
      ExecutionUnchecked(s, t, x, adjusted, at, adapter, n + 1);
    }
  }

  // ... so a recovery dispatches what it finds whatever the kill switch, the limits and the balance say meanwhile.
  lemma {:induction false} RecoveryUnchecked(
    s: Settings, t: Settings, w: World, rows: seq<Recoverable>, env: IntentId -> Env)
    requires s.maxRetries == t.maxRetries
    ensures RecoverEffects(s, w, rows, env) == RecoverEffects(t, w, rows, env)
    decreases |rows|
  {
    if rows != [] {
      var n := |rows| - 1;
      RecoveryUnchecked(s, t, w, rows[..n], env);
      var v, r, e := RecoverState(s, w, rows[..n], env), rows[n], env(rows[n].intent.id);
      ExecutionUnchecked(s, t, r.intent, r.adjustedUsd, e.riskAt, e.adapter, AttemptsOf(v, r.intent.id));
    }
  }

  // --- the cooldown over runs --------------------------------------------------------------------

  // In every clear run: a batch that buys a closed token comes at least the cooldown after the report of the order that
  // sold it last.
  lemma CooldownOverRuns(s: Settings, states: seq<World>, lives: seq<Life>, k: nat, input: Input, x: Intent)
    returns (i: nat, sale: Intent, report: Report)
    requires ClearRun(s, states, lives) && Fresh(states[0]) && k < |states|
    requires Permits(s, states[k], input, x) && x.Action() == BUY && s.cooldownMinutes > 0
    requires !PositionOf(states[k], x.Token()).isOpen && PositionOf(states[k], x.Token()).lastExit.Some?
    ensures SoldLast(s, states, lives, i, k, x.Token(), sale, report)
    ensures input.policyAt >= report.timestamp + s.cooldownMinutes * 60
  {
    PermittedExactly(s, states[k], input, x);
    i, sale, report := LastExit(s, states, lives, k, x.Token());
    assert PositionOf(states[k], x.Token()).lastExit == Some(report.timestamp);
  }
}
