// Where the orders of core/pipeline.py come from: what every order of a batch says about the signal, the state that the
// machine has reached and the position, read off the writes of the batch.
module OrderOrigins {
  import opened Schemas
  import opened World
  import opened Pipeline
  import opened OrderLifecycle
  import opened CrashRecovery
  import opened CrashWindows
  import FsmRuns
  import Rounding
  import Router
  import StateEngine

  // --- the state an order carries ----------------------------------------------------------------

  // The order that an effect writes or dispatches.
  function OrderIn(e: Effect): Option<IntentId> {
    match e
    case UpsertOrder(intent, _, _, _) => Some(intent.id)
    case MarkOrder(id, _) => Some(id)
    case SetAttempts(id, _) => Some(id)
    case Dispatch(id) => Some(id)
    case _ => None
  }

  // What the machine makes of the signal and the stored checkpoint.
  function Reached(s: Settings, w: World, g: TokenSignal): TokenState {
    StateEngine.Step(s.minTransitionInterval, CheckpointOf(w, KeyOf(g)), g).1.state
  }

  // It is for the token and the moment of the signal, on the state that the machine has reached.
  predicate Carries(s: Settings, w: World, g: TokenSignal, id: IntentId) {
    id.chain == g.chain && id.token == g.token && id.timestamp == g.timestamp && id.state == Reached(s, w, g)
  }

  lemma ConcernsItsOrder(e: Effect)
    ensures OrderIn(e).Some? ==> Concerns(e, OrderIn(e).value)
  {
  }

  lemma PlannedId(s: Settings, w: World, input: Input)
    ensures var p := PlanOf(s, w, input);
      p.intent.Some? ==> Carries(s, w, input.signal, p.intent.value.id)
  {
  }

  // Every order that a batch writes or dispatches carries the state that the batch saves in its checkpoint, which is
  // what the machine has reached.
  lemma OrdersCarryState(s: Settings, w: World, input: Input)
    ensures var es := ProcessEffects(s, w, input);
      && (forall e | e in es && OrderIn(e).Some? :: Carries(s, w, input.signal, OrderIn(e).value))
      && (forall e | e in es && e.SaveCheckpoint? ::
            e.key == KeyOf(input.signal) && e.checkpoint.state == Reached(s, w, input.signal))
      && (forall e, f | e in es && f in es && OrderIn(e).Some? && f.SaveCheckpoint? ::
            OrderIn(e).value.state == f.checkpoint.state)
  {
    var p, es := PlanOf(s, w, input), ProcessEffects(s, w, input);
    FsmRuns.ProcessSaves(s, w, input);
    PlannedId(s, w, input);
    if p.intent.Some? {
      ProcessAbout(s, w, input, p.intent.value);
      forall e | e in es && OrderIn(e).Some?
        ensures OrderIn(e).value == p.intent.value.id
      {
        ConcernsItsOrder(e);
      }
    }
  }

  // While the machine is rate limited, that is the state persisted already.
  lemma LimitedOrders(s: Settings, w: World, input: Input)
    requires StateEngine.Waited(CheckpointOf(w, KeyOf(input.signal)), input.signal.timestamp) < s.minTransitionInterval
    ensures forall e | e in ProcessEffects(s, w, input) && OrderIn(e).Some? ::
      OrderIn(e).value.state == StateEngine.PersistedState(CheckpointOf(w, KeyOf(input.signal)))
  {
    OrdersCarryState(s, w, input);
    StateEngine.StepExactly(s.minTransitionInterval, CheckpointOf(w, KeyOf(input.signal)), input.signal);
  }

  // --- which order is planned --------------------------------------------------------------------

  predicate Sellable(state: TokenState, position: PositionState) { state == DISTRIBUTION && position.isOpen }

  predicate Buyable(state: TokenState, position: PositionState, alpha: real) {
    && !Sellable(state, position) && alpha >= 0.55
    && state in {PRE_LAUNCH, EARLY_LIQUIDITY, NARRATIVE_EXPLOSION, CEX_LISTING}
  }

  // What a purchase asks for: two percent of the liquidity, or of 250,000 USD if there is none, for each point of alpha
  // above one half.
  function Wanted(g: TokenSignal): real {
    (g.alphaScore - 0.5) * 0.02 * if g.features.liquidityUsd > 0.0 then g.features.liquidityUsd else 250000.0
  }

  lemma WantedSuggested(g: TokenSignal)
    requires g.alphaScore >= 0.5
    ensures var notional := Router.SuggestNotional(g.alphaScore, g.features.liquidityUsd);
      -0.005 <= notional - Wanted(g) <= 0.005
  {
    Rounding.RoundNear(Wanted(g), Rounding.CENTS);
    assert Rounding.ScaleDown(0.5, Rounding.CENTS) == 0.005;
    var liquidity, edge := g.features.liquidityUsd, g.alphaScore - 0.5;
    if liquidity > 0.0 {
      Reordered(liquidity, edge);
    }
  }

  lemma Reordered(liquidity: real, edge: real)
    ensures liquidity * edge * 0.02 == edge * 0.02 * liquidity
  {
  }

  lemma EdgeAtMostHalf(liquidity: real, edge: real)
    requires liquidity > 0.0 && edge <= 0.5
    ensures edge * 0.02 * liquidity <= 0.01 * liquidity
  {
    assert (0.5 - edge) * liquidity >= 0.0;
  }

  // So no score asks for more than one percent of the liquidity ...
  lemma WantedAtMost(g: TokenSignal)
    requires 0.5 <= g.alphaScore <= 1.0 && g.features.liquidityUsd > 0.0
    ensures Wanted(g) <= 0.01 * g.features.liquidityUsd
  {
    EdgeAtMostHalf(g.features.liquidityUsd, g.alphaScore - 0.5);
  }

  // ... and one of 0.7 on 200,000 USD asks for 800.
  lemma SuggestedForOne()
    ensures Router.SuggestNotional(0.7, 200000.0) == 800.0
  {
    assert 200000.0 * (0.7 - 0.5) * 0.02 == 800.0;
    assert Rounding.HalfEven(Rounding.ScaleUp(800.0, Rounding.CENTS)) == 80000;
  }

  // An open position in DISTRIBUTION is sold where it was bought; a promising token in one of the four buying states is
  // bought, on the CEX if it is listed there, for what is wanted to the cent; and nothing else is planned.
  lemma PlannedExactly(s: Settings, w: World, input: Input)
    ensures var p, g := PlanOf(s, w, input), input.signal;
      var state, position := Reached(s, w, g), PositionOf(w, g.token);
      && (p.intent.Some? <==> Sellable(state, position) || Buyable(state, position, g.alphaScore))
      && (Sellable(state, position) ==>
            && p.intent.value.id.action == EXIT && p.intent.value.id.venueType == position.venueType
            && p.intent.value.targetNotional == 0.0)
      && (Buyable(state, position, g.alphaScore) ==>
            && p.intent.value.id.action == BUY
            && p.intent.value.id.venueType == (if state == CEX_LISTING then CEX else DEX)
            && -0.005 <= p.intent.value.targetNotional - Wanted(g) <= 0.005)
      && (p.intent.Some? ==>
            && p.intent.value.confidence == g.alphaScore
            && p.intent.value.maxSlippageBps == Trunc(g.features.slippageBps))
  {
    if input.signal.alphaScore >= 0.5 {
      WantedSuggested(input.signal);
    }
  }

  // The planned order is written, unless it has ended already.
  lemma PlannedWritten(s: Settings, w: World, input: Input, x: Intent)
    requires PlanOf(s, w, input).intent == Some(x) && !AlreadyTerminal(w, x.id)
    ensures exists e :: e in ProcessEffects(s, w, input) && e.UpsertOrder? && e.intent == x
  {
    var p, es := PlanOf(s, w, input), ProcessEffects(s, w, input);
    if Allowed(s, p, input) {
      TradeUpserts(s, w, input, x);
      assert es[0] in es;
    } else {
      assert es[3] in es;
    }
  }

  // So when the machine says DISTRIBUTION of a token with an open position, the batch writes an order to sell it on the
  // position's venue, unless that order has ended already.
  lemma DistributionSells(s: Settings, w: World, input: Input)
    requires Reached(s, w, input.signal) == DISTRIBUTION && PositionOf(w, input.signal.token).isOpen
    ensures var g := input.signal;
      var id := IntentId(
        g.chain, g.token, g.timestamp, DISTRIBUTION, PositionOf(w, g.token).venueType, EXIT);
      AlreadyTerminal(w, id)
      || exists e :: e in ProcessEffects(s, w, input) && e.UpsertOrder? && e.intent.id == id
  {
    var x := PlanOf(s, w, input).intent.value;
    PlannedExactly(s, w, input);
    if !AlreadyTerminal(w, x.id) {
      PlannedWritten(s, w, input, x);
    }
  }

  // --- over runs ---------------------------------------------------------------------------------

  // An EXIT is on DISTRIBUTION, a BUY on one of the buying states and on the venue of that state.
  predicate WellRouted(id: IntentId) {
    || (id.action == EXIT && id.state == DISTRIBUTION)
    || (&& id.action == BUY && id.state in {PRE_LAUNCH, EARLY_LIQUIDITY, NARRATIVE_EXPLOSION, CEX_LISTING}
        && id.venueType == (if id.state == CEX_LISTING then CEX else DEX))
  }

  ghost predicate AllRouted(w: World) { forall id | id in w.orders :: WellRouted(id) }

  lemma {:induction false} RoutedAfter(w: World, es: seq<Effect>, k: nat)
    requires k <= |es| && AllRouted(w)
    requires forall e | e in es && e.UpsertOrder? :: WellRouted(e.intent.id)
    ensures AllRouted(After(w, es, k))
    decreases k
  {
    if k > 0 {
      RoutedAfter(w, es, k - 1);
      assert es[k - 1] in es;
    }
  }

  lemma BatchRouted(s: Settings, w: World, input: Input)
    ensures forall e | e in ProcessEffects(s, w, input) && e.UpsertOrder? :: WellRouted(e.intent.id)
  {
    var p := PlanOf(s, w, input);
    PlannedExactly(s, w, input);
    PlannedId(s, w, input);
    if p.intent.Some? {
      ProcessAbout(s, w, input, p.intent.value);
      forall e | e in ProcessEffects(s, w, input) && e.UpsertOrder?
        ensures e.intent.id == p.intent.value.id
      {
        ConcernsItsOrder(e);
      }
    }
  }

  lemma {:induction false} RecoveryUpsertsNone(s: Settings, w: World, rs: seq<Recoverable>, env: IntentId -> Env)
    ensures forall e | e in RecoverEffects(s, w, rs, env) :: !e.UpsertOrder?
    decreases |rs|
  {
    if rs != [] {
      var n := |rs| - 1;
      RecoveryUpsertsNone(s, w, rs[..n], env);
      var before := RecoverState(s, w, rs[..n], env);
      var r, e := rs[n], env(rs[n].intent.id);
      ExecuteUpserts(s, r.intent, r.adjustedUsd, e.riskAt, e.adapter, AttemptsOf(before, r.intent.id));
    }
  }

  // In every state of every run, whatever is cut short.
  lemma {:induction false} OrdersWellRouted(s: Settings, states: seq<World>, steps: seq<Step>, k: nat)
    requires Run(s, states, steps) && states[0] == EMPTY && k < |states|
    ensures AllRouted(states[k])
    decreases k
  {
    if k > 0 {
      OrdersWellRouted(s, states, steps, k - 1);
      RoutedAdvances(s, states, steps, k - 1);
    }
  }

  lemma RoutedAdvances(s: Settings, states: seq<World>, steps: seq<Step>, k: nat)
    requires Run(s, states, steps) && k < |steps| && AllRouted(states[k])
    ensures AllRouted(states[k + 1])
  {
    StepRouted(s, states[k], steps[k], states[k + 1]);
  }

  lemma StepRouted(s: Settings, w: World, step: Step, w': World)
    requires AllRouted(w) && Moves(s, w, step, w')
    ensures AllRouted(w')
  {
    var es := StepEffects(s, w, step);
    match step {
      case Process(input, _) => BatchRouted(s, w, input);
      case Recover(rows, env, _) => RecoveryUpsertsNone(s, w, rows, env);
    }
    RoutedAfter(w, es, if step.cut <= |es| then step.cut else |es|);
  }
}
