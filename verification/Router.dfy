// core/router.py: from a transition to at most one execution intent.
module Router {
  import opened Schemas
  import opened Rounding

  datatype RouteName = REJECT | HOLD_ROUTE | DEX_ENTRY | CEX_ENTRY | DEX_EXIT | CEX_EXIT

  datatype RouteDecision = RouteDecision(route: RouteName, intent: Option<Intent>)

  const READY := VenueStatus(true, true, false)

  function SuggestNotional(alphaScore: real, liquidityUsd: real): real {
    var edge := Max(alphaScore - 0.5, 0.0);
    Round(if liquidityUsd > 0.0 then liquidityUsd * edge * 0.02 else edge * 5000.0, CENTS)
  }

  function BuildIntent(
    signal: TokenSignal, state: TokenState, venueType: VenueType, action: ActionType, notional: real): Intent
  {
    Intent(
      IntentId(signal.chain, signal.token, signal.timestamp, state, venueType, action),
      signal.alphaScore,
      notional,
      Trunc(signal.features.slippageBps))
  }

  function Route(
    signal: TokenSignal, state: TokenState, position: PositionState, venues: VenueStatus): RouteDecision
  {
    var notional := SuggestNotional(signal.alphaScore, signal.features.liquidityUsd);
    if venues.degraded then
      RouteDecision(REJECT, None)
    else if state == DISTRIBUTION && position.isOpen then
      RouteDecision(
        if position.venueType == DEX then DEX_EXIT else CEX_EXIT,
        Some(BuildIntent(signal, state, position.venueType, EXIT, 0.0)))
    else if signal.alphaScore < 0.55 then
      RouteDecision(REJECT, None)
    else if state in {PRE_LAUNCH, EARLY_LIQUIDITY, NARRATIVE_EXPLOSION} then
      if !venues.dexReady then RouteDecision(HOLD_ROUTE, None)
      else RouteDecision(DEX_ENTRY, Some(BuildIntent(signal, state, DEX, BUY, notional)))
    else if state == CEX_LISTING then
      if !venues.cexReady then RouteDecision(HOLD_ROUTE, None)
      else RouteDecision(CEX_ENTRY, Some(BuildIntent(signal, state, CEX, BUY, notional)))
    else
      RouteDecision(HOLD_ROUTE, None)
  }

  // Exactly when each route is taken, for any state of the venues, and what its order is.
  lemma RoutedExactly(signal: TokenSignal, state: TokenState, position: PositionState, venues: VenueStatus)
    ensures var d := Route(signal, state, position, venues);
      var sells := !venues.degraded && state == DISTRIBUTION && position.isOpen;
      var buys := !venues.degraded && !sells && signal.alphaScore >= 0.55;
      var early := state in {PRE_LAUNCH, EARLY_LIQUIDITY, NARRATIVE_EXPLOSION};
      && (d.route == DEX_EXIT <==> sells && position.venueType == DEX)
      && (d.route == CEX_EXIT <==> sells && position.venueType != DEX)
      && (d.route == DEX_ENTRY <==> buys && early && venues.dexReady)
      && (d.route == CEX_ENTRY <==> buys && state == CEX_LISTING && venues.cexReady)
      && (d.route == REJECT <==> venues.degraded || (!sells && signal.alphaScore < 0.55))
      && (d.intent.Some? <==> d.route !in {REJECT, HOLD_ROUTE})
      && (d.route in {DEX_EXIT, CEX_EXIT} ==>
            d.intent.value.id.action == EXIT && d.intent.value.id.venueType == position.venueType)
      && (d.route == DEX_ENTRY ==> d.intent.value.id.action == BUY && d.intent.value.id.venueType == DEX)
      && (d.route == CEX_ENTRY ==> d.intent.value.id.action == BUY && d.intent.value.id.venueType == CEX)
  {
  }

  // What the later stages rely on: only BUY and EXIT are ever routed, for the signal's own token; an EXIT
  // asks for nothing and needs an open position, a BUY asks for a non-negative amount.
  lemma RoutedIntents(signal: TokenSignal, state: TokenState, position: PositionState, venues: VenueStatus)
    ensures var d := Route(signal, state, position, venues);
      d.intent.Some? ==>
        var i := d.intent.value;
        && i.id.token == signal.token
        && (i.Action() == BUY || i.Action() == EXIT)
        && (i.Action() == EXIT ==> position.isOpen && i.targetNotional == 0.0)
        && i.targetNotional >= 0.0
        && i.maxSlippageBps == Trunc(signal.features.slippageBps)
  {
  }
}
