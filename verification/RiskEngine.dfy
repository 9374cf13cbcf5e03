// portfolio/risk_engine.py: the policies, the sizing and the verdict.
module RiskEngine {
  import opened Schemas

  datatype Violation =
    | LiquidityBelowMinimum | VolumeBelowMinimum | SlippageAboveLimit
    | TokenExposureLimitReached | ChainExposureLimitReached
    | KillSwitchEnabled | LiveTradingDisabled | DexCredentialsMissing | CexCredentialsMissing
    | PositionAlreadyOpen | NoOpenPosition | CooldownActive
    | BalanceUnavailable | BalanceBelowBuffer
    | MaxPositionsReached | DailyLossLimitReached
    | NotionalBelowMinimum

  datatype Context = Context(
    settings: Settings,
    signal: TokenSignal,
    intent: Intent,
    position: PositionState,
    portfolio: Portfolio,
    balanceUsd: Option<real>,
    now: int)

  datatype Decision = Decision(allowed: bool, adjustedUsd: real, violations: seq<Violation>)

  // Which violation applies, stated without reference to the order in which the policies look.
  predicate Violates(c: Context, v: Violation) {
    var s, buy := c.settings, c.intent.Action() == BUY;
    match v
    case LiquidityBelowMinimum => buy && c.signal.features.liquidityUsd < s.minLiquidityUsd
    case VolumeBelowMinimum => buy && c.signal.features.volume5mUsd < s.minVolume5mUsd
    case SlippageAboveLimit => buy && Trunc(c.signal.features.slippageBps) > s.maxSlippageBps
    case TokenExposureLimitReached => buy && c.portfolio.tokenExposure >= s.maxTokenExposure
    case ChainExposureLimitReached => buy && c.portfolio.chainExposure >= s.maxChainExposure
    case KillSwitchEnabled => s.killSwitch
    case LiveTradingDisabled => s.liveEnvironment && !s.liveTradingEnabled
    case DexCredentialsMissing => s.Live() && c.intent.VenueType() == DEX && !s.dexCredentials
    case CexCredentialsMissing => s.Live() && c.intent.VenueType() == CEX && !s.cexCredentials
    case PositionAlreadyOpen => s.enforcePositionPreflight && buy && c.position.isOpen
    case NoOpenPosition =>
      s.enforcePositionPreflight && c.intent.Action() in {SELL, EXIT} && !c.position.isOpen
    case CooldownActive =>
      buy && !c.position.isOpen && c.position.lastExit.Some?
      && (if c.now - c.position.lastExit.value >= 0 then c.now - c.position.lastExit.value else 0)
           < s.cooldownMinutes * 60
    case BalanceUnavailable => s.Live() && s.enforceBalancePreflight && c.balanceUsd.None?
    case BalanceBelowBuffer =>
      s.Live() && s.enforceBalancePreflight && c.balanceUsd.Some?
      && c.balanceUsd.value <= s.minAvailableBalanceUsd
    case MaxPositionsReached =>
      c.portfolio.openPositions >= s.maxConcurrentPositions && !c.position.isOpen
    case DailyLossLimitReached => c.portfolio.dailyPnl <= -s.maxDailyLoss
    case NotionalBelowMinimum => buy && SizedNotional(c) <= 0.0
  }

  function Headroom(s: Settings, p: Portfolio): (h: real)
    ensures h >= 0.0
  {
    Min(Max(s.maxTokenExposure - p.tokenExposure, 0.0), Max(s.maxChainExposure - p.chainExposure, 0.0))
  }

  // The smallest of the limits in force.
  function SizedNotional(c: Context): real {
    var s := c.settings;
    var wanted := Min(c.intent.targetNotional, c.portfolio.totalUsd * Headroom(s, c.portfolio));
    if !s.Live() then wanted
    else
      var capped := Min(wanted, s.cappedNotionalUsd);
      if !s.enforceBalancePreflight then capped
      else Min(capped, Max(c.balanceUsd.GetOr(0.0) - s.minAvailableBalanceUsd, 0.0))
  }

  method SizeNotional(c: Context) returns (sized: real)
    ensures sized == SizedNotional(c)
  {
    var s := c.settings;
    var tokenHeadroom := Max(s.maxTokenExposure - c.portfolio.tokenExposure, 0.0);
    var chainHeadroom := Max(s.maxChainExposure - c.portfolio.chainExposure, 0.0);
    var portfolioHeadroom := Min(tokenHeadroom, chainHeadroom);
    sized := Min(c.intent.targetNotional, c.portfolio.totalUsd * portfolioHeadroom);
    if s.liveEnvironment && s.liveTradingEnabled && sized > s.cappedNotionalUsd {
      sized := s.cappedNotionalUsd;
    }
    if s.liveEnvironment && s.liveTradingEnabled && s.enforceBalancePreflight {
      var available := if c.balanceUsd.Some? then c.balanceUsd.value else 0.0;
      var maxBalanceNotional := Max(available - s.minAvailableBalanceUsd, 0.0);
      if sized > maxBalanceNotional {
        sized := maxBalanceNotional;
      }
    }
  }

  // A policy list says exactly which of the violations it is responsible for apply.
  ghost predicate Reports(vs: seq<Violation>, c: Context, scope: set<Violation>) {
    forall v :: v in vs <==> v in scope && Violates(c, v)
  }

  const LIQUIDITY_SCOPE := {LiquidityBelowMinimum, VolumeBelowMinimum, SlippageAboveLimit}
  const EXPOSURE_SCOPE := {TokenExposureLimitReached, ChainExposureLimitReached}
  const RUNTIME_SCOPE := {KillSwitchEnabled, LiveTradingDisabled, DexCredentialsMissing, CexCredentialsMissing}
  const POSITION_SCOPE := {PositionAlreadyOpen, NoOpenPosition, CooldownActive}
  const ACCOUNT_SCOPE := {BalanceUnavailable, BalanceBelowBuffer, MaxPositionsReached, DailyLossLimitReached}

  // if condition: violations.append(v)
  function AddIf(vs: seq<Violation>, condition: bool, v: Violation): (r: seq<Violation>)
    ensures forall w :: w in r <==> w in vs || (condition && w == v)
  {
    if condition then vs + [v] else vs
  }

  method LiquidityPolicy(c: Context) returns (vs: seq<Violation>)
    ensures Reports(vs, c, LIQUIDITY_SCOPE)
  {
    vs := [];
    if c.intent.Action() != BUY {
      return;
    }
    var f := c.signal.features;
    vs := AddIf(vs, f.liquidityUsd < c.settings.minLiquidityUsd, LiquidityBelowMinimum);
    vs := AddIf(vs, f.volume5mUsd < c.settings.minVolume5mUsd, VolumeBelowMinimum);
    vs := AddIf(vs, Trunc(f.slippageBps) > c.settings.maxSlippageBps, SlippageAboveLimit);
  }

  method ExposurePolicy(c: Context) returns (vs: seq<Violation>)
    ensures Reports(vs, c, EXPOSURE_SCOPE)
  {
    vs := [];
    if c.intent.Action() != BUY {
      return;
    }
    vs := AddIf(vs, c.portfolio.tokenExposure >= c.settings.maxTokenExposure, TokenExposureLimitReached);
    vs := AddIf(vs, c.portfolio.chainExposure >= c.settings.maxChainExposure, ChainExposureLimitReached);
  }

  // The violations listed, each in the fields of the settings, the order, the position, the portfolio and the balance.
  ghost predicate RuntimeExactly(c: Context, vs: seq<Violation>) {
    var s, live := c.settings, c.settings.liveEnvironment && c.settings.liveTradingEnabled;
    && (KillSwitchEnabled in vs <==> s.killSwitch)
    && (LiveTradingDisabled in vs <==> s.liveEnvironment && !s.liveTradingEnabled)
    && (DexCredentialsMissing in vs <==> live && c.intent.id.venueType == DEX && !s.dexCredentials)
    && (CexCredentialsMissing in vs <==> live && c.intent.id.venueType == CEX && !s.cexCredentials)
  }

  ghost predicate PositionExactly(c: Context, vs: seq<Violation>) {
    var s, action := c.settings, c.intent.id.action;
    && (PositionAlreadyOpen in vs <==> s.enforcePositionPreflight && action == BUY && c.position.isOpen)
    && (NoOpenPosition in vs <==> s.enforcePositionPreflight && action in {SELL, EXIT} && !c.position.isOpen)
    && (CooldownActive in vs <==>
          && action == BUY && !c.position.isOpen && c.position.lastExit.Some?
          && s.cooldownMinutes > 0 && c.now < c.position.lastExit.value + s.cooldownMinutes * 60)
  }

  ghost predicate AccountExactly(c: Context, vs: seq<Violation>) {
    var s := c.settings;
    var checked := s.liveEnvironment && s.liveTradingEnabled && s.enforceBalancePreflight;
    && (BalanceUnavailable in vs <==> checked && c.balanceUsd.None?)
    && (BalanceBelowBuffer in vs <==>
          checked && c.balanceUsd.Some? && c.balanceUsd.value <= s.minAvailableBalanceUsd)
    && (MaxPositionsReached in vs <==> !c.position.isOpen && c.portfolio.openPositions >= s.maxConcurrentPositions)
    && (DailyLossLimitReached in vs <==> c.portfolio.dailyPnl <= -s.maxDailyLoss)
  }

  lemma ListedExactly(c: Context, vs: seq<Violation>)
    requires Reports(vs, c, RUNTIME_SCOPE + POSITION_SCOPE + ACCOUNT_SCOPE)
    ensures RuntimeExactly(c, vs) && PositionExactly(c, vs) && AccountExactly(c, vs)
  {
    assert forall v | v in RUNTIME_SCOPE + POSITION_SCOPE + ACCOUNT_SCOPE :: v in vs <==> Violates(c, v);
    RuntimeListed(c, vs);
    PositionListed(c, vs);
    AccountListed(c, vs);
  }

  lemma RuntimeListed(c: Context, vs: seq<Violation>)
    requires forall v | v in RUNTIME_SCOPE :: v in vs <==> Violates(c, v)
    ensures RuntimeExactly(c, vs)
  {
  }

  lemma PositionListed(c: Context, vs: seq<Violation>)
    requires forall v | v in POSITION_SCOPE :: v in vs <==> Violates(c, v)
    ensures PositionExactly(c, vs)
  {
  }

  lemma AccountListed(c: Context, vs: seq<Violation>)
    requires forall v | v in ACCOUNT_SCOPE :: v in vs <==> Violates(c, v)
    ensures AccountExactly(c, vs)
  {
  }

  // _operational_policy, in its three groups of checks.
  method OperationalPolicy(c: Context) returns (vs: seq<Violation>)
    ensures Reports(vs, c, RUNTIME_SCOPE + POSITION_SCOPE + ACCOUNT_SCOPE)
    ensures RuntimeExactly(c, vs) && PositionExactly(c, vs) && AccountExactly(c, vs)
  {
    var runtime := RuntimeChecks(c);
    var position := PositionChecks(c);
    var account := AccountChecks(c);
    vs := runtime + position + account;
    ListedExactly(c, vs);
  }

  method RuntimeChecks(c: Context) returns (vs: seq<Violation>)
    ensures Reports(vs, c, RUNTIME_SCOPE)
  {
    var s := c.settings;
    vs := AddIf([], s.killSwitch, KillSwitchEnabled);
    vs := AddIf(vs, s.liveEnvironment && !s.liveTradingEnabled, LiveTradingDisabled);
    vs := AddIf(vs, s.Live() && c.intent.VenueType() == DEX && !s.dexCredentials, DexCredentialsMissing);
    vs := AddIf(vs, s.Live() && c.intent.VenueType() == CEX && !s.cexCredentials, CexCredentialsMissing);
  }

  method PositionChecks(c: Context) returns (vs: seq<Violation>)
    ensures Reports(vs, c, POSITION_SCOPE)
  {
    var s := c.settings;
    var buy := c.intent.Action() == BUY;
    vs := [];
    if s.enforcePositionPreflight {
      vs := AddIf(vs, buy && c.position.isOpen, PositionAlreadyOpen);
      vs := AddIf(vs, c.intent.Action() in {SELL, EXIT} && !c.position.isOpen, NoOpenPosition);
    }
    if buy && !c.position.isOpen && c.position.lastExit.Some? {
      var elapsed := c.now - c.position.lastExit.value;
      if elapsed < 0 {
        elapsed := 0;
      }
      vs := AddIf(vs, elapsed < s.cooldownMinutes * 60, CooldownActive);
    }
  }

  method AccountChecks(c: Context) returns (vs: seq<Violation>)
    ensures Reports(vs, c, ACCOUNT_SCOPE)
  {
    var s := c.settings;
    vs := [];
    if s.Live() && s.enforceBalancePreflight {
      if c.balanceUsd.None? {
        vs := AddIf(vs, true, BalanceUnavailable);
      } else {
        vs := AddIf(vs, c.balanceUsd.value <= s.minAvailableBalanceUsd, BalanceBelowBuffer);
      }
    }
    vs := AddIf(
      vs, c.portfolio.openPositions >= s.maxConcurrentPositions && !c.position.isOpen, MaxPositionsReached);
    vs := AddIf(vs, c.portfolio.dailyPnl <= -s.maxDailyLoss, DailyLossLimitReached);
  }

  ghost predicate Clean(c: Context) { forall v :: !Violates(c, v) }

  // What every order needs: no kill switch, no daily loss at the limit, a free slot or an open position; live, the
  // switch for it, credentials for its venue and a balance above the minimum; and something to sell, if that is
  // checked.
  ghost predicate Tradable(c: Context) {
    var s, p, order := c.settings, c.portfolio, c.intent.id;
    && !s.killSwitch && p.dailyPnl > -s.maxDailyLoss
    && (c.position.isOpen || p.openPositions < s.maxConcurrentPositions)
    && (s.liveEnvironment ==>
          && s.liveTradingEnabled
          && (order.venueType == DEX ==> s.dexCredentials) && (order.venueType == CEX ==> s.cexCredentials)
          && (s.enforceBalancePreflight ==> c.balanceUsd.Some? && c.balanceUsd.value > s.minAvailableBalanceUsd))
    && (order.action in {SELL, EXIT} && s.enforcePositionPreflight ==> c.position.isOpen)
  }

  // And what a purchase needs: a liquid token with volume and little slippage, exposure below both limits, no open
  // position if that is checked, no exit within the cooldown, and something to buy for.
  ghost predicate Purchasable(c: Context) {
    var s, f, p := c.settings, c.signal.features, c.portfolio;
    c.intent.id.action == BUY ==>
      && f.liquidityUsd >= s.minLiquidityUsd && f.volume5mUsd >= s.minVolume5mUsd
      && Trunc(f.slippageBps) <= s.maxSlippageBps
      && p.tokenExposure < s.maxTokenExposure && p.chainExposure < s.maxChainExposure
      && (s.enforcePositionPreflight ==> !c.position.isOpen)
      && (!c.position.isOpen && c.position.lastExit.Some? && s.cooldownMinutes > 0 ==>
            c.now >= c.position.lastExit.value + s.cooldownMinutes * 60)
      && SizedNotional(c) > 0.0
  }

  lemma AllowedExactly(c: Context)
    ensures Clean(c) <==> Tradable(c) && Purchasable(c)
  {
    if Tradable(c) && Purchasable(c) {
      forall v
        ensures !Violates(c, v)
      {
      }
    } else if !Tradable(c) {
      Untradable(c);
    } else {
      Unpurchasable(c);
    }
  }

  lemma Untradable(c: Context)
    requires !Tradable(c)
    ensures exists v :: Violates(c, v)
  {
    assert Violates(c, KillSwitchEnabled) || Violates(c, DailyLossLimitReached) || Violates(c, MaxPositionsReached)
      || Violates(c, LiveTradingDisabled) || Violates(c, DexCredentialsMissing) || Violates(c, CexCredentialsMissing)
      || Violates(c, BalanceUnavailable) || Violates(c, BalanceBelowBuffer) || Violates(c, NoOpenPosition);
  }

  lemma Unpurchasable(c: Context)
    requires !Purchasable(c)
    ensures exists v :: Violates(c, v)
  {
    assert Violates(c, LiquidityBelowMinimum) || Violates(c, VolumeBelowMinimum) || Violates(c, SlippageAboveLimit)
      || Violates(c, TokenExposureLimitReached) || Violates(c, ChainExposureLimitReached)
      || Violates(c, PositionAlreadyOpen) || Violates(c, CooldownActive) || Violates(c, NotionalBelowMinimum);
  }

  // allowed == no violation; the adjusted notional is the size, or zero when rejected.
  ghost predicate Verdict(c: Context, d: Decision) {
    && (d.allowed <==> Clean(c))
    && d.adjustedUsd == (if d.allowed then SizedNotional(c) else 0.0)
    && (forall v :: v in d.violations <==> Violates(c, v))
  }

  lemma VerdictExactly(c: Context, d: Decision)
    requires Verdict(c, d)
    ensures d.allowed <==> Tradable(c) && Purchasable(c)
  {
    AllowedExactly(c);
  }

  // Every violation is looked for by one of the policies, or after sizing.
  lemma Scopes(v: Violation)
    ensures v in LIQUIDITY_SCOPE || v in EXPOSURE_SCOPE || v == NotionalBelowMinimum
      || v in RUNTIME_SCOPE + POSITION_SCOPE + ACCOUNT_SCOPE
  {
  }

  method Evaluate(c: Context) returns (d: Decision)
    ensures Verdict(c, d)
    // Allowed exactly if nothing stands against it, in the fields of the settings, the signal, the position, the
    // portfolio and the balance.
    ensures d.allowed <==> Tradable(c) && Purchasable(c)
  {
    var liquidity := LiquidityPolicy(c);
    var exposure := ExposurePolicy(c);
    var operational := OperationalPolicy(c);
    var sized := SizeNotional(c);
    var violations := AddIf(
      liquidity + exposure + operational, c.intent.Action() == BUY && sized <= 0.0, NotionalBelowMinimum);
    forall v
      ensures v in violations <==> Violates(c, v)
    {
      Scopes(v);
    }
    var allowed := violations == [];
    assert !allowed ==> violations[0] in violations;
    d := Decision(allowed, if allowed then sized else 0.0, violations);
    VerdictExactly(c, d);
  }

  // The size is the largest amount that every limit in force admits: the request, what the portfolio can still hold of
  // one token and of one chain, and, when live, the cap and the balance above its minimum.
  lemma SizedIsLargest(c: Context, amount: real)
    requires c.portfolio.totalUsd >= 0.0
    ensures var s, p := c.settings, c.portfolio;
      amount <= SizedNotional(c) <==>
        && amount <= c.intent.targetNotional
        && (amount <= 0.0 || amount <= p.totalUsd * (s.maxTokenExposure - p.tokenExposure))
        && (amount <= 0.0 || amount <= p.totalUsd * (s.maxChainExposure - p.chainExposure))
        && (s.Live() ==> amount <= s.cappedNotionalUsd)
        && (s.Live() && s.enforceBalancePreflight ==>
              amount <= 0.0 || amount <= c.balanceUsd.GetOr(0.0) - s.minAvailableBalanceUsd)
  {
    var s, p := c.settings, c.portfolio;
    HeadroomWithin(p.totalUsd, s.maxTokenExposure - p.tokenExposure, s.maxChainExposure - p.chainExposure, amount);
  }

  lemma HeadroomWithin(total: real, a: real, b: real, amount: real)
    requires total >= 0.0
    ensures amount <= total * Min(Max(a, 0.0), Max(b, 0.0)) <==>
      (amount <= 0.0 || amount <= total * a) && (amount <= 0.0 || amount <= total * b)
  {
    if amount > 0.0 {
      ProductSign(total, a);
      ProductSign(total, b);
      ProductOrder(total, a, b);
    }
  }

  lemma ProductSign(total: real, a: real)
    requires total >= 0.0
    ensures a <= 0.0 ==> total * a <= 0.0
    ensures a >= 0.0 ==> total * a >= 0.0
  {
  }

  lemma ProductOrder(total: real, a: real, b: real)
    requires total >= 0.0
    ensures a <= b ==> total * a <= total * b
    ensures b <= a ==> total * b <= total * a
  {
  }

  // A sized order never exceeds what it asked for, nor the headroom of the portfolio.
  lemma SizedWithinHeadroom(c: Context)
    requires c.portfolio.totalUsd > 0.0
    ensures SizedNotional(c) <= c.intent.targetNotional
    ensures SizedNotional(c) <= c.portfolio.totalUsd * Headroom(c.settings, c.portfolio)
  {
  }
}
