// The records of core/schemas.py that the modelled code reads, and the settings it consults.
module Schemas {

  datatype Option<+T> = None | Some(value: T) {
    function GetOr(default: T): T {
      match this
      case Some(v) => v
      case None => default
    }
  }

  type Token = string
  type Chain = string

  datatype TokenState =
    | UNKNOWN
    | PRE_LAUNCH
    | EARLY_LIQUIDITY
    | NARRATIVE_EXPLOSION
    | CEX_LISTING
    | TRENDING
    | DISTRIBUTION
    | DEAD

  datatype VenueType = DEX | CEX | NO_TRADE

  datatype ActionType = BUY | SELL | EXIT | HOLD

  datatype Features = Features(
    liquidityUsd: real,
    volume5mUsd: real,
    buyPressure: real,
    walletOutflow: real,
    slippageBps: real,
    quality: real,
    cexListed: bool)

  datatype TokenSignal = TokenSignal(
    token: Token,
    chain: Chain,
    candidate: TokenState,
    features: Features,
    marketStructure: real,
    walletBehavior: real,
    alphaScore: real,
    timestamp: int)

  datatype StateTransition = StateTransition(previous: TokenState, next: TokenState, changed: bool, timestamp: int)

  datatype FsmContext = FsmContext(
    chain: Chain,
    token: Token,
    previous: TokenState,
    current: TokenState,
    changed: bool,
    lastTransition: Option<int>)

  // The deterministic key that core/router.py hashes with uuid5; venue and strategy are functions of
  // the chain and the venue type, so they add nothing to it.
  datatype IntentId = IntentId(
    chain: Chain,
    token: Token,
    timestamp: int,
    state: TokenState,
    venueType: VenueType,
    action: ActionType)

  datatype Intent = Intent(
    id: IntentId,
    confidence: real,
    targetNotional: real,
    maxSlippageBps: int)
  {
    function Token(): Token { id.token }
    function Action(): ActionType { id.action }
    function VenueType(): VenueType { id.venueType }
  }

  datatype PositionState = PositionState(
    isOpen: bool,
    venueType: VenueType,
    exposure: real,
    lastExit: Option<int>)

  const CLOSED := PositionState(false, NO_TRADE, 0.0, None)

  datatype Portfolio = Portfolio(
    totalUsd: real,
    tokenExposure: real,
    chainExposure: real,
    openPositions: int,
    dailyPnl: real)

  const FRESH := Portfolio(10000.0, 0.0, 0.0, 0, 0.0)

  datatype VenueStatus = VenueStatus(dexReady: bool, cexReady: bool, degraded: bool)

  // Order, report and ledger statuses share one vocabulary.
  datatype Status =
    | SUBMITTED
    | RETRY
    | FILLED
    | PARTIAL_FILL
    | FAILED
    | REJECTED
    | RECONCILED
    | RETRYABLE_ERROR
    | RECOVERED

  // What an execution adapter may put into a report.
  type FillStatus = s: Status | s in {FILLED, PARTIAL_FILL, FAILED, SUBMITTED} witness FILLED

  // TERMINAL_ORDER_STATUSES
  predicate Terminal(s: Status) { s == FILLED || s == RECONCILED || s == REJECTED }

  datatype Report = Report(
    id: IntentId,
    status: FillStatus,
    executedUsd: real,
    timestamp: int,
    message: string,
    fsm: Option<FsmContext>)

  datatype Stage = SUBMISSION | RISK | EXECUTION | RECONCILIATION | RECOVERY

  datatype LedgerEntry = LedgerEntry(
    id: IntentId,
    stage: Stage,
    status: Status,
    notionalUsd: real,
    message: string,
    timestamp: int,
    fsm: Option<FsmContext>)

  datatype Reconciliation = Reconciliation(
    id: Option<IntentId>,
    position: PositionState,
    portfolio: Portfolio,
    applied: bool,
    timestamp: int)

  // Settings of core/config.py, flattened.
  datatype Settings = Settings(
    maxTokenExposure: real,
    maxChainExposure: real,
    maxConcurrentPositions: int,
    maxDailyLoss: real,
    cooldownMinutes: int,
    minLiquidityUsd: real,
    minVolume5mUsd: real,
    maxSlippageBps: int,
    minTransitionInterval: int,
    maxRetries: int,
    killSwitch: bool,
    liveEnvironment: bool,
    liveTradingEnabled: bool,
    dexCredentials: bool,
    cexCredentials: bool,
    cappedNotionalUsd: real,
    minAvailableBalanceUsd: real,
    enforcePositionPreflight: bool,
    enforceBalancePreflight: bool)
  {
    predicate Live() { liveEnvironment && liveTradingEnabled }

    // max_attempts in core/pipeline.py
    function MaxAttempts(): int { maxRetries + 1 }
  }

  function Min(a: real, b: real): real { if a <= b then a else b }

  function Max(a: real, b: real): real { if a >= b then a else b }

  // Python's int(): truncation toward zero.
  function Trunc(x: real): int { if x >= 0.0 then x.Floor else -((-x).Floor) }

  lemma TruncExactly(x: real)
    ensures x >= 0.0 ==> 0.0 <= Trunc(x) as real <= x < Trunc(x) as real + 1.0
    ensures x <= 0.0 ==> Trunc(x) as real - 1.0 < x <= Trunc(x) as real <= 0.0
  {
  }
}
