// core/state_engine.py: the token state machine and its rate limit.
module StateEngine {
  import opened Schemas

  // The disjunction that core/state_engine.py tests beside market_structure < 0.45.
  predicate Deteriorating(f: Features) {
    f.walletOutflow > 0.6 || f.buyPressure < 0.35 || f.slippageBps >= 220.0 || f.quality < 0.4
  }

  function DeriveState(previous: TokenState, signal: TokenSignal): TokenState {
    var f := signal.features;
    if f.liquidityUsd < 5000.0 then
      PRE_LAUNCH
    else if f.cexListed then
      CEX_LISTING
    else if signal.marketStructure < 0.45 && Deteriorating(f) then
      DISTRIBUTION
    else if signal.candidate in {PRE_LAUNCH, EARLY_LIQUIDITY, NARRATIVE_EXPLOSION} then
      signal.candidate
    else if signal.marketStructure >= 0.74 && signal.walletBehavior > 0.55 then
      NARRATIVE_EXPLOSION
    else if signal.marketStructure > 0.45 && f.volume5mUsd >= 25000.0 then
      EARLY_LIQUIDITY
    else
      previous
  }

  predicate RateLimited(minInterval: int, sinceLast: Option<int>) {
    sinceLast.Some? && sinceLast.value < minInterval
  }

  function Transition(
    minInterval: int,
    previous: Option<TokenState>,
    signal: TokenSignal,
    sinceLast: Option<int>): StateTransition
  {
    var prior := previous.GetOr(UNKNOWN);
    if RateLimited(minInterval, sinceLast) then
      StateTransition(prior, prior, false, signal.timestamp)
    else
      var next := DeriveState(prior, signal);
      StateTransition(prior, next, next != prior, signal.timestamp)
  }

  // A persisted FSM checkpoint: the cursor (the state) and metadata["last_transition_timestamp"].
  datatype Checkpoint = Checkpoint(state: TokenState, lastTransition: Option<int>)

  // _load_fsm_checkpoint: previous state, seconds since the last transition, last transition.
  function LoadCheckpoint(ck: Option<Checkpoint>, now: int): (Option<TokenState>, Option<int>, Option<int>) {
    match ck
    case None => (None, Some(120), None)
    case Some(c) =>
      if c.lastTransition.None? then
        (Some(c.state), Some(120), None)
      else
        var elapsed := now - c.lastTransition.value;
        (Some(c.state), Some(if elapsed >= 0 then elapsed else 0), c.lastTransition)
  }

  // Load, transition, save: what one processed signal does to its checkpoint.
  function Step(minInterval: int, ck: Option<Checkpoint>, signal: TokenSignal): (StateTransition, Checkpoint) {
    var (previous, sinceLast, last) := LoadCheckpoint(ck, signal.timestamp);
    var t := Transition(minInterval, previous, signal, sinceLast);
    (t, Checkpoint(t.next, if t.changed then Some(t.timestamp) else last))
  }

  function PersistedState(ck: Option<Checkpoint>): TokenState {
    if ck.Some? then ck.value.state else UNKNOWN
  }

  function LastTransition(ck: Option<Checkpoint>): Option<int> {
    if ck.Some? then ck.value.lastTransition else None
  }

  // What one saved checkpoint can do: either the persisted state stays, or it moves at least the
  // minimum interval after the previous move, whatever the order in which signals arrive.
  lemma StepSpacing(minInterval: int, ck: Option<Checkpoint>, signal: TokenSignal)
    requires minInterval > 0
    ensures var ck' := Some(Step(minInterval, ck, signal).1);
      if PersistedState(ck') == PersistedState(ck) then
        LastTransition(ck') == LastTransition(ck)
      else
        && LastTransition(ck') == Some(signal.timestamp)
        && (LastTransition(ck).Some? ==> signal.timestamp >= LastTransition(ck).value + minInterval)
        && (LastTransition(ck).None? ==> minInterval <= 120)
  {
  }

  // Time since the last transition, in the checkpoint's own fields: signals from before it count as none, and a store
  // without one reports 120 seconds.
  function Waited(ck: Option<Checkpoint>, now: int): (seconds: int)
    ensures LastTransition(ck) == None ==> seconds == 120
    ensures LastTransition(ck).Some? && now < LastTransition(ck).value ==> seconds == 0
    ensures LastTransition(ck).Some? && now >= LastTransition(ck).value ==> seconds == now - LastTransition(ck).value
  {
    match LastTransition(ck)
    case None => 120
    case Some(last) => if now >= last then now - last else 0
  }

  // The machine does move: it persists what it derives from the persisted state and the signal exactly if the interval
  // has passed, or that is the persisted state anyway; else it persists the state it had. The timestamp of the last
  // transition becomes the signal's if the state changes, and stays otherwise.
  lemma StepExactly(minInterval: int, ck: Option<Checkpoint>, signal: TokenSignal)
    ensures var was, now, derived :=
        PersistedState(ck), Step(minInterval, ck, signal).1, DeriveState(PersistedState(ck), signal);
      && (now.state == derived <==> Waited(ck, signal.timestamp) >= minInterval || derived == was)
      && (now.state != derived ==> now.state == was)
      && now.lastTransition == if now.state != was then Some(signal.timestamp) else LastTransition(ck)
  {
  }

  // Exactly which signals bring a token into each state from another one, when it is not rate limited.
  lemma EnteredExactly(previous: TokenState, signal: TokenSignal)
    ensures var next, f := DeriveState(previous, signal), signal.features;
      var traded := f.liquidityUsd >= 5000.0 && !f.cexListed;
      var failing := signal.marketStructure < 0.45
        && (f.walletOutflow > 0.6 || f.buyPressure < 0.35 || f.slippageBps >= 220.0 || f.quality < 0.4);
      var unnamed := signal.candidate !in {PRE_LAUNCH, EARLY_LIQUIDITY, NARRATIVE_EXPLOSION};
      var promising := signal.marketStructure >= 0.74 && signal.walletBehavior > 0.55;
      && (previous != PRE_LAUNCH ==>
            (next == PRE_LAUNCH <==>
              f.liquidityUsd < 5000.0 || (traded && !failing && signal.candidate == PRE_LAUNCH)))
      && (previous != CEX_LISTING ==> (next == CEX_LISTING <==> f.liquidityUsd >= 5000.0 && f.cexListed))
      && (previous != DISTRIBUTION ==> (next == DISTRIBUTION <==> traded && failing))
      && (previous != NARRATIVE_EXPLOSION ==>
            (next == NARRATIVE_EXPLOSION <==>
              traded && !failing && (signal.candidate == NARRATIVE_EXPLOSION || (unnamed && promising))))
      && (previous != EARLY_LIQUIDITY ==>
            (next == EARLY_LIQUIDITY <==>
              traded && !failing
              && (|| signal.candidate == EARLY_LIQUIDITY
                  || (&& unnamed && !promising
                      && signal.marketStructure > 0.45 && f.volume5mUsd >= 25000.0))))
      && (next in {UNKNOWN, TRENDING, DEAD} ==> next == previous)
  {
  }

  // Signals fed one after another to the checkpoint store.
  function Feed(minInterval: int, ck: Option<Checkpoint>, signals: seq<TokenSignal>): Option<Checkpoint>
    decreases |signals|
  {
    if signals == [] then ck
    else Some(Step(minInterval, Feed(minInterval, ck, signals[..|signals| - 1]), signals[|signals| - 1]).1)
  }

  // From an empty store, for any signals at all: TRENDING and DEAD are never persisted.
  lemma {:induction false} UnreachableStates(minInterval: int, signals: seq<TokenSignal>)
    ensures PersistedState(Feed(minInterval, None, signals)) !in {TRENDING, DEAD}
    decreases |signals|
  {
    if signals != [] {
      UnreachableStates(minInterval, signals[..|signals| - 1]);
    }
  }

  // Once the state has left UNKNOWN no later signal brings it back.
  lemma {:induction false} UnknownNeverReentered(minInterval: int, ck: Option<Checkpoint>, signals: seq<TokenSignal>)
    requires PersistedState(ck) != UNKNOWN
    ensures PersistedState(Feed(minInterval, ck, signals)) != UNKNOWN
    decreases |signals|
  {
    if signals != [] {
      UnknownNeverReentered(minInterval, ck, signals[..|signals| - 1]);
    }
  }

  // A store without a transition timestamp reports 120 seconds, so a larger interval freezes the machine:
  // no signal sequence ever moves a fresh token out of UNKNOWN.
  lemma {:induction false} LongIntervalFreezes(minInterval: int, signals: seq<TokenSignal>)
    requires minInterval > 120
    ensures PersistedState(Feed(minInterval, None, signals)) == UNKNOWN
    ensures LastTransition(Feed(minInterval, None, signals)) == None
    decreases |signals|
  {
    if signals != [] {
      LongIntervalFreezes(minInterval, signals[..|signals| - 1]);
    }
  }

  ghost predicate CanLeaveUnknown(minInterval: int) {
    exists signals: seq<TokenSignal> :: PersistedState(Feed(minInterval, None, signals)) != UNKNOWN
  }

  // At 120 seconds or less the very first signal is acted on.
  lemma FirstSignalCounts(minInterval: int, signal: TokenSignal)
    requires minInterval <= 120
    ensures PersistedState(Feed(minInterval, None, [signal])) == DeriveState(UNKNOWN, signal)
  {
    assert Feed(minInterval, None, [signal][..0]) == None;
  }

  // So a new token can leave UNKNOWN if and only if the interval is at most 120 seconds.
  lemma UnknownLeftExactly(minInterval: int)
    ensures CanLeaveUnknown(minInterval) <==> minInterval <= 120
  {
    if minInterval <= 120 {
      var illiquid := TokenSignal("", "", UNKNOWN, Features(0.0, 0.0, 0.0, 0.0, 0.0, 0.0, false), 0.0, 0.0, 0.0, 0);
      FirstSignalCounts(minInterval, illiquid);
      assert PersistedState(Feed(minInterval, None, [illiquid])) == PRE_LAUNCH;
    } else {
      forall signals: seq<TokenSignal>
        ensures PersistedState(Feed(minInterval, None, signals)) == UNKNOWN
      {
        LongIntervalFreezes(minInterval, signals);
      }
    }
  }
}
