// core/signal_engine.py: merging event payloads, scoring, and the state classifier.
module SignalEngine {
  import opened Schemas
  import opened Rounding
  import opened StateEngine

  datatype Field =
    | TokenField | ChainField
    | LiquidityUsd | Volume5mUsd | BuyPressure | HolderGrowth | WalletInflow | WalletOutflow
    | SocialSentiment | SocialVelocity | CexListed | SlippageBps
    | LaunchAlpha | LaunchStatus | CatalystAlpha | CatalystCredibility | FlowAlpha | FlowStatus
    | FeatureQuality

  datatype QualityFlag = Ok | LowSample | Degraded | Stale | Missing | OtherFlag

  datatype Value =
    | Num(n: real)
    | Bool(b: bool)
    | Text(s: string)
    | Flags(flags: seq<QualityFlag>)

  type Payload = map<Field, Value>

  datatype Event = Event(token: Token, chain: Chain, observedAt: int, payload: Payload)

  // --- _merge_payloads ---------------------------------------------------------------------------

  // The value a field ends with: the last payload that carries it, else the first envelope.
  function Merged(events: seq<Event>): (m: Payload)
    requires events != []
    ensures TokenField in m && ChainField in m
    decreases |events|
  {
    var last := events[|events| - 1];
    var before :=
      if |events| == 1 then map[TokenField := Text(last.token), ChainField := Text(last.chain)]
      else Merged(events[..|events| - 1]);
    before + last.payload
  }

  method MergePayloads(events: seq<Event>) returns (merged: Payload)
    requires events != []
    ensures merged == Merged(events)
  {
    merged := map[];
    var i := 0;
    while i < |events|
      invariant 0 <= i <= |events|
      invariant i == 0 ==> merged == map[]
      invariant i > 0 ==> merged == Merged(events[..i])
    {
      if TokenField !in merged {
        merged := merged[TokenField := Text(events[i].token)];
      }
      if ChainField !in merged {
        merged := merged[ChainField := Text(events[i].chain)];
      }
      merged := merged + events[i].payload;
      assert events[..i + 1][..i] == events[..i];
      i := i + 1;
    }
    assert events[..i] == events;
  }

  predicate CarriesNoEnvelope(e: Event) { TokenField !in e.payload && ChainField !in e.payload }

  // Payload keys win over the envelope, so the merged token is the first event's one exactly as long as no
  // payload carries its own; then the latest of them decides.
  lemma {:induction false} EnvelopeSurvives(events: seq<Event>)
    requires events != []
    requires forall e | e in events :: CarriesNoEnvelope(e)
    ensures Merged(events)[TokenField] == Text(events[0].token)
    ensures Merged(events)[ChainField] == Text(events[0].chain)
    decreases |events|
  {
    assert CarriesNoEnvelope(events[|events| - 1]);
    if |events| > 1 {
      var init := events[..|events| - 1];
      assert forall e | e in init :: e in events;
      EnvelopeSurvives(init);
    }
  }

  ghost predicate LastCarries(events: seq<Event>, k: nat, field: Field) {
    && k < |events| && field in events[k].payload
    && forall j | k < j < |events| :: field !in events[j].payload
  }

  // The last payload that carries a field decides its value ...
  lemma {:induction false} MergedLast(events: seq<Event>, k: nat, field: Field)
    requires LastCarries(events, k, field)
    ensures field in Merged(events) && Merged(events)[field] == events[k].payload[field]
    decreases |events|
  {
    var n := |events| - 1;
    if k < n {
      assert field !in events[n].payload;
      MergedLast(events[..n], k, field);
    }
  }

  // ... and a field that none carries is missing, unless the envelope gives it.
  lemma {:induction false} MergedMissing(events: seq<Event>, field: Field)
    requires events != [] && field !in {TokenField, ChainField} && forall e | e in events :: field !in e.payload
    ensures field !in Merged(events)
    decreases |events|
  {
    var n := |events| - 1;
    assert events[n] in events;
    if n > 0 {
      MergedMissing(events[..n], field);
    }
  }

  // --- scores ------------------------------------------------------------------------------------

  function Bounded(x: real): (r: real)
    ensures 0.0 <= r <= 1.0
    ensures 0.0 <= x <= 1.0 ==> r == x
  {
    Max(0.0, Min(x, 1.0))
  }

  function Number(p: Payload, field: Field): real {
    if field !in p then 0.0
    else match p[field]
      case Num(n) => n
      case Bool(b) => if b then 1.0 else 0.0
      case _ => 0.0
  }

  predicate Truthy(p: Payload, field: Field) {
    field in p &&
    match p[field]
    case Num(n) => n != 0.0
    case Bool(b) => b
    case Text(s) => s != ""
    case Flags(flags) => flags != []
  }

  // str.upper, of the letters a to z
  function Upper(s: string): string {
    seq(|s|, i requires 0 <= i < |s| => if 'a' <= s[i] <= 'z' then (s[i] as int - 32) as char else s[i])
  }

  predicate Qualified(p: Payload, field: Field) {
    field in p && p[field].Text? && Upper(p[field].s) == "QUALIFIED"
  }

  function FlagWeight(flag: QualityFlag): real {
    match flag
    case Ok => 1.0
    case LowSample => 0.6
    case Degraded => 0.5
    case Stale => 0.2
    case Missing => 0.0
    case OtherFlag => 0.4
  }

  function FlagSum(flags: seq<QualityFlag>): real {
    if flags == [] then 0.0 else FlagWeight(flags[0]) + FlagSum(flags[1..])
  }

  function QualityScore(p: Payload): real {
    if FeatureQuality !in p || !p[FeatureQuality].Flags? || p[FeatureQuality].flags == [] then
      0.5
    else
      var flags := p[FeatureQuality].flags;
      Round(FlagSum(flags) / |flags| as real, MICROS)
  }

  lemma {:induction false} FlagsCounted(flags: seq<QualityFlag>)
    ensures var n := multiset(flags);
      && FlagSum(flags)
         == n[Ok] as real + 0.6 * n[LowSample] as real + 0.5 * n[Degraded] as real + 0.2 * n[Stale] as real
            + 0.4 * n[OtherFlag] as real
      && 0.0 <= FlagSum(flags) <= |flags| as real
  {
    if flags != [] {
      FlagsCounted(flags[1..]);
      assert flags == [flags[0]] + flags[1..];
    }
  }

  function MeanOf(sum: real, n: nat): real
    requires n > 0
  {
    sum / n as real
  }

  lemma MeanBounds(sum: real, n: nat)
    requires n > 0 && 0.0 <= sum <= n as real
    ensures 0.0 <= MeanOf(sum, n) <= 1.0
  {
  }

  lemma RoundedUnit(x: real)
    requires 0.0 <= x <= 1.0
    ensures 0.0 <= Round(x, MICROS) <= 1.0
  {
  }

  // Quality is the mean weight of the flags, to half a millionth, and one half without any.
  lemma QualityExactly(p: Payload)
    ensures 0.0 <= QualityScore(p) <= 1.0
    ensures FeatureQuality in p && p[FeatureQuality].Flags? && p[FeatureQuality].flags != [] ==>
      var flags := p[FeatureQuality].flags;
      var n := multiset(flags);
      var sum := n[Ok] as real + 0.6 * n[LowSample] as real + 0.5 * n[Degraded] as real + 0.2 * n[Stale] as real
        + 0.4 * n[OtherFlag] as real;
      -0.0000005 <= QualityScore(p) - MeanOf(sum, |flags|) <= 0.0000005
    ensures !(FeatureQuality in p && p[FeatureQuality].Flags? && p[FeatureQuality].flags != []) ==>
      QualityScore(p) == 0.5
  {
    if FeatureQuality in p && p[FeatureQuality].Flags? && p[FeatureQuality].flags != [] {
      var flags := p[FeatureQuality].flags;
      FlagsCounted(flags);
      MeanBounds(FlagSum(flags), |flags|);
      RoundNear(MeanOf(FlagSum(flags), |flags|), MICROS);
      RoundedUnit(MeanOf(FlagSum(flags), |flags|));
      assert ScaleDown(0.5, MICROS) == 0.0000005;
    }
  }

  // The bounded inputs and derived scores that the classifier and the state engine share.
  datatype Scores = Scores(
    features: Features,
    marketStructure: real,
    walletBehavior: real,
    alphaScore: real,
    launchAlpha: real, launchQualified: bool,
    catalystAlpha: real, catalystCredibility: real,
    flowAlpha: real, flowQualified: bool)

  // log(v) stands for log10(v + 1) / 6.
  function Score(p: Payload, log: real -> real): Scores {
    var liquidity := Number(p, LiquidityUsd);
    var volume := Number(p, Volume5mUsd);
    var buyPressure := Bounded(Number(p, BuyPressure));
    var holderGrowth := Bounded(Number(p, HolderGrowth));
    var inflow := Bounded(Number(p, WalletInflow));
    var outflow := Bounded(Number(p, WalletOutflow));
    var slippage := Number(p, SlippageBps);
    var launch := Bounded(Number(p, LaunchAlpha));
    var catalyst := Bounded(Number(p, CatalystAlpha));
    var credibility := Bounded(Number(p, CatalystCredibility));
    var flow := Bounded(Number(p, FlowAlpha));
    var quality := QualityScore(p);
    var behavior := Bounded(Max(inflow, Max(launch * 0.85, flow * 0.8)));
    var launchSupport := Bounded(launch * 0.7 + behavior * 0.3);
    var catalystSupport := Bounded(catalyst * 0.75 + credibility * 0.25);
    var flowSupport := Bounded(flow * 0.65 + inflow * 0.25 + (1.0 - outflow) * 0.1);
    var structure := Bounded(
      Bounded(log(liquidity)) * 0.4 + Bounded(log(volume)) * 0.3 + buyPressure * 0.2 + holderGrowth * 0.1);
    var momentum := Bounded(
      Bounded(Number(p, SocialSentiment)) * 0.6 + Bounded(Number(p, SocialVelocity)) * 0.4);
    var readiness := Bounded(
      Bounded(log(liquidity)) * 0.6 + buyPressure * 0.2 + (1.0 - Min(slippage / 300.0, 1.0)) * 0.15 + quality * 0.05);
    var alpha := Bounded(
      structure * 0.33 + behavior * 0.25 + momentum * 0.08 + readiness * 0.2
      + launchSupport * 0.06 + catalystSupport * 0.04 + flowSupport * 0.04 + quality * 0.05);
    Scores(
      Features(liquidity, volume, buyPressure, outflow, slippage, quality, Truthy(p, CexListed)),
      structure, behavior, alpha,
      launch, Qualified(p, LaunchStatus), catalyst, credibility, flow, Qualified(p, FlowStatus))
  }

  // Structure is a weighted sum of four bounded inputs and behaviour the largest of three. Alpha is a weighted sum of
  // fifteen, whose weights add up to 1.05, cut at one; only a negative slippage can cut readiness before.
  lemma ScoresAreSums(p: Payload, log: real -> real)
    ensures var s := Score(p, log);
      var liquidity, volume := Bounded(log(Number(p, LiquidityUsd))), Bounded(log(Number(p, Volume5mUsd)));
      var buying, holders := Bounded(Number(p, BuyPressure)), Bounded(Number(p, HolderGrowth));
      var inflow, outflow := Bounded(Number(p, WalletInflow)), Bounded(Number(p, WalletOutflow));
      var sentiment, velocity := Bounded(Number(p, SocialSentiment)), Bounded(Number(p, SocialVelocity));
      var launch, flow := Bounded(Number(p, LaunchAlpha)), Bounded(Number(p, FlowAlpha));
      var catalyst, credibility := Bounded(Number(p, CatalystAlpha)), Bounded(Number(p, CatalystCredibility));
      var slippage, quality := Number(p, SlippageBps), QualityScore(p);
      var calm := if slippage >= 300.0 then 0.0 else 1.0 - slippage / 300.0;
      var ready := 0.6 * liquidity + 0.2 * buying + 0.15 * calm + 0.05 * quality;
      var sum := 0.252 * liquidity + 0.099 * volume + 0.106 * buying + 0.033 * holders + 0.268 * s.walletBehavior
        + 0.048 * sentiment + 0.032 * velocity + 0.042 * launch + 0.03 * catalyst + 0.01 * credibility
        + 0.026 * flow + 0.01 * inflow + 0.004 * (1.0 - outflow) + 0.03 * calm + 0.06 * quality;
      && s.marketStructure == 0.4 * liquidity + 0.3 * volume + 0.2 * buying + 0.1 * holders
      && s.walletBehavior >= inflow && s.walletBehavior >= 0.85 * launch && s.walletBehavior >= 0.8 * flow
      && (s.walletBehavior == inflow || s.walletBehavior == 0.85 * launch || s.walletBehavior == 0.8 * flow)
      && s.alphaScore == Min(1.0, sum - 0.2 * Max(ready - 1.0, 0.0))
      && (slippage >= 0.0 ==> ready <= 1.0)
  {
    QualityExactly(p);
  }

  // --- _classify_state ---------------------------------------------------------------------------

  predicate DistributionPhase(s: Scores) {
    var f := s.features;
    || (s.marketStructure < 0.45 && (f.buyPressure < 0.35 || f.slippageBps >= 220.0 || f.quality < 0.4))
    || (f.slippageBps >= 220.0 && f.quality < 0.65)
  }

  function ClassifyState(s: Scores): TokenState {
    var f := s.features;
    if f.liquidityUsd < 5000.0 then
      PRE_LAUNCH
    else if f.cexListed then
      CEX_LISTING
    else if s.catalystAlpha >= 0.72 && s.catalystCredibility >= 0.6 then
      NARRATIVE_EXPLOSION
    else if s.flowQualified && s.flowAlpha >= 0.72 then
      if f.volume5mUsd >= 30000.0 then NARRATIVE_EXPLOSION else EARLY_LIQUIDITY
    else if s.launchQualified && s.launchAlpha >= 0.7 then
      if f.liquidityUsd >= 25000.0 || f.volume5mUsd >= 5000.0 then EARLY_LIQUIDITY else PRE_LAUNCH
    else if DistributionPhase(s) then
      DISTRIBUTION
    else if s.marketStructure >= 0.74 && s.walletBehavior > 0.55 then
      NARRATIVE_EXPLOSION
    else if s.marketStructure > 0.45 && f.volume5mUsd >= 25000.0 then
      EARLY_LIQUIDITY
    else
      UNKNOWN
  }

  // Exactly which scores lead to each candidate.
  lemma CandidateExactly(p: Payload, log: real -> real)
    ensures var s := Score(p, log);
      var state, f := ClassifyState(s), s.features;
      var traded := f.liquidityUsd >= 5000.0 && !f.cexListed;
      var catalyst := Number(p, CatalystAlpha) >= 0.72 && Number(p, CatalystCredibility) >= 0.6;
      var flow := FlowStatus in p && p[FlowStatus].Text? && Upper(p[FlowStatus].s) == "QUALIFIED"
        && Number(p, FlowAlpha) >= 0.72;
      var launch := LaunchStatus in p && p[LaunchStatus].Text? && Upper(p[LaunchStatus].s) == "QUALIFIED"
        && Number(p, LaunchAlpha) >= 0.7;
      var quiet := traded && !catalyst && !flow && !launch;
      var failing :=
        || (s.marketStructure < 0.45 && (f.buyPressure < 0.35 || f.slippageBps >= 220.0 || f.quality < 0.4))
        || (f.slippageBps >= 220.0 && f.quality < 0.65);
      var promising := s.marketStructure >= 0.74 && s.walletBehavior > 0.55;
      var active := s.marketStructure > 0.45 && f.volume5mUsd >= 25000.0;
      && (state == CEX_LISTING <==> f.liquidityUsd >= 5000.0 && f.cexListed)
      && (state == PRE_LAUNCH <==>
            || f.liquidityUsd < 5000.0
            || (traded && !catalyst && !flow && launch && f.liquidityUsd < 25000.0 && f.volume5mUsd < 5000.0))
      && (state == NARRATIVE_EXPLOSION <==>
            || (traded && (catalyst || (flow && f.volume5mUsd >= 30000.0))) || (quiet && !failing && promising))
      && (state == EARLY_LIQUIDITY <==>
            || (traded && !catalyst && flow && f.volume5mUsd < 30000.0)
            || (traded && !catalyst && !flow && launch && (f.liquidityUsd >= 25000.0 || f.volume5mUsd >= 5000.0))
            || (quiet && !failing && !promising && active))
      && (state == DISTRIBUTION <==> quiet && failing)
      && (state == UNKNOWN <==> quiet && !failing && !promising && !active)
  {
  }

  function LatestObserved(events: seq<Event>): (t: int)
    requires events != []
    ensures forall e | e in events :: e.observedAt <= t
    ensures exists e | e in events :: e.observedAt == t
  {
    if |events| == 1 then
      assert events[0] in events; events[0].observedAt
    else
      var rest := LatestObserved(events[1..]);
      assert forall e | e in events :: e == events[0] || e in events[1..];
      assert events[0] in events;
      if events[0].observedAt >= rest then events[0].observedAt else rest
  }

  function SignalOf(events: seq<Event>, log: real -> real): TokenSignal
    requires events != []
  {
    var p := Merged(events);
    var s := Score(p, log);
    TokenSignal(
      if p[TokenField].Text? then p[TokenField].s else "",
      if p[ChainField].Text? then p[ChainField].s else "",
      ClassifyState(s),
      s.features,
      s.marketStructure,
      s.walletBehavior,
      s.alphaScore,
      LatestObserved(events))
  }

  // The features of a signal are the numbers that the last payload with each field carries, pressure and outflow cut to
  // the unit interval.
  lemma FeaturesCarried(events: seq<Event>, log: real -> real, k: nat, field: Field, n: real)
    requires events != [] && LastCarries(events, k, field) && events[k].payload[field] == Num(n)
    ensures var f := SignalOf(events, log).features;
      && (field == LiquidityUsd ==> f.liquidityUsd == n)
      && (field == Volume5mUsd ==> f.volume5mUsd == n)
      && (field == SlippageBps ==> f.slippageBps == n)
      && (field == BuyPressure ==> f.buyPressure == if n < 0.0 then 0.0 else if n > 1.0 then 1.0 else n)
      && (field == WalletOutflow ==> f.walletOutflow == if n < 0.0 then 0.0 else if n > 1.0 then 1.0 else n)
      && (field == CexListed ==> (f.cexListed <==> n != 0.0))
  {
    MergedLast(events, k, field);
  }

  // A listing is read from any kind of value: a number or a flag, or any text or flags that are not empty.
  lemma ListingCarried(events: seq<Event>, log: real -> real, k: nat)
    requires LastCarries(events, k, CexListed)
    ensures SignalOf(events, log).features.cexListed <==>
      match events[k].payload[CexListed]
      case Num(n) => n != 0.0
      case Bool(b) => b
      case Text(s) => |s| > 0
      case Flags(flags) => |flags| > 0
  {
    MergedLast(events, k, CexListed);
  }

  // And nothing where no payload carries the field.
  lemma FeaturesMissing(events: seq<Event>, log: real -> real, field: Field)
    requires events != [] && forall e | e in events :: field !in e.payload
    ensures var f := SignalOf(events, log).features;
      && (field == LiquidityUsd ==> f.liquidityUsd == 0.0)
      && (field == Volume5mUsd ==> f.volume5mUsd == 0.0)
      && (field == SlippageBps ==> f.slippageBps == 0.0)
      && (field == BuyPressure ==> f.buyPressure == 0.0)
      && (field == WalletOutflow ==> f.walletOutflow == 0.0)
      && (field == CexListed ==> !f.cexListed)
      && (field == FeatureQuality ==> f.quality == 0.5)
  {
    if field !in {TokenField, ChainField} {
      MergedMissing(events, field);
    }
  }

  method LatestOf(events: seq<Event>) returns (latest: int)
    requires events != []
    ensures latest == LatestObserved(events)
  {
    latest := events[0].observedAt;
    var i := 1;
    while i < |events|
      invariant 1 <= i <= |events|
      invariant forall j | 0 <= j < i :: events[j].observedAt <= latest
      invariant exists j | 0 <= j < i :: events[j].observedAt == latest
    {
      if events[i].observedAt > latest {
        latest := events[i].observedAt;
      }
      i := i + 1;
    }
  }

  method BuildSignal(events: seq<Event>, log: real -> real) returns (signal: TokenSignal)
    requires events != []
    ensures signal == SignalOf(events, log)
  {
    var payloads := MergePayloads(events);
    var s := Score(payloads, log);
    var latest := LatestOf(events);
    signal := TokenSignal(
      if payloads[TokenField].Text? then payloads[TokenField].s else "",
      if payloads[ChainField].Text? then payloads[ChainField].s else "",
      ClassifyState(s), s.features, s.marketStructure, s.walletBehavior, s.alphaScore, latest);
  }

  // --- the two classifiers -----------------------------------------------------------------------

  // Every candidate the signal engine can name, and what the state machine makes of it when it is not rate
  // limited: liquidity and listing agree outright; otherwise weak structure with deteriorating conditions
  // overrides, the three early candidates are respected, DISTRIBUTION is confirmed only by weak structure,
  // and UNKNOWN holds.
  lemma ClassifierVersusStateMachine(events: seq<Event>, log: real -> real, previous: TokenState)
    requires events != []
    ensures var g := SignalOf(events, log);
      var next := DeriveState(previous, g);
      var f := g.features;
      var open := f.liquidityUsd >= 5000.0 && !f.cexListed;
      && g.candidate !in {TRENDING, DEAD}
      && (g.candidate == UNKNOWN ==>
            next == if g.marketStructure < 0.45 && f.walletOutflow > 0.6 then DISTRIBUTION else previous)
      && (g.candidate == DISTRIBUTION && g.marketStructure < 0.45 ==> next == DISTRIBUTION)
      && (g.candidate == DISTRIBUTION && g.marketStructure >= 0.45 ==>
            f.slippageBps >= 220.0 && f.quality < 0.65 && next in {NARRATIVE_EXPLOSION, EARLY_LIQUIDITY, previous})
      && (g.candidate == CEX_LISTING ==> next == CEX_LISTING)
      && (g.candidate in {PRE_LAUNCH, EARLY_LIQUIDITY, NARRATIVE_EXPLOSION} ==>
            next == if open && g.marketStructure < 0.45 && Deteriorating(f) then DISTRIBUTION else g.candidate)
  {
  }

  // With weak structure an UNKNOWN candidate has no other symptom: only wallet outflow can tip it over.
  lemma UnknownOnlyThroughOutflow(events: seq<Event>, log: real -> real)
    requires events != []
    ensures var g := SignalOf(events, log);
      var f := g.features;
      g.candidate == UNKNOWN && g.marketStructure < 0.45 ==>
        f.buyPressure >= 0.35 && f.slippageBps < 220.0 && f.quality >= 0.4
  {
  }

  // A DISTRIBUTION candidate is confirmed exactly by weak structure, except that a token already in
  // DISTRIBUTION also stays there when nothing promotes it.
  lemma DistributionConfirmedExactly(events: seq<Event>, log: real -> real, previous: TokenState)
    requires events != []
    requires SignalOf(events, log).candidate == DISTRIBUTION
    ensures var g := SignalOf(events, log);
      var promoted :=
        || (g.marketStructure >= 0.74 && g.walletBehavior > 0.55)
        || (g.marketStructure > 0.45 && g.features.volume5mUsd >= 25000.0);
      DeriveState(previous, g) == DISTRIBUTION <==>
        g.marketStructure < 0.45 || (previous == DISTRIBUTION && !promoted)
  {
  }

  // Scores stay in range, so the validators of TokenSignal never reject what the engine builds.
  lemma ScoresInRange(events: seq<Event>, log: real -> real)
    requires events != []
    ensures var g := SignalOf(events, log);
      && 0.0 <= g.alphaScore <= 1.0
      && 0.0 <= g.marketStructure <= 1.0
      && 0.0 <= g.walletBehavior <= 1.0
  {
  }
}
