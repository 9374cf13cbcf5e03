// sentinel/wallet_score_aggregator.py: weighted inflow and outflow of the tracked wallets.
module WalletScores {
  import opened Schemas
  import opened Sums
  import Rounding

  datatype RegistryEntry = RegistryEntry(chain: Chain, wallet: string, status: string, weight: real)

  datatype Flow = Flow(
    chain: Chain,
    token: Token,
    wallet: string,
    direction: string,
    notionalUsd: real,
    tradeCount: int,
    observedAt: int)

  datatype Snapshot = Snapshot(
    inflow: real,
    outflow: real,
    trackedWallets: nat,
    sampleCount: int,
    quality: string,
    freshness: int)

  // Instants and window lengths are seconds.
  datatype Aggregator = Aggregator(windowSeconds: int, minFlowCount: int, minWalletCount: int)

  type Weights = map<string, real>

  // The active entries of a chain; the last one of a wallet counts.
  function ActiveWeights(chain: Chain, entries: seq<RegistryEntry>): Weights {
    if entries == [] then map[] else
      var e := entries[|entries| - 1];
      var before := ActiveWeights(chain, entries[..|entries| - 1]);
      if e.chain == chain && e.status == "active" then before[e.wallet := e.weight] else before
  }

  predicate Counts(a: Aggregator, chain: Chain, token: Token, weights: Weights, end: int, f: Flow) {
    f.chain == chain && f.token == token && end - a.windowSeconds <= f.observedAt <= end && f.wallet in weights
  }

  function Filtered(a: Aggregator, chain: Chain, token: Token, weights: Weights, end: int, flows: seq<Flow>)
    : (kept: seq<Flow>)
    ensures forall f | f in kept :: f.wallet in weights
  {
    if flows == [] then []
    else
      (if Counts(a, chain, token, weights, end, flows[0]) then [flows[0]] else [])
      + Filtered(a, chain, token, weights, end, flows[1..])
  }

  function WeightedNotional(weights: Weights, f: Flow): real {
    Max(f.notionalUsd, 0.0) * Max(if f.wallet in weights then weights[f.wallet] else 0.0, 0.0)
  }

  function Toward(weights: Weights, direction: string): Flow -> real {
    (f: Flow) => if f.direction == direction then WeightedNotional(weights, f) else 0.0
  }

  function Samples(flows: seq<Flow>): int {
    if flows == [] then 0 else (if flows[0].tradeCount > 1 then flows[0].tradeCount else 1) + Samples(flows[1..])
  }

  function Wallets(flows: seq<Flow>): set<string> { set f | f in flows :: f.wallet }

  predicate IsLatest(flows: seq<Flow>, latest: Option<int>) {
    match latest
    case None => flows == []
    case Some(t) => (exists f :: f in flows && f.observedAt == t) && forall f | f in flows :: f.observedAt <= t
  }

  function ShareOf(part: real, whole: real): real
    requires whole > 0.0
  {
    part / whole
  }

  function Score(part: real, whole: real): real {
    if whole <= 0.0 then 0.0 else Rounding.Round(ShareOf(part, whole), Rounding.MICROS)
  }

  // The snapshot of a window, from the flows that count in it.
  ghost predicate IsSnapshot(a: Aggregator, weights: Weights, end: int, kept: seq<Flow>, s: Snapshot) {
    var inflow, outflow := Sum(kept, Toward(weights, "inflow")), Sum(kept, Toward(weights, "outflow"));
    && s.inflow == Score(inflow, inflow + outflow)
    && s.outflow == Score(outflow, inflow + outflow)
    && s.trackedWallets == |weights.Keys|
    && s.sampleCount == Samples(kept)
    && s.quality
       == (if weights == map[] then "missing_registry"
           else if Samples(kept) < a.minFlowCount || |Wallets(kept)| < a.minWalletCount then "low_sample"
           else "ok")
    && exists latest :: IsLatest(kept, latest) && s.freshness
         == match latest
            case None => a.windowSeconds
            case Some(t) => if end - t > 0 then end - t else 0
  }

  method BuildSnapshot(
    a: Aggregator, chain: Chain, token: Token, entries: seq<RegistryEntry>, flows: seq<Flow>, end: int)
    returns (s: Snapshot)
    ensures var weights := ActiveWeights(chain, entries);
      IsSnapshot(a, weights, end, Filtered(a, chain, token, weights, end, flows), s)
  {
    var weights := ActiveWeights(chain, entries);
    var kept := Filtered(a, chain, token, weights, end, flows);
    var inflow, outflow, samples, wallets, latest := Accumulate(weights, kept);
    var total := inflow + outflow;
    var freshness := match latest
      case None => a.windowSeconds
      case Some(t) => if end - t > 0 then end - t else 0;
    var quality := "ok";
    if weights == map[] {
      quality := "missing_registry";
    } else if samples < a.minFlowCount || |wallets| < a.minWalletCount {
      quality := "low_sample";
    }
    s := Snapshot(Score(inflow, total), Score(outflow, total), |weights.Keys|, samples, quality, freshness);
  }

  // The loop over the flows that count.
  method Accumulate(weights: Weights, kept: seq<Flow>)
    returns (inflow: real, outflow: real, samples: int, wallets: set<string>, latest: Option<int>)
    ensures inflow == Sum(kept, Toward(weights, "inflow")) && outflow == Sum(kept, Toward(weights, "outflow"))
    ensures samples == Samples(kept) && wallets == Wallets(kept) && IsLatest(kept, latest)
  {
    inflow, outflow, samples, wallets, latest := 0.0, 0.0, 0, {}, None;
    var i := 0;
    while i < |kept|
      invariant 0 <= i <= |kept|
      invariant inflow == Sum(kept[..i], Toward(weights, "inflow"))
      invariant outflow == Sum(kept[..i], Toward(weights, "outflow"))
      invariant samples == Samples(kept[..i]) && wallets == Wallets(kept[..i])
      invariant IsLatest(kept[..i], latest)
    {
      var f := kept[i];
      OneMoreFlow(weights, kept, i, latest);
      var weighted := WeightedNotional(weights, f);
      if f.direction == "inflow" {
        inflow := inflow + weighted;
      } else if f.direction == "outflow" {
        outflow := outflow + weighted;
      }
      samples := samples + if f.tradeCount > 1 then f.tradeCount else 1;
      wallets := wallets + {f.wallet};
      if latest == None || f.observedAt > latest.value {
        latest := Some(f.observedAt);
      }
      i := i + 1;
    }
    assert kept[..i] == kept;
  }

  lemma {:induction false} SamplesSnoc(flows: seq<Flow>, f: Flow)
    ensures Samples(flows + [f]) == Samples(flows) + if f.tradeCount > 1 then f.tradeCount else 1
  {
    if flows != [] {
      assert (flows + [f])[1..] == flows[1..] + [f];
      SamplesSnoc(flows[1..], f);
    } else {
      assert (flows + [f])[1..] == [];
    }
  }

  lemma OneMoreFlow(weights: Weights, kept: seq<Flow>, i: nat, latest: Option<int>)
    requires i < |kept| && IsLatest(kept[..i], latest)
    ensures Sum(kept[..i + 1], Toward(weights, "inflow"))
      == Sum(kept[..i], Toward(weights, "inflow")) + Toward(weights, "inflow")(kept[i])
    ensures Sum(kept[..i + 1], Toward(weights, "outflow"))
      == Sum(kept[..i], Toward(weights, "outflow")) + Toward(weights, "outflow")(kept[i])
    ensures Samples(kept[..i + 1]) == Samples(kept[..i]) + if kept[i].tradeCount > 1 then kept[i].tradeCount else 1
    ensures Wallets(kept[..i + 1]) == Wallets(kept[..i]) + {kept[i].wallet}
    ensures IsLatest(
      kept[..i + 1], if latest == None || kept[i].observedAt > latest.value then Some(kept[i].observedAt) else latest)
  {
    var done, f := kept[..i], kept[i];
    assert kept[..i + 1] == done + [f];
    SumSnoc(done, f, Toward(weights, "inflow"));
    SumSnoc(done, f, Toward(weights, "outflow"));
    SamplesSnoc(done, f);
    assert f in done + [f];
    assert forall g :: g in done + [f] <==> g in done || g == f;
  }

  // --- what a snapshot says of the flows ---------------------------------------------------------

  predicate Active(e: RegistryEntry, chain: Chain, wallet: string) {
    e.chain == chain && e.wallet == wallet && e.status == "active"
  }

  // The wallets that count are those active on the chain, each with the weight of its last active entry.
  lemma {:induction false} ActiveExactly(chain: Chain, entries: seq<RegistryEntry>, wallet: string)
    ensures wallet in ActiveWeights(chain, entries) <==> exists e :: e in entries && Active(e, chain, wallet)
    decreases |entries|
  {
    if entries != [] {
      var n := |entries| - 1;
      ActiveExactly(chain, entries[..n], wallet);
      if Active(entries[n], chain, wallet) {
        assert entries[n] in entries;
      } else if e :| e in entries && Active(e, chain, wallet) {
        assert e in entries[..n];
      } else {
        assert forall e | e in entries[..n] :: e in entries;
      }
    }
  }

  lemma {:induction false} LastActive(chain: Chain, entries: seq<RegistryEntry>, i: nat, wallet: string)
    requires i < |entries| && Active(entries[i], chain, wallet)
    requires forall j | i < j < |entries| :: !Active(entries[j], chain, wallet)
    ensures wallet in ActiveWeights(chain, entries) && ActiveWeights(chain, entries)[wallet] == entries[i].weight
    decreases |entries|
  {
    var n := |entries| - 1;
    if i < n {
      assert !Active(entries[n], chain, wallet);
      LastActive(chain, entries[..n], i, wallet);
    }
  }

  // A flow counts if it is of the pair, by such a wallet, and within the window that ends here.
  lemma CountedExactly(
    a: Aggregator, chain: Chain, token: Token, entries: seq<RegistryEntry>, end: int, flows: seq<Flow>, f: Flow)
    ensures f in Filtered(a, chain, token, ActiveWeights(chain, entries), end, flows) <==>
      && f in flows && f.chain == chain && f.token == token
      && end - f.observedAt <= a.windowSeconds && f.observedAt <= end
      && exists e :: e in entries && Active(e, chain, f.wallet)
  {
    FilteredCount(a, chain, token, ActiveWeights(chain, entries), end, flows, f);
    ActiveExactly(chain, entries, f.wallet);
  }

  lemma WeightedExactly(weights: Weights, f: Flow)
    requires f.wallet in weights
    ensures WeightedNotional(weights, f)
      == if f.notionalUsd > 0.0 && weights[f.wallet] > 0.0 then f.notionalUsd * weights[f.wallet] else 0.0
  {
  }

  // One more flow moves its own direction by its notional times the weight of its wallet, and nothing if one of them is
  // not positive.
  lemma FlowMoves(weights: Weights, kept: seq<Flow>, f: Flow)
    requires f.wallet in weights
    ensures var weight := weights[f.wallet];
      var moved := if f.notionalUsd > 0.0 && weight > 0.0 then f.notionalUsd * weight else 0.0;
      && Sum(kept + [f], Toward(weights, "inflow"))
         == Sum(kept, Toward(weights, "inflow")) + (if f.direction == "inflow" then moved else 0.0)
      && Sum(kept + [f], Toward(weights, "outflow"))
         == Sum(kept, Toward(weights, "outflow")) + (if f.direction == "outflow" then moved else 0.0)
  {
    SumSnoc(kept, f, Toward(weights, "inflow"));
    SumSnoc(kept, f, Toward(weights, "outflow"));
    WeightedExactly(weights, f);
  }

  // The scores are the shares of both sums in their total, to half a millionth; a snapshot is good if there are
  // wallets, samples and different wallets enough; and it is as old as its latest flow.
  lemma SnapshotExactly(a: Aggregator, weights: Weights, end: int, kept: seq<Flow>, s: Snapshot)
    requires IsSnapshot(a, weights, end, kept, s)
    ensures var inflow, outflow := Sum(kept, Toward(weights, "inflow")), Sum(kept, Toward(weights, "outflow"));
      inflow + outflow > 0.0 ==>
        && -0.0000005 <= s.inflow - ShareOf(inflow, inflow + outflow) <= 0.0000005
        && -0.0000005 <= s.outflow - ShareOf(outflow, inflow + outflow) <= 0.0000005
    ensures s.quality in {"missing_registry", "low_sample", "ok"}
    ensures s.quality == "missing_registry" <==> forall w :: w !in weights
    ensures s.quality == "low_sample" ==> s.sampleCount < a.minFlowCount || |Wallets(kept)| < a.minWalletCount
    ensures s.quality == "ok" ==> s.sampleCount >= a.minFlowCount && |Wallets(kept)| >= a.minWalletCount
    ensures kept == [] ==> s.freshness == a.windowSeconds && s.sampleCount == 0
    ensures forall f | f in kept && f.observedAt <= end :: s.freshness <= end - f.observedAt
    ensures kept != [] ==> exists f :: f in kept && s.freshness == if f.observedAt <= end then end - f.observedAt else 0
  {
    var inflow, outflow := Sum(kept, Toward(weights, "inflow")), Sum(kept, Toward(weights, "outflow"));
    if inflow + outflow > 0.0 {
      Rounding.RoundNear(ShareOf(inflow, inflow + outflow), Rounding.MICROS);
      Rounding.RoundNear(ShareOf(outflow, inflow + outflow), Rounding.MICROS);
      assert Rounding.ScaleDown(0.5, Rounding.MICROS) == 0.0000005;
    }
    assert weights == map[] <==> forall w :: w !in weights;
  }

  // --- what the scores satisfy -------------------------------------------------------------------

  lemma WeightedNonNegative(weights: Weights, direction: string, flows: seq<Flow>)
    ensures Sum(flows, Toward(weights, direction)) >= 0.0
  {
  }

  lemma ShareSum(a: real, b: real, whole: real)
    requires whole > 0.0
    ensures ShareOf(a, whole) + ShareOf(b, whole) == ShareOf(a + b, whole)
    ensures ShareOf(whole, whole) == 1.0
  {
  }

  lemma ShareNonNegative(a: real, whole: real)
    requires whole > 0.0 && a >= 0.0
    ensures ShareOf(a, whole) >= 0.0
  {
  }

  lemma SharesComplete(part: real, rest: real)
    requires part >= 0.0 && rest >= 0.0 && part + rest > 0.0
    ensures ShareOf(rest, part + rest) == 1.0 - ShareOf(part, part + rest)
    ensures 0.0 <= ShareOf(part, part + rest) <= 1.0
  {
    ShareSum(part, rest, part + rest);
    ShareNonNegative(part, part + rest);
    ShareNonNegative(rest, part + rest);
  }

  lemma RoundedUnit(x: real)
    requires 0.0 <= x <= 1.0
    ensures 0.0 <= Rounding.Round(x, Rounding.MICROS) <= 1.0
  {
  }

  // Both scores lie in [0, 1]. They sum to exactly 1 when some weighted notional flowed, although each is rounded on
  // its own, and are both 0 otherwise.
  lemma ScoresComplement(a: Aggregator, weights: Weights, end: int, kept: seq<Flow>, s: Snapshot)
    requires IsSnapshot(a, weights, end, kept, s)
    ensures 0.0 <= s.inflow <= 1.0 && 0.0 <= s.outflow <= 1.0
    ensures var total := Sum(kept, Toward(weights, "inflow")) + Sum(kept, Toward(weights, "outflow"));
      if total > 0.0 then s.inflow + s.outflow == 1.0 else s.inflow == s.outflow == 0.0
  {
    var inflow, outflow := Sum(kept, Toward(weights, "inflow")), Sum(kept, Toward(weights, "outflow"));
    WeightedNonNegative(weights, "inflow", kept);
    WeightedNonNegative(weights, "outflow", kept);
    if inflow + outflow > 0.0 {
      SharesComplete(inflow, outflow);
      var x := ShareOf(inflow, inflow + outflow);
      RoundedUnit(x);
      RoundedUnit(1.0 - x);
      Rounding.RoundComplement(x, Rounding.MICROS);
    }
  }

  // --- order of the flows ------------------------------------------------------------------------

  // The number of times a flow counts in a window does not depend on where it stands.
  lemma {:induction false} FilteredCount(
    a: Aggregator, chain: Chain, token: Token, weights: Weights, end: int, flows: seq<Flow>, f: Flow)
    ensures multiset(Filtered(a, chain, token, weights, end, flows))[f]
      == if Counts(a, chain, token, weights, end, f) then multiset(flows)[f] else 0
  {
    if flows != [] {
      FilteredCount(a, chain, token, weights, end, flows[1..], f);
      assert flows == [flows[0]] + flows[1..];
    }
  }

  lemma {:induction false} SamplesOrderFree(p: seq<Flow>, q: seq<Flow>)
    requires multiset(p) == multiset(q)
    ensures Samples(p) == Samples(q)
  {
    SamplesAreSum(p);
    SamplesAreSum(q);
    SumOrderFree(p, q, TradeCount());
  }

  function TradeCount(): Flow -> real {
    (f: Flow) => (if f.tradeCount > 1 then f.tradeCount else 1) as real
  }

  lemma {:induction false} SamplesAreSum(p: seq<Flow>)
    ensures Samples(p) as real == Sum(p, TradeCount())
  {
    if p != [] {
      SamplesAreSum(p[1..]);
    }
  }

  lemma LatestUnique(p: seq<Flow>, q: seq<Flow>, s: Option<int>, t: Option<int>)
    requires multiset(p) == multiset(q) && IsLatest(p, s) && IsLatest(q, t)
    ensures s == t
  {
    SameFlows(p, q);
  }

  lemma SameFlows(p: seq<Flow>, q: seq<Flow>)
    requires multiset(p) == multiset(q)
    ensures |p| == |q| && (forall f :: f in p <==> f in q) && Wallets(p) == Wallets(q)
  {
    assert |multiset(p)| == |multiset(q)|;
    forall f: Flow
      ensures f in p <==> f in q
    {
      assert f in multiset(p) <==> f in multiset(q);
    }
  }

  // Reordering the flows changes nothing in the snapshot.
  lemma SnapshotOrderFree(
    a: Aggregator, chain: Chain, token: Token, weights: Weights, end: int, p: seq<Flow>, q: seq<Flow>,
    s: Snapshot, t: Snapshot)
    requires multiset(p) == multiset(q)
    requires IsSnapshot(a, weights, end, Filtered(a, chain, token, weights, end, p), s)
    requires IsSnapshot(a, weights, end, Filtered(a, chain, token, weights, end, q), t)
    ensures s == t
  {
    var kp, kq := Filtered(a, chain, token, weights, end, p), Filtered(a, chain, token, weights, end, q);
    forall f: Flow
      ensures multiset(kp)[f] == multiset(kq)[f]
    {
      FilteredCount(a, chain, token, weights, end, p, f);
      FilteredCount(a, chain, token, weights, end, q, f);
    }
    assert multiset(kp) == multiset(kq);
    KeptOrderFree(a, weights, end, kp, kq, s, t);
  }

  lemma KeptOrderFree(
    a: Aggregator, weights: Weights, end: int, kp: seq<Flow>, kq: seq<Flow>, s: Snapshot, t: Snapshot)
    requires multiset(kp) == multiset(kq)
    requires IsSnapshot(a, weights, end, kp, s) && IsSnapshot(a, weights, end, kq, t)
    ensures s == t
  {
    SumOrderFree(kp, kq, Toward(weights, "inflow"));
    SumOrderFree(kp, kq, Toward(weights, "outflow"));
    SamplesOrderFree(kp, kq);
    SameFlows(kp, kq);
    forall u, v | IsLatest(kp, u) && IsLatest(kq, v)
      ensures u == v
    {
      LatestUnique(kp, kq, u, v);
    }
  }
}
