// portfolio/allocator.py: capital split over the intents of one poll, by score.
module Allocator {
  import opened Schemas
  import opened StableSort
  import opened Sums
  import Rounding

  datatype Allocated = Allocated(intent: Intent, notionalUsd: real, proRata: bool)

  type Scores = map<Token, real>

  // The last signal of a token gives its score.
  function ScoreMap(signals: seq<TokenSignal>): Scores {
    if signals == [] then map[] else
      var s := signals[|signals| - 1];
      ScoreMap(signals[..|signals| - 1])[s.token := s.alphaScore]
  }

  function ScoreOr(scores: Scores, token: Token, default: real): real {
    if token in scores then scores[token] else default
  }

  // A token without a score weighs one half, but sorts as if it scored nothing.
  function RawWeight(scores: Scores): Intent -> real { (x: Intent) => ScoreOr(scores, x.Token(), 0.5) }

  function Descending(scores: Scores): Intent -> real { (x: Intent) => -ScoreOr(scores, x.Token(), 0.0) }

  function TotalWeight(intents: seq<Intent>, scores: Scores): (t: real)
    ensures t > 0.0
  {
    var t := Sum(intents, RawWeight(scores));
    if t <= 0.0 then 1.0 else t
  }

  function Weight(x: Intent, scores: Scores, total: real): real
    requires total > 0.0
  {
    RawWeight(scores)(x) / total
  }

  function Part(remaining: real, weight: real): real { remaining * weight }

  // What the intent at the head receives of what remains.
  function Share(x: Intent, scores: Scores, total: real, remaining: real): real
    requires total > 0.0
  {
    Min(x.targetNotional, Part(remaining, Weight(x, scores, total)))
  }

  // What remains after the first n intents.
  function Remaining(order: seq<Intent>, scores: Scores, total: real, capital: real, n: nat): real
    requires n <= |order| && total > 0.0
  {
    if n == 0 then capital
    else
      var before := Remaining(order, scores, total, capital, n - 1);
      before - Share(order[n - 1], scores, total, before)
  }

  function ShareAt(order: seq<Intent>, scores: Scores, total: real, capital: real, i: nat): real
    requires i < |order| && total > 0.0
  {
    Share(order[i], scores, total, Remaining(order, scores, total, capital, i))
  }

  // --- the allocation ----------------------------------------------------------------------------

  // Several intents, best score first, each with its share rounded to cents.
  function Allotted(order: seq<Intent>, scores: Scores, total: real, capital: real): seq<Allocated>
    requires total > 0.0
  {
    seq(|order|, i requires 0 <= i < |order| =>
      Allocated(order[i], Rounding.Round(ShareAt(order, scores, total, capital, i), Rounding.CENTS), true))
  }

  function Allocation(intents: seq<Intent>, signals: seq<TokenSignal>, capital: real): seq<Allocated> {
    if |intents| == 0 then []
    else if |intents| == 1 then [Allocated(intents[0], Min(intents[0].targetNotional, capital), false)]
    else
      var scores := ScoreMap(signals);
      Allotted(Sort(intents, Descending(scores)), scores, TotalWeight(intents, scores), capital)
  }

  method Allocate(intents: seq<Intent>, signals: seq<TokenSignal>, capital: real) returns (result: seq<Allocated>)
    ensures result == Allocation(intents, signals, capital)
  {
    if |intents| == 0 {
      return [];
    }
    if |intents| == 1 {
      return [Allocated(intents[0], Min(intents[0].targetNotional, capital), false)];
    }
    var scores := ScoreMap(signals);
    result := Spread(Sort(intents, Descending(scores)), scores, TotalWeight(intents, scores), capital);
  }

  // The loop over the intents, best score first.
  method Spread(order: seq<Intent>, scores: Scores, total: real, capital: real) returns (result: seq<Allocated>)
    requires total > 0.0
    ensures result == Allotted(order, scores, total, capital)
  {
    result := [];
    var remaining := capital;
    var i := 0;
    while i < |order|
      invariant 0 <= i <= |order|
      invariant remaining == Remaining(order, scores, total, capital, i)
      invariant result == Allotted(order, scores, total, capital)[..i]
    {
      var share := Share(order[i], scores, total, remaining);
      result := result + [Allocated(order[i], Rounding.Round(share, Rounding.CENTS), true)];
      remaining := remaining - share;
      i := i + 1;
    }
  }

  // --- what each intent gets ---------------------------------------------------------------------

  // The score of a token is that of its last signal.
  lemma {:induction false} ScoresAreLast(signals: seq<TokenSignal>, i: nat)
    requires i < |signals| && forall j | i < j < |signals| :: signals[j].token != signals[i].token
    ensures signals[i].token in ScoreMap(signals)
    ensures ScoreMap(signals)[signals[i].token] == signals[i].alphaScore
    decreases |signals|
  {
    if i < |signals| - 1 {
      ScoresAreLast(signals[..|signals| - 1], i);
    }
  }

  lemma {:induction false} ScoredExactly(signals: seq<TokenSignal>, token: Token)
    ensures token in ScoreMap(signals) <==> exists i :: 0 <= i < |signals| && signals[i].token == token
    decreases |signals|
  {
    if signals != [] {
      var n := |signals| - 1;
      ScoredExactly(signals[..n], token);
      if i :| 0 <= i < |signals| && signals[i].token == token && i < n {
        assert signals[..n][i].token == token;
      }
    }
  }

  // A single intent gets as much as its target and the capital allow, and no score counts.
  lemma SingleIntent(x: Intent, signals: seq<TokenSignal>, capital: real)
    ensures var result := Allocation([x], signals, capital);
      && |result| == 1 && result[0].intent == x && !result[0].proRata
      && result[0].notionalUsd <= x.targetNotional && result[0].notionalUsd <= capital
      && (result[0].notionalUsd == x.targetNotional || result[0].notionalUsd == capital)
  {
  }

  // Of several, each gets as much as its target and its weight of what is left allow, to half a cent.
  lemma ShareIsLargest(intents: seq<Intent>, signals: seq<TokenSignal>, capital: real, i: nat)
    requires |intents| > 1 && i < |intents|
    ensures var result, scores := Allocation(intents, signals, capital), ScoreMap(signals);
      var order, total := Sort(intents, Descending(scores)), TotalWeight(intents, scores);
      var share, left := ShareAt(order, scores, total, capital, i), Remaining(order, scores, total, capital, i);
      && |result| == |intents| && result[i].intent == order[i] && result[i].proRata
      && -0.005 <= result[i].notionalUsd - share <= 0.005
      && share <= order[i].targetNotional && share <= Part(left, Weight(order[i], scores, total))
      && (share == order[i].targetNotional || share == Part(left, Weight(order[i], scores, total)))
      && left == capital - Shares(order, scores, total, capital, i)
  {
    var scores := ScoreMap(signals);
    var order, total := Sort(intents, Descending(scores)), TotalWeight(intents, scores);
    Rounding.RoundNear(ShareAt(order, scores, total, capital, i), Rounding.CENTS);
    SharesConserve(order, scores, total, capital, i);
  }

  function WeightIn(scores: Scores, total: real): Intent -> real
    requires total > 0.0
  {
    (x: Intent) => Weight(x, scores, total)
  }

  lemma Divided(a: real, b: real, total: real)
    requires total > 0.0
    ensures (a + b) / total == a / total + b / total
  {
  }

  lemma {:induction false} WeightsScale(intents: seq<Intent>, scores: Scores, total: real)
    requires total > 0.0
    ensures Sum(intents, WeightIn(scores, total)) == Sum(intents, RawWeight(scores)) / total
  {
    if intents != [] {
      WeightsScale(intents[1..], scores, total);
      Divided(RawWeight(scores)(intents[0]), Sum(intents[1..], RawWeight(scores)), total);
    }
  }

  lemma CrossRatio(a: real, b: real, total: real)
    requires total > 0.0
    ensures (a / total) * b == (b / total) * a
  {
    var u, v := a / total, b / total;
    assert a == u * total && b == v * total;
    assert u * (v * total) == v * (u * total);
  }

  // The weights are in proportion to the scores and add up to one, unless the scores add up to nothing.
  lemma WeightsComplete(intents: seq<Intent>, scores: Scores, x: Intent, y: Intent)
    ensures var total := TotalWeight(intents, scores);
      && (Sum(intents, RawWeight(scores)) > 0.0 ==> Sum(intents, WeightIn(scores, total)) == 1.0)
      && Weight(x, scores, total) * RawWeight(scores)(y) == Weight(y, scores, total) * RawWeight(scores)(x)
  {
    var total := TotalWeight(intents, scores);
    WeightsScale(intents, scores, total);
    CrossRatio(RawWeight(scores)(x), RawWeight(scores)(y), total);
    assert Sum(intents, RawWeight(scores)) > 0.0 ==> total / total == 1.0;
    assert Weight(x, scores, total) == RawWeight(scores)(x) / total;
    assert Weight(y, scores, total) == RawWeight(scores)(y) / total;
  }

  // --- conservation ------------------------------------------------------------------------------

  predicate UnitScores(scores: Scores) { forall t | t in scores :: 0.0 <= scores[t] <= 1.0 }

  lemma Quotient(a: real, b: real)
    requires 0.0 <= a <= b && b > 0.0
    ensures 0.0 <= a / b <= 1.0
  {
  }

  lemma PartBounds(remaining: real, weight: real)
    requires remaining >= 0.0 && 0.0 <= weight <= 1.0
    ensures 0.0 <= Part(remaining, weight) <= remaining
  {
  }

  lemma WeightBounds(intents: seq<Intent>, x: Intent, scores: Scores)
    requires x in intents && UnitScores(scores)
    ensures 0.0 <= Weight(x, scores, TotalWeight(intents, scores)) <= 1.0
  {
    SumNonNegative(intents, RawWeight(scores));
    Quotient(RawWeight(scores)(x), TotalWeight(intents, scores));
  }

  lemma Ordering(intents: seq<Intent>, scores: Scores)
    ensures multiset(Sort(intents, Descending(scores))) == multiset(intents)
    ensures forall x :: x in Sort(intents, Descending(scores)) <==> x in intents
  {
    SortSound(intents, Descending(scores));
    var order := Sort(intents, Descending(scores));
    forall x: Intent
      ensures x in order <==> x in intents
    {
      assert x in multiset(order) <==> x in multiset(intents);
    }
  }

  lemma ShareBounds(intents: seq<Intent>, x: Intent, scores: Scores, remaining: real)
    requires UnitScores(scores) && remaining >= 0.0 && x in intents
    ensures Share(x, scores, TotalWeight(intents, scores), remaining) <= x.targetNotional
    ensures Share(x, scores, TotalWeight(intents, scores), remaining) <= remaining
    ensures x.targetNotional >= 0.0 ==> Share(x, scores, TotalWeight(intents, scores), remaining) >= 0.0
  {
    WeightBounds(intents, x, scores);
    PartBounds(remaining, Weight(x, scores, TotalWeight(intents, scores)));
  }

  // What remains is never negative.
  lemma {:induction false} RemainingBounds(intents: seq<Intent>, scores: Scores, capital: real, n: nat)
    requires UnitScores(scores) && capital >= 0.0 && n <= |intents|
    ensures Remaining(Sort(intents, Descending(scores)), scores, TotalWeight(intents, scores), capital, n) >= 0.0
    decreases n
  {
    if n > 0 {
      var order, total := Sort(intents, Descending(scores)), TotalWeight(intents, scores);
      RemainingBounds(intents, scores, capital, n - 1);
      Ordering(intents, scores);
      assert order[n - 1] in order;
      ShareBounds(intents, order[n - 1], scores, Remaining(order, scores, total, capital, n - 1));
    }
  }

  function Shares(order: seq<Intent>, scores: Scores, total: real, capital: real, n: nat): real
    requires n <= |order| && total > 0.0
  {
    if n == 0 then 0.0
    else Shares(order, scores, total, capital, n - 1) + ShareAt(order, scores, total, capital, n - 1)
  }

  lemma {:induction false} SharesConserve(order: seq<Intent>, scores: Scores, total: real, capital: real, n: nat)
    requires n <= |order| && total > 0.0
    ensures Shares(order, scores, total, capital, n) + Remaining(order, scores, total, capital, n) == capital
    decreases n
  {
    if n > 0 {
      SharesConserve(order, scores, total, capital, n - 1);
    }
  }

  const NOTIONAL: Allocated -> real := (a: Allocated) => a.notionalUsd

  function HalfCents(n: int): real { 0.005 * n as real }

  lemma RoundedUp(x: real)
    ensures Rounding.Round(x, Rounding.CENTS) <= x + 0.005
  {
  }

  lemma {:induction false} RoundedShares(order: seq<Intent>, scores: Scores, total: real, capital: real, n: nat)
    requires total > 0.0 && n <= |order|
    ensures Sum(Allotted(order, scores, total, capital)[..n], NOTIONAL)
      <= Shares(order, scores, total, capital, n) + HalfCents(n)
    decreases n
  {
    if n > 0 {
      var result := Allotted(order, scores, total, capital);
      RoundedShares(order, scores, total, capital, n - 1);
      assert result[..n] == result[..n - 1] + [result[n - 1]];
      SumSnoc(result[..n - 1], result[n - 1], NOTIONAL);
      RoundedUp(ShareAt(order, scores, total, capital, n - 1));
    }
  }

  function IntentsOf(result: seq<Allocated>): seq<Intent> {
    seq(|result|, i requires 0 <= i < |result| => result[i].intent)
  }

  // Several intents, any scores in [0, 1] and any capital: each intent is allocated once; the unrounded shares and
  // what remains add up to the capital, with nothing overdrawn; rounding adds half a cent per intent at most.
  lemma AllocationConserves(intents: seq<Intent>, signals: seq<TokenSignal>, capital: real)
    requires |intents| > 1 && capital >= 0.0 && UnitScores(ScoreMap(signals))
    ensures var result := Allocation(intents, signals, capital);
      && multiset(IntentsOf(result)) == multiset(intents)
      && Sum(result, NOTIONAL) <= capital + HalfCents(|intents|)
    ensures var scores := ScoreMap(signals);
      var order, total, n := Sort(intents, Descending(scores)), TotalWeight(intents, scores), |intents|;
      && Shares(order, scores, total, capital, n) + Remaining(order, scores, total, capital, n) == capital
      && Remaining(order, scores, total, capital, n) >= 0.0
      && forall i | 0 <= i < n :: ShareAt(order, scores, total, capital, i) <= order[i].targetNotional
  {
    var scores := ScoreMap(signals);
    var order, total, n := Sort(intents, Descending(scores)), TotalWeight(intents, scores), |intents|;
    var result := Allocation(intents, signals, capital);
    Ordering(intents, scores);
    assert IntentsOf(result) == order;
    SharesConserve(order, scores, total, capital, n);
    RemainingBounds(intents, scores, capital, n);
    RoundedShares(order, scores, total, capital, n);
    assert result[..n] == result;
  }

  // --- order of the shares -----------------------------------------------------------------------

  lemma PartMono(a: real, b: real, u: real, v: real)
    requires 0.0 <= a <= b && 0.0 <= u <= v
    ensures Part(a, u) <= Part(b, v)
  {
  }

  lemma QuotientMono(a: real, b: real, c: real)
    requires a <= b && c > 0.0
    ensures a / c <= b / c
  {
  }

  // When every token is scored and all targets are the same, a better score never gets less.
  lemma SharesDescend(intents: seq<Intent>, scores: Scores, capital: real, target: real, i: nat)
    requires UnitScores(scores) && capital >= 0.0 && target >= 0.0 && i + 1 < |intents|
    requires forall x | x in intents :: x.Token() in scores && x.targetNotional == target
    ensures var order, total := Sort(intents, Descending(scores)), TotalWeight(intents, scores);
      && ScoreOr(scores, order[i + 1].Token(), 0.0) <= ScoreOr(scores, order[i].Token(), 0.0)
      && ShareAt(order, scores, total, capital, i + 1) <= ShareAt(order, scores, total, capital, i)
  {
    var order, total := Sort(intents, Descending(scores)), TotalWeight(intents, scores);
    Ordering(intents, scores);
    SortOrdered(intents, Descending(scores));
    var x, y := order[i], order[i + 1];
    assert x in order && y in order;
    assert Descending(scores)(x) <= Descending(scores)(y);
    RemainingBounds(intents, scores, capital, i);
    RemainingBounds(intents, scores, capital, i + 1);
    WeightBounds(intents, x, scores);
    WeightBounds(intents, y, scores);
    QuotientMono(RawWeight(scores)(y), RawWeight(scores)(x), total);
    var before := Remaining(order, scores, total, capital, i);
    PartBounds(before, Weight(x, scores, total));
    PartMono(
      Remaining(order, scores, total, capital, i + 1), before, Weight(y, scores, total), Weight(x, scores, total));
  }

  // --- how far from pro rata it is ---------------------------------------------------------------

  // Of what remains, each intent takes its weight: the leftover is a product, not zero.
  function Leftover(order: seq<Intent>, scores: Scores, total: real, n: nat): real
    requires n <= |order| && total > 0.0
  {
    if n == 0 then 1.0
    else Part(Leftover(order, scores, total, n - 1), 1.0 - Weight(order[n - 1], scores, total))
  }

  lemma PartOfPart(capital: real, left: real, weight: real)
    ensures Part(capital, left) - Part(Part(capital, left), weight) == Part(capital, Part(left, 1.0 - weight))
  {
  }

  // No target binds among the first n: each gets its weight of what remains.
  ghost predicate Unbound(order: seq<Intent>, scores: Scores, total: real, capital: real, n: nat)
    requires n <= |order| && total > 0.0
  {
    forall i | 0 <= i < n ::
      ShareAt(order, scores, total, capital, i)
      == Part(Remaining(order, scores, total, capital, i), Weight(order[i], scores, total))
  }

  lemma {:induction false} UncappedLeftover(order: seq<Intent>, scores: Scores, total: real, capital: real, n: nat)
    requires n <= |order| && total > 0.0 && Unbound(order, scores, total, capital, n)
    ensures Remaining(order, scores, total, capital, n) == Part(capital, Leftover(order, scores, total, n))
    decreases n
  {
    if n > 0 {
      UncappedLeftover(order, scores, total, capital, n - 1);
      PartOfPart(capital, Leftover(order, scores, total, n - 1), Weight(order[n - 1], scores, total));
      assert ShareAt(order, scores, total, capital, n - 1)
        == Part(Remaining(order, scores, total, capital, n - 1), Weight(order[n - 1], scores, total));
    }
  }

  predicate NoWeightBefore(order: seq<Intent>, scores: Scores, total: real, n: nat)
    requires n <= |order| && total > 0.0
  {
    forall j | 0 <= j < n :: Weight(order[j], scores, total) == 0.0
  }

  predicate UnitWeights(order: seq<Intent>, scores: Scores, total: real)
    requires total > 0.0
  {
    forall j | 0 <= j < |order| :: 0.0 <= Weight(order[j], scores, total) <= 1.0
  }

  // The leftover is the whole only as long as nothing has weighed anything.
  lemma {:induction false} LeftoverWhole(order: seq<Intent>, scores: Scores, total: real, n: nat)
    requires n <= |order| && total > 0.0 && UnitWeights(order, scores, total)
    ensures 0.0 <= Leftover(order, scores, total, n) <= 1.0
    ensures Leftover(order, scores, total, n) == 1.0 <==> NoWeightBefore(order, scores, total, n)
    decreases n
  {
    if n > 0 {
      LeftoverWhole(order, scores, total, n - 1);
      LeftoverStep(Leftover(order, scores, total, n - 1), Weight(order[n - 1], scores, total));
    }
  }

  lemma LeftoverStep(left: real, weight: real)
    requires 0.0 <= left <= 1.0 && 0.0 <= weight <= 1.0
    ensures 0.0 <= Part(left, 1.0 - weight) <= 1.0
    ensures Part(left, 1.0 - weight) == 1.0 <==> left == 1.0 && weight == 0.0
  {
    PartMono(left, left, 1.0 - weight, 1.0);
    PartMono(left, 1.0, 1.0 - weight, 1.0 - weight);
    PartBounds(left, 1.0 - weight);
  }

  lemma PartWhole(capital: real, left: real, weight: real)
    ensures Part(Part(capital, left), weight) == Part(capital, weight)
      <==> capital == 0.0 || weight == 0.0 || left == 1.0
  {
    assert Part(Part(capital, left), weight) - Part(capital, weight) == (capital * weight) * (left - 1.0);
  }

  lemma SortedWeights(intents: seq<Intent>, scores: Scores)
    requires UnitScores(scores)
    ensures UnitWeights(Sort(intents, Descending(scores)), scores, TotalWeight(intents, scores))
  {
    var order := Sort(intents, Descending(scores));
    Ordering(intents, scores);
    forall j | 0 <= j < |order|
      ensures 0.0 <= Weight(order[j], scores, TotalWeight(intents, scores)) <= 1.0
    {
      assert order[j] in order;
      WeightBounds(intents, order[j], scores);
    }
  }

  // While no target binds, an intent gets its pro-rata share of the capital if and only if the capital, its weight
  // or every earlier weight is zero.
  lemma ProRataExactly(intents: seq<Intent>, scores: Scores, capital: real, i: nat)
    requires UnitScores(scores) && i < |intents|
    requires Unbound(Sort(intents, Descending(scores)), scores, TotalWeight(intents, scores), capital, i + 1)
    ensures var order, total := Sort(intents, Descending(scores)), TotalWeight(intents, scores);
      ShareAt(order, scores, total, capital, i) == Part(capital, Weight(order[i], scores, total))
      <==> capital == 0.0 || Weight(order[i], scores, total) == 0.0 || NoWeightBefore(order, scores, total, i)
  {
    var order, total := Sort(intents, Descending(scores)), TotalWeight(intents, scores);
    SortedWeights(intents, scores);
    UncappedLeftover(order, scores, total, capital, i);
    LeftoverWhole(order, scores, total, i);
    PartWhole(capital, Leftover(order, scores, total, i), Weight(order[i], scores, total));
  }

  // For one, two equal scores do not get equal parts: the second gets half of what the first left, and a quarter is
  // unused.
  lemma NotProRata(x: Intent, y: Intent, scores: Scores, capital: real)
    requires x.Token() in scores && y.Token() in scores && scores[x.Token()] == scores[y.Token()] > 0.0
    requires capital >= 0.0 && x.targetNotional > capital && y.targetNotional > capital
    ensures var order, total := Sort([x, y], Descending(scores)), TotalWeight([x, y], scores);
      && order == [x, y]
      && ShareAt(order, scores, total, capital, 0) == capital / 2.0
      && ShareAt(order, scores, total, capital, 1) == capital / 4.0
      && Remaining(order, scores, total, capital, 2) == capital / 4.0
  {
    var order, total := Sort([x, y], Descending(scores)), TotalWeight([x, y], scores);
    SortFixed([x, y], Descending(scores));
    HalfWeights(x, y, scores);
    assert Remaining(order, scores, total, capital, 1) == capital / 2.0;
  }

  lemma HalfWeights(x: Intent, y: Intent, scores: Scores)
    requires x.Token() in scores && y.Token() in scores && scores[x.Token()] == scores[y.Token()] > 0.0
    ensures var total := TotalWeight([x, y], scores);
      Weight(x, scores, total) == 0.5 && Weight(y, scores, total) == 0.5
  {
    var s := scores[x.Token()];
    SumPair(x, y, RawWeight(scores));
    assert TotalWeight([x, y], scores) == s + s;
    assert s / (s + s) == 0.5;
  }

  // A scored and an unscored intent, in either order: the scored one comes first.
  lemma ScoredFirst(x: Intent, y: Intent, intents: seq<Intent>, scores: Scores)
    requires x.Token() in scores && scores[x.Token()] >= 0.0 && y.Token() !in scores
    requires intents == [x, y] || (intents == [y, x] && scores[x.Token()] > 0.0)
    ensures Sort(intents, Descending(scores)) == [x, y]
    ensures TotalWeight(intents, scores) == scores[x.Token()] + 0.5
  {
    if intents == [x, y] {
      SortFixed([x, y], Descending(scores));
      SumPair(x, y, RawWeight(scores));
    } else {
      assert [y, x][1..] == [x] && [x][1..] == [];
      assert Sort([x], Descending(scores)) == [x];
      assert Insert(y, [x], Descending(scores)) == [x] + Insert(y, [], Descending(scores));
      SumPair(y, x, RawWeight(scores));
    }
  }

  lemma HalfSquared(s: real, capital: real)
    requires s >= 0.0 && capital > 0.0
    ensures var first := Part(capital, s / (s + 0.5));
      Part(capital - first, 0.5 / (s + 0.5)) > first <==> 4.0 * s * (s + 0.5) < 1.0
  {
    var d := s + 0.5;
    var a, b := s / d, 0.5 / d;
    assert a * d == s && b * d == 0.5;
    assert a + b == 1.0 by {
      assert (a + b) * d == d;
    }
    var first := Part(capital, a);
    assert capital - first == capital * b;
    assert Part(capital - first, b) - first == capital * (b * b - a);
    assert (b * b - a) * (d * d) == 0.25 - s * d;
    PositiveFactor(b * b - a, d * d);
    PositiveFactor(b * b - a, capital);
  }

  lemma PositiveFactor(x: real, factor: real)
    requires factor > 0.0
    ensures factor * x > 0.0 <==> x > 0.0
    ensures x * factor > 0.0 <==> x > 0.0
  {
  }

  // A token without a score comes last but weighs one half. With one scored and one unscored intent and no target
  // binding, it gets more than the scored one if and only if the score s satisfies 4 s (s + 1/2) < 1.
  lemma UnscoredBeatsScoredExactly(x: Intent, y: Intent, intents: seq<Intent>, scores: Scores, capital: real)
    requires x.Token() in scores && scores[x.Token()] >= 0.0 && y.Token() !in scores && capital > 0.0
    requires intents == [x, y] || (intents == [y, x] && scores[x.Token()] > 0.0)
    requires Unbound(Sort(intents, Descending(scores)), scores, TotalWeight(intents, scores), capital, 2)
    ensures var order, total := Sort(intents, Descending(scores)), TotalWeight(intents, scores);
      && order == [x, y]
      && (ShareAt(order, scores, total, capital, 1) > ShareAt(order, scores, total, capital, 0)
          <==> 4.0 * scores[x.Token()] * (scores[x.Token()] + 0.5) < 1.0)
  {
    ScoredFirst(x, y, intents, scores);
    var total := TotalWeight(intents, scores);
    var first := ShareAt([x, y], scores, total, capital, 0);
    assert first == Part(capital, Weight(x, scores, total));
    assert Remaining([x, y], scores, total, capital, 1) == capital - first;
    HalfSquared(scores[x.Token()], capital);
  }

  // For one: a score of 0.2 and a capital of 700.
  lemma UnscoredBeatsScored(x: Intent, y: Intent, scores: Scores)
    requires x.Token() in scores && scores[x.Token()] == 0.2 && y.Token() !in scores
    requires x.targetNotional > 700.0 && y.targetNotional > 700.0
    ensures var order, total := Sort([x, y], Descending(scores)), TotalWeight([x, y], scores);
      && order == [x, y]
      && ShareAt(order, scores, total, 700.0, 0) == 200.0
      && ShareAt(order, scores, total, 700.0, 1) > 357.0
  {
    ScoredFirst(x, y, [x, y], scores);
    var total := TotalWeight([x, y], scores);
    assert total == 0.7;
    assert Remaining([x, y], scores, total, 700.0, 1) == 500.0;
  }
}
