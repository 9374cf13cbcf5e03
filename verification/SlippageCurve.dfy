// The slippage curve of sentinel/feature_aggregator.py: quote samples sorted by notional, and the estimate between
// them.
module SlippageCurve {
  import opened StableSort

  datatype Point = Point(notionalUsd: real, slippageBps: real)

  const BY_NOTIONAL: Point -> real := (p: Point) => p.notionalUsd

  // --- what is estimated -------------------------------------------------------------------------

  function Times(a: real, b: real): real { a * b }

  function Mix(a: real, b: real, ratio: real): real { a + Times(b - a, ratio) }

  function Ratio(lower: real, upper: real, target: real): real
    requires lower != upper
  {
    (target - lower) / (upper - lower)
  }

  function Line(lower: Point, upper: Point, target: real): real
    requires lower.notionalUsd != upper.notionalUsd
  {
    Mix(lower.slippageBps, upper.slippageBps, Ratio(lower.notionalUsd, upper.notionalUsd, target))
  }

  // The number of leading points below the target.
  function Below(points: seq<Point>, target: real): (n: nat)
    ensures n <= |points|
    ensures forall i | 0 <= i < n :: points[i].notionalUsd < target
    ensures n < |points| ==> points[n].notionalUsd >= target
  {
    if points == [] || points[0].notionalUsd >= target then 0 else 1 + Below(points[1..], target)
  }

  // The estimate on sorted points: the last sample past the end, the first before the beginning or at a knot, and
  // the line through the two neighbours in between.
  function Interpolated(points: seq<Point>, target: real): real
    requires points != []
  {
    var n := Below(points, target);
    if n == |points| then points[n - 1].slippageBps
    else if n == 0 || points[n].notionalUsd == target then points[n].slippageBps
    else Line(points[n - 1], points[n], target)
  }

  function Estimate(points: seq<Point>, target: real): real {
    var sorted := Sort(points, BY_NOTIONAL);
    if sorted == [] then 0.0 else Interpolated(sorted, target)
  }

  // build_slippage_curve keeps its points sorted; the estimate sorts them once more.
  lemma CurveEstimate(points: seq<Point>, target: real)
    ensures Estimate(Sort(points, BY_NOTIONAL), target) == Estimate(points, target)
  {
    SortOrdered(points, BY_NOTIONAL);
    SortFixed(Sort(points, BY_NOTIONAL), BY_NOTIONAL);
  }

  // --- how it is computed ------------------------------------------------------------------------

  method EstimateFromCurve(samplePoints: seq<Point>, target: real) returns (bps: real)
    ensures bps == Estimate(samplePoints, target)
  {
    var points := Sort(samplePoints, BY_NOTIONAL);
    SortSound(samplePoints, BY_NOTIONAL);
    if points == [] {
      return 0.0;
    }
    if |points| == 1 {
      return points[0].slippageBps;
    }
    var lower, upper := points[0], points[|points| - 1];
    var i := 0;
    while i < |points|
      invariant 0 <= i <= |points|
      invariant forall j | 0 <= j < i :: points[j].notionalUsd < target
      invariant lower == points[if i == 0 then 0 else i - 1]
      invariant upper == points[|points| - 1]
    {
      if points[i].notionalUsd <= target {
        lower := points[i];
      }
      if points[i].notionalUsd >= target {
        upper := points[i];
        break;
      }
      i := i + 1;
    }
    Neighbours(points, target, i, lower, upper);
    if upper.notionalUsd == lower.notionalUsd {
      return lower.slippageBps;
    }
    var ratio := Ratio(lower.notionalUsd, upper.notionalUsd, target);
    bps := Mix(lower.slippageBps, upper.slippageBps, ratio);
  }

  // Where the search stopped, and what it had chosen by then.
  lemma Neighbours(points: seq<Point>, target: real, i: nat, lower: Point, upper: Point)
    requires |points| > 1 && i <= |points|
    requires forall j | 0 <= j < i :: points[j].notionalUsd < target
    requires i < |points| ==> points[i].notionalUsd >= target && upper == points[i]
    requires i < |points| ==>
      lower == if points[i].notionalUsd == target then points[i] else points[if i == 0 then 0 else i - 1]
    requires i == |points| ==> lower == upper == points[i - 1]
    ensures upper.notionalUsd == lower.notionalUsd ==> Interpolated(points, target) == lower.slippageBps
    ensures upper.notionalUsd != lower.notionalUsd ==> Interpolated(points, target) == Line(lower, upper, target)
  {
  }

  // --- what the estimate satisfies ---------------------------------------------------------------

  lemma Fraction(a: real, b: real)
    requires 0.0 <= a <= b && b > 0.0
    ensures 0.0 <= a / b <= 1.0
  {
  }

  lemma Product(d: real, r: real)
    requires 0.0 <= r <= 1.0
    ensures d >= 0.0 ==> 0.0 <= Times(d, r) <= d
    ensures d <= 0.0 ==> d <= Times(d, r) <= 0.0
  {
  }

  lemma Weighted(a: real, b: real, r: real, lo: real, hi: real)
    requires 0.0 <= r <= 1.0 && lo <= a <= hi && lo <= b <= hi
    ensures lo <= Mix(a, b, r) <= hi
  {
    Product(b - a, r);
  }

  lemma LineBetween(lower: Point, upper: Point, target: real, lo: real, hi: real)
    requires lower.notionalUsd <= target <= upper.notionalUsd && lower.notionalUsd != upper.notionalUsd
    requires lo <= lower.slippageBps <= hi && lo <= upper.slippageBps <= hi
    ensures lo <= Line(lower, upper, target) <= hi
  {
    Fraction(target - lower.notionalUsd, upper.notionalUsd - lower.notionalUsd);
    Weighted(
      lower.slippageBps, upper.slippageBps, Ratio(lower.notionalUsd, upper.notionalUsd, target), lo, hi);
  }

  lemma SortedHas(points: seq<Point>, p: Point)
    ensures p in Sort(points, BY_NOTIONAL) <==> p in points
  {
    SortSound(points, BY_NOTIONAL);
    assert p in multiset(Sort(points, BY_NOTIONAL)) <==> p in multiset(points);
  }

  lemma InterpolatedBetween(s: seq<Point>, target: real, lo: real, hi: real)
    requires s != [] && forall i | 0 <= i < |s| :: lo <= s[i].slippageBps <= hi
    ensures lo <= Interpolated(s, target) <= hi
  {
    var n := Below(s, target);
    if 0 < n < |s| && s[n].notionalUsd != target {
      LineBetween(s[n - 1], s[n], target, lo, hi);
    }
  }

  // The estimate lies between any bounds on the sampled slippage.
  lemma EstimateBetween(points: seq<Point>, target: real, lo: real, hi: real)
    requires points != []
    requires forall p | p in points :: lo <= p.slippageBps <= hi
    ensures lo <= Estimate(points, target) <= hi
  {
    var s := Sort(points, BY_NOTIONAL);
    forall i | 0 <= i < |s|
      ensures lo <= s[i].slippageBps <= hi
    {
      SortedHas(points, s[i]);
    }
    InterpolatedBetween(s, target, lo, hi);
  }

  // At a sampled notional the estimate is the sample itself, the earliest one when several were taken there.
  lemma EstimateAtKnot(points: seq<Point>, i: nat)
    requires i < |points|
    requires forall j | 0 <= j < i :: points[j].notionalUsd != points[i].notionalUsd
    ensures Estimate(points, points[i].notionalUsd) == points[i].slippageBps
  {
    var s, x := Sort(points, BY_NOTIONAL), points[i].notionalUsd;
    KnotFound(points, points[i]);
    GroupFirst(points, BY_NOTIONAL, x, i);
    GroupFirst(s, BY_NOTIONAL, x, Below(s, x));
    SortGroup(points, BY_NOTIONAL, x);
  }

  lemma KnotFound(points: seq<Point>, p: Point)
    requires p in points
    ensures var s := Sort(points, BY_NOTIONAL);
      var n := Below(s, p.notionalUsd); n < |s| && s[n].notionalUsd == p.notionalUsd
  {
    var s := Sort(points, BY_NOTIONAL);
    SortedHas(points, p);
    SortOrdered(points, BY_NOTIONAL);
    var j: nat :| j < |s| && s[j] == p;
    KnotAt(s, j);
  }

  lemma KnotAt(s: seq<Point>, j: nat)
    requires Ordered(s, BY_NOTIONAL) && j < |s|
    ensures var n := Below(s, s[j].notionalUsd); n <= j && s[n].notionalUsd == s[j].notionalUsd
  {
  }

  // Below the sampled range the estimate is the smallest notional's first sample.
  lemma ClampedBelow(points: seq<Point>, target: real, i: nat)
    requires i < |points| && forall p | p in points :: target < p.notionalUsd
    requires forall j | 0 <= j < |points| :: points[i].notionalUsd <= points[j].notionalUsd
    requires forall j | 0 <= j < i :: points[j].notionalUsd != points[i].notionalUsd
    ensures Estimate(points, target) == points[i].slippageBps
  {
    var s, x := Sort(points, BY_NOTIONAL), points[i].notionalUsd;
    SortSound(points, BY_NOTIONAL);
    SortedHas(points, s[0]);
    SortedHas(points, points[i]);
    assert Below(s, target) == 0;
    assert s[0].notionalUsd == x;
    GroupFirst(points, BY_NOTIONAL, x, i);
    GroupFirst(s, BY_NOTIONAL, x, 0);
  }

  // Above it, the largest notional's last sample: not the one used at the knot when several were taken there.
  lemma ClampedAbove(points: seq<Point>, target: real, i: nat)
    requires i < |points| && forall p | p in points :: p.notionalUsd < target
    requires forall j | 0 <= j < |points| :: points[j].notionalUsd <= points[i].notionalUsd
    requires forall j | i < j < |points| :: points[j].notionalUsd != points[i].notionalUsd
    ensures Estimate(points, target) == points[i].slippageBps
  {
    var s := Sort(points, BY_NOTIONAL);
    PastTheEnd(points, target);
    TopNotional(points, i);
    GroupLast(points, BY_NOTIONAL, points[i].notionalUsd, i);
    GroupLast(s, BY_NOTIONAL, points[i].notionalUsd, |s| - 1);
    SortGroup(points, BY_NOTIONAL, points[i].notionalUsd);
  }

  lemma TopNotional(points: seq<Point>, i: nat)
    requires i < |points|
    requires forall j | 0 <= j < |points| :: points[j].notionalUsd <= points[i].notionalUsd
    ensures var s := Sort(points, BY_NOTIONAL); s[|s| - 1].notionalUsd == points[i].notionalUsd
  {
    var s := Sort(points, BY_NOTIONAL);
    SortedHas(points, s[|s| - 1]);
    SortedHas(points, points[i]);
    SortOrdered(points, BY_NOTIONAL);
  }

  lemma PastTheEnd(points: seq<Point>, target: real)
    requires forall p | p in points :: p.notionalUsd < target
    ensures var s := Sort(points, BY_NOTIONAL); Below(s, target) == |s|
  {
    var s := Sort(points, BY_NOTIONAL);
    var n := Below(s, target);
    if n < |s| {
      SortedHas(points, s[n]);
    }
  }

  // --- between the samples -----------------------------------------------------------------------

  // No sample lies strictly between these two around the target; of several at one notional, they are the last below
  // and the first above.
  predicate Enclose(points: seq<Point>, i: nat, j: nat, target: real)
    requires i < |points| && j < |points|
  {
    && points[i].notionalUsd < target < points[j].notionalUsd
    && (forall k | 0 <= k < |points| ::
          points[k].notionalUsd <= points[i].notionalUsd || points[k].notionalUsd >= points[j].notionalUsd)
    && (forall k | i < k < |points| :: points[k].notionalUsd != points[i].notionalUsd)
    && (forall k | 0 <= k < j :: points[k].notionalUsd != points[j].notionalUsd)
  }

  lemma BelowAround(s: seq<Point>, target: real, a: nat, b: nat)
    requires Ordered(s, BY_NOTIONAL) && a < |s| && b < |s|
    requires s[a].notionalUsd < target < s[b].notionalUsd
    ensures var n := Below(s, target);
      && 0 < n < |s| && s[n - 1].notionalUsd >= s[a].notionalUsd && s[n].notionalUsd <= s[b].notionalUsd
      && s[n - 1].notionalUsd < target <= s[n].notionalUsd
  {
    var n := Below(s, target);
    assert BY_NOTIONAL(s[a]) == s[a].notionalUsd && BY_NOTIONAL(s[b]) == s[b].notionalUsd;
  }

  lemma SortedIndex(points: seq<Point>, p: Point) returns (k: nat)
    requires p in points
    ensures var s := Sort(points, BY_NOTIONAL); k < |s| && s[k] == p
  {
    SortedHas(points, p);
    k :| 0 <= k < |Sort(points, BY_NOTIONAL)| && Sort(points, BY_NOTIONAL)[k] == p;
  }

  lemma NotStrictlyBetween(points: seq<Point>, i: nat, j: nat, target: real, p: Point)
    requires i < |points| && j < |points| && Enclose(points, i, j, target) && p in points
    ensures p.notionalUsd <= points[i].notionalUsd || p.notionalUsd >= points[j].notionalUsd
  {
  }

  lemma EnclosingNotionals(points: seq<Point>, i: nat, j: nat, target: real)
    requires i < |points| && j < |points| && Enclose(points, i, j, target)
    ensures var s := Sort(points, BY_NOTIONAL);
      var n := Below(s, target);
      0 < n < |s| && s[n - 1].notionalUsd == points[i].notionalUsd && s[n].notionalUsd == points[j].notionalUsd
  {
    var s := Sort(points, BY_NOTIONAL);
    var n := Below(s, target);
    SortOrdered(points, BY_NOTIONAL);
    var a := SortedIndex(points, points[i]);
    var b := SortedIndex(points, points[j]);
    BelowAround(s, target, a, b);
    SortedHas(points, s[n - 1]);
    SortedHas(points, s[n]);
    NotStrictlyBetween(points, i, j, target, s[n - 1]);
    NotStrictlyBetween(points, i, j, target, s[n]);
  }

  lemma OrderedAround(s: seq<Point>, n: nat)
    requires Ordered(s, BY_NOTIONAL) && 0 < n < |s| && s[n - 1].notionalUsd < s[n].notionalUsd
    ensures forall k | n - 1 < k < |s| :: BY_NOTIONAL(s[k]) != s[n - 1].notionalUsd
    ensures forall k | 0 <= k < n :: BY_NOTIONAL(s[k]) != s[n].notionalUsd
  {
  }

  lemma EnclosingSamples(points: seq<Point>, i: nat, j: nat, target: real)
    requires i < |points| && j < |points| && Enclose(points, i, j, target)
    ensures var s := Sort(points, BY_NOTIONAL);
      var n := Below(s, target); 0 < n < |s| && s[n - 1] == points[i] && s[n] == points[j]
  {
    var s, x, y := Sort(points, BY_NOTIONAL), points[i].notionalUsd, points[j].notionalUsd;
    var n := Below(s, target);
    EnclosingNotionals(points, i, j, target);
    SortOrdered(points, BY_NOTIONAL);
    OrderedAround(s, n);
    GroupLast(points, BY_NOTIONAL, x, i);
    GroupLast(s, BY_NOTIONAL, x, n - 1);
    GroupFirst(points, BY_NOTIONAL, y, j);
    GroupFirst(s, BY_NOTIONAL, y, n);
    SortGroup(points, BY_NOTIONAL, x);
    SortGroup(points, BY_NOTIONAL, y);
  }

  predicate OnLine(p: Point, q: Point, notionalUsd: real, bps: real) {
    (bps - p.slippageBps) * (q.notionalUsd - p.notionalUsd)
    == (q.slippageBps - p.slippageBps) * (notionalUsd - p.notionalUsd)
  }

  lemma LineThrough(p: Point, q: Point, target: real)
    requires p.notionalUsd < q.notionalUsd
    ensures OnLine(p, q, target, Line(p, q, target))
  {
    var width, rise := q.notionalUsd - p.notionalUsd, q.slippageBps - p.slippageBps;
    var ratio := Ratio(p.notionalUsd, q.notionalUsd, target);
    assert ratio * width == target - p.notionalUsd;
    assert (rise * ratio) * width == rise * (ratio * width);
  }

  // Between two neighbouring samples the estimate is on the straight line through them.
  lemma EstimateIsLinear(points: seq<Point>, i: nat, j: nat, target: real)
    requires i < |points| && j < |points| && Enclose(points, i, j, target)
    ensures OnLine(points[i], points[j], target, Estimate(points, target))
  {
    EnclosingSamples(points, i, j, target);
    LineThrough(points[i], points[j], target);
  }

  // --- monotonicity ------------------------------------------------------------------------------

  ghost predicate Rising(points: seq<Point>) {
    forall i, j | 0 <= i <= j < |points| :: points[i].slippageBps <= points[j].slippageBps
  }

  lemma LineRises(lower: Point, upper: Point, a: real, b: real)
    requires lower.notionalUsd < upper.notionalUsd && lower.slippageBps <= upper.slippageBps && a <= b
    ensures Line(lower, upper, a) <= Line(lower, upper, b)
  {
  }

  lemma BelowMono(points: seq<Point>, a: real, b: real)
    requires Ordered(points, BY_NOTIONAL) && a <= b
    ensures Below(points, a) <= Below(points, b)
  {
  }

  // The estimate lies between the samples around it.
  lemma Bracketed(s: seq<Point>, target: real)
    requires s != [] && Ordered(s, BY_NOTIONAL) && Rising(s)
    ensures var n := Below(s, target);
      && (n > 0 ==> s[n - 1].slippageBps <= Interpolated(s, target))
      && (n < |s| ==> Interpolated(s, target) <= s[n].slippageBps)
  {
    var n := Below(s, target);
    if 0 < n < |s| && s[n].notionalUsd != target {
      LineBetween(s[n - 1], s[n], target, s[n - 1].slippageBps, s[n].slippageBps);
    }
  }

  lemma SortedMonotone(s: seq<Point>, a: real, b: real)
    requires s != [] && Ordered(s, BY_NOTIONAL) && Rising(s) && a <= b
    ensures Interpolated(s, a) <= Interpolated(s, b)
  {
    var m, n := Below(s, a), Below(s, b);
    BelowMono(s, a, b);
    Bracketed(s, a);
    Bracketed(s, b);
    if m < n {
      assert s[m].slippageBps <= s[n - 1].slippageBps;
    } else if 0 < n < |s| && s[n].notionalUsd != b && s[n].notionalUsd != a {
      LineRises(s[n - 1], s[n], a, b);
    }
  }

  // When slippage rises along the sorted samples, a larger target never has a smaller estimate.
  lemma EstimateMonotone(points: seq<Point>, a: real, b: real)
    requires Rising(Sort(points, BY_NOTIONAL)) && a <= b
    ensures Estimate(points, a) <= Estimate(points, b)
  {
    SortSound(points, BY_NOTIONAL);
    if points != [] {
      SortedMonotone(Sort(points, BY_NOTIONAL), a, b);
    }
  }
}
