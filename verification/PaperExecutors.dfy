// execution/dex_executor.py and execution/cex_bridge.py: the paper venues, their random draws made inputs.
module PaperExecutors {
  import opened Schemas
  import opened Rounding

  // One venue's constants.
  datatype Venue = Venue(failureRate: real, partialRate: real, partialShare: real, volatility: real)

  const DEX_PAPER := Venue(0.05, 0.15, 0.6, 0.3)
  const CEX_PAPER := Venue(0.02, 0.08, 0.85, 0.15)

  // rng.uniform(-volatility, volatility) as a fraction in [-1, 1] of the volatility; rng.random() in [0, 1).
  datatype Draw = Draw(swing: real, roll: real) {
    predicate Valid() { -1.0 <= swing <= 1.0 && 0.0 <= roll < 1.0 }
  }

  function Slippage(v: Venue, maxSlippageBps: int, d: Draw): (bps: int)
    ensures bps >= 0
  {
    var bps := Trunc(maxSlippageBps as real * (1.0 + d.swing * v.volatility));
    if bps >= 0 then bps else 0
  }

  function Kept(bps: int): real { 1.0 - bps as real / 10000.0 }

  function Times(a: real, b: real): real { a * b }

  // What is left of a share of the request after slippage.
  function Retained(requested: real, share: real, bps: int): real {
    Times(Times(requested, share), Kept(bps))
  }

  function FilledShare(v: Venue, d: Draw): real {
    if d.roll < v.failureRate + v.partialRate then v.partialShare else 1.0
  }

  function Executed(v: Venue, requested: real, maxSlippageBps: int, d: Draw): real {
    if d.roll < v.failureRate then 0.0
    else Round(Retained(requested, FilledShare(v, d), Slippage(v, maxSlippageBps, d)), CENTS)
  }

  function FillOf(v: Venue, d: Draw): FillStatus {
    if d.roll < v.failureRate then FAILED
    else if d.roll < v.failureRate + v.partialRate then PARTIAL_FILL
    else FILLED
  }

  function PaperReport(v: Venue, intent: Intent, requested: real, d: Draw, timestamp: int): Report {
    Report(
      intent.id,
      FillOf(v, d),
      Executed(v, requested, intent.maxSlippageBps, d),
      timestamp,
      "paper_execution",
      None)
  }

  function PaperVenue(venueType: VenueType): Venue {
    if venueType == CEX then CEX_PAPER else DEX_PAPER
  }

  // The venues' odds and shares, in one roll: what fails, what fills in part, and how much of the request that is.
  lemma RolledExactly(v: Venue, intent: Intent, requested: real, d: Draw, timestamp: int)
    requires v in {DEX_PAPER, CEX_PAPER}
    ensures var r := PaperReport(v, intent, requested, d, timestamp);
      var failing, partial := if v == CEX_PAPER then 0.02 else 0.05, if v == CEX_PAPER then 0.1 else 0.2;
      && r.id == intent.id && r.timestamp == timestamp && r.fsm == None
      && (r.status == FAILED <==> d.roll < failing) && (r.status == FAILED ==> r.executedUsd == 0.0)
      && (r.status == PARTIAL_FILL <==> failing <= d.roll < partial)
      && (r.status == FILLED <==> d.roll >= partial)
      && (d.roll >= failing ==>
            var share := if d.roll >= partial then 1.0 else if v == CEX_PAPER then 0.85 else 0.6;
            var filled := Times(requested, share);
            var bps := Slippage(v, intent.maxSlippageBps, d);
            -0.005 <= r.executedUsd - Times(filled, Kept(bps)) <= 0.005)
  {
    RoundNear(Retained(requested, FilledShare(v, d), Slippage(v, intent.maxSlippageBps, d)), CENTS);
    assert ScaleDown(0.5, CENTS) == 0.005;
  }

  // The drawn slippage is the limit swung by at most 30 % or 15 %, in whole basis points and never negative.
  lemma SlippageExactly(v: Venue, maxSlippageBps: int, d: Draw)
    requires v in {DEX_PAPER, CEX_PAPER}
    ensures var swung := maxSlippageBps as real * (1.0 + d.swing * if v == CEX_PAPER then 0.15 else 0.3);
      var bps := Slippage(v, maxSlippageBps, d);
      && (swung >= 0.0 ==> bps as real <= swung < bps as real + 1.0)
      && (swung <= 0.0 ==> bps == 0)
  {
  }

  lemma RetainedBounds(requested: real, share: real, bps: int)
    requires requested >= 0.0 && 0.0 <= share <= 1.0 && bps >= 0
    ensures Retained(requested, share, bps) <= requested
    ensures bps <= 10000 ==> Retained(requested, share, bps) >= 0.0
    ensures requested == 0.0 ==> Retained(requested, share, bps) == 0.0
  {
    Product(requested, share);
    Product(Times(requested, share), Kept(bps));
  }

  lemma Product(a: real, k: real)
    requires a >= 0.0 && k <= 1.0
    ensures Times(a, k) <= a && (k >= 0.0 ==> Times(a, k) >= 0.0) && (a == 0.0 ==> Times(a, k) == 0.0)
  {
    if k < 0.0 {
      assert a * k <= 0.0;
    }
  }

  // A paper fill is never negative and exceeds the request by at most half a cent, as long as the drawn
  // slippage stays within 100 %; a zero request fills zero at any slippage.
  lemma FillBounds(v: Venue, requested: real, maxSlippageBps: int, d: Draw)
    requires v in {DEX_PAPER, CEX_PAPER} && d.Valid() && requested >= 0.0
    ensures Slippage(v, maxSlippageBps, d) <= 10000 ==>
      0.0 <= Executed(v, requested, maxSlippageBps, d) <= requested + 0.005
    ensures Executed(v, requested, maxSlippageBps, d) <= requested + 0.005
    ensures requested == 0.0 ==> Executed(v, requested, maxSlippageBps, d) == 0.0
  {
    var bps := Slippage(v, maxSlippageBps, d);
    var x := Retained(requested, FilledShare(v, d), bps);
    RetainedBounds(requested, FilledShare(v, d), bps);
    RoundNear(x, CENTS);
    if x >= 0.0 {
      RoundNonNegative(x, CENTS);
    }
    RoundZero(CENTS);
    assert ScaleDown(0.5, CENTS) == 0.005;
  }

  // The largest limit whose slippage stays within 100 % at every draw: the swing adds 30 % or 15 % at most.
  function SafeLimit(v: Venue): int { if v == CEX_PAPER then 8696 else 7693 }

  lemma SlippageCeiling(v: Venue, maxSlippageBps: int, d: Draw)
    requires v in {DEX_PAPER, CEX_PAPER} && d.Valid() && maxSlippageBps <= SafeLimit(v)
    ensures Slippage(v, maxSlippageBps, d) <= 10000
  {
    var m, f := maxSlippageBps as real, 1.0 + d.swing * v.volatility;
    assert 0.0 < f <= 1.0 + v.volatility;
    SwungBelow(m, f, 1.0 + v.volatility);
    TruncBelow(m * f);
  }

  lemma SwungBelow(m: real, f: real, top: real)
    requires 0.0 < f <= top && m * top < 10001.0
    ensures m * f < 10001.0
  {
    if m >= 0.0 {
      assert m * (top - f) >= 0.0;
    } else {
      assert m * f <= 0.0;
    }
  }

  lemma TruncBelow(x: real)
    requires x < 10001.0
    ensures Trunc(x) <= 10000
  {
  }

  // A thousand dollars at the widest swing, filled in full.
  const WIDEST := Draw(1.0, 0.5)

  lemma WidestNegative(v: Venue, maxSlippageBps: int)
    requires v in {DEX_PAPER, CEX_PAPER} && maxSlippageBps > SafeLimit(v)
    ensures WIDEST.Valid() && Executed(v, 1000.0, maxSlippageBps, WIDEST) < 0.0
  {
    var bps := Slippage(v, maxSlippageBps, WIDEST);
    assert maxSlippageBps as real * (1.0 + v.volatility) >= 10001.0;
    assert bps >= 10001;
    var left := Retained(1000.0, 1.0, bps);
    assert left <= -0.1;
    RoundMonotone(left, -0.1, CENTS);
    assert HalfEven(ScaleUp(-0.1, CENTS)) == -10;
  }

  ghost predicate CanFillNegative(v: Venue, maxSlippageBps: int) {
    exists d: Draw, requested: real ::
      d.Valid() && requested >= 0.0 && Executed(v, requested, maxSlippageBps, d) < 0.0
  }

  // A venue can report a negative fill exactly when the limit exceeds that bound.
  lemma NegativeFillExactly(v: Venue, maxSlippageBps: int)
    requires v in {DEX_PAPER, CEX_PAPER}
    ensures CanFillNegative(v, maxSlippageBps) <==> maxSlippageBps > SafeLimit(v)
  {
    if maxSlippageBps > SafeLimit(v) {
      WidestNegative(v, maxSlippageBps);
    } else if d: Draw, requested: real :|
      d.Valid() && requested >= 0.0 && Executed(v, requested, maxSlippageBps, d) < 0.0 {
      SlippageCeiling(v, maxSlippageBps, d);
      FillBounds(v, requested, maxSlippageBps, d);
      assert false;
    }
  }
}
