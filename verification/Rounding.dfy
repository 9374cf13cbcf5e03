// Python's round(x, n) on exact reals: the nearest multiple of 10^-n, ties to the even one.
module Rounding {

  function HalfEven(x: real): (r: int)
    ensures -0.5 <= r as real - x <= 0.5
  {
    var f := x.Floor;
    var d := x - f as real;
    if d < 0.5 then f else if d > 0.5 then f + 1 else if f % 2 == 0 then f else f + 1
  }

  const CENTS := 100
  const MICROS := 1_000_000

  function ScaleUp(x: real, scale: int): real
    requires scale > 0
  {
    x * scale as real
  }

  function ScaleDown(h: real, scale: int): real
    requires scale > 0
  {
    h / scale as real
  }

  // round(x, n), where scale is 10^n.
  function Round(x: real, scale: int): real
    requires scale > 0
  {
    ScaleDown(HalfEven(ScaleUp(x, scale)) as real, scale)
  }

  lemma ScaleUpMono(x: real, y: real, scale: int)
    requires x <= y && scale > 0
    ensures ScaleUp(x, scale) <= ScaleUp(y, scale)
  {
  }

  lemma ScaleDownMono(x: real, y: real, scale: int)
    requires x <= y && scale > 0
    ensures ScaleDown(x, scale) <= ScaleDown(y, scale)
  {
  }

  lemma ScaleDownSum(x: real, y: real, scale: int)
    requires scale > 0
    ensures ScaleDown(x + y, scale) == ScaleDown(x, scale) + ScaleDown(y, scale)
  {
  }

  lemma ScaleInverse(x: real, scale: int)
    requires scale > 0
    ensures ScaleDown(ScaleUp(x, scale), scale) == x
  {
  }

  lemma HalfEvenMonotone(x: real, y: real)
    requires x <= y
    ensures HalfEven(x) <= HalfEven(y)
  {
  }

  // Reflection about an even integer keeps the parity of a tie, so it commutes with rounding.
  lemma HalfEvenReflect(n: int, x: real)
    requires n % 2 == 0
    ensures HalfEven(n as real - x) == n - HalfEven(x)
  {
  }

  lemma RoundNear(x: real, scale: int)
    requires scale > 0
    ensures x - ScaleDown(0.5, scale) <= Round(x, scale) <= x + ScaleDown(0.5, scale)
  {
    var u := ScaleUp(x, scale);
    var h := HalfEven(u) as real;
    ScaleInverse(x, scale);
    ScaleDownMono(h, u + 0.5, scale);
    ScaleDownSum(u, 0.5, scale);
    ScaleDownMono(u, h + 0.5, scale);
    ScaleDownSum(h, 0.5, scale);
  }

  lemma RoundMonotone(x: real, y: real, scale: int)
    requires scale > 0 && x <= y
    ensures Round(x, scale) <= Round(y, scale)
  {
    ScaleUpMono(x, y, scale);
    HalfEvenMonotone(ScaleUp(x, scale), ScaleUp(y, scale));
    ScaleDownMono(HalfEven(ScaleUp(x, scale)) as real, HalfEven(ScaleUp(y, scale)) as real, scale);
  }

  lemma RoundZero(scale: int)
    requires scale > 0
    ensures Round(0.0, scale) == 0.0
  {
  }

  lemma RoundNonNegative(x: real, scale: int)
    requires scale > 0 && x >= 0.0
    ensures Round(x, scale) >= 0.0
  {
  }

  // Two shares that add up to one still add up to one after rounding, because the scale is even.
  lemma RoundComplement(p: real, scale: int)
    requires scale > 0 && scale % 2 == 0
    ensures Round(p, scale) + Round(1.0 - p, scale) == 1.0
  {
    var u := ScaleUp(p, scale);
    assert ScaleUp(1.0 - p, scale) == scale as real - u;
    HalfEvenReflect(scale, u);
    var h := HalfEven(u);
    ScaleDownSum(h as real, (scale - h) as real, scale);
    assert h as real + (scale - h) as real == ScaleUp(1.0, scale);
    ScaleInverse(1.0, scale);
  }
}
