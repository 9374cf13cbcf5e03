// Python's sum() over a list, on exact reals.
module Sums {

  function Sum<T>(s: seq<T>, f: T -> real): real {
    if s == [] then 0.0 else f(s[0]) + Sum(s[1..], f)
  }

  lemma {:induction false} SumSplit<T>(a: seq<T>, b: seq<T>, f: T -> real)
    ensures Sum(a + b, f) == Sum(a, f) + Sum(b, f)
  {
    if a == [] {
      assert a + b == b;
    } else {
      assert (a + b)[1..] == a[1..] + b;
      SumSplit(a[1..], b, f);
    }
  }

  lemma Removed<T>(s: seq<T>, i: nat)
    requires i < |s|
    ensures multiset(s[..i] + s[i + 1..]) == multiset(s) - multiset{s[i]}
  {
    assert s == s[..i] + [s[i]] + s[i + 1..];
  }

  lemma SumWithout<T>(s: seq<T>, i: nat, f: T -> real)
    requires i < |s|
    ensures Sum(s, f) == Sum([s[i]], f) + Sum(s[..i] + s[i + 1..], f)
  {
    assert s == s[..i] + [s[i]] + s[i + 1..];
    SumSplit(s[..i] + [s[i]], s[i + 1..], f);
    SumSplit(s[..i], [s[i]], f);
    SumSplit(s[..i], s[i + 1..], f);
  }

  lemma IndexOf<T>(s: seq<T>, x: T) returns (i: nat)
    requires x in multiset(s)
    ensures i < |s| && s[i] == x
  {
    i :| 0 <= i < |s| && s[i] == x;
  }

  // A sum does not depend on the order of its terms.
  lemma {:induction false} SumOrderFree<T>(p: seq<T>, q: seq<T>, f: T -> real)
    requires multiset(p) == multiset(q)
    ensures Sum(p, f) == Sum(q, f)
    decreases |p|
  {
    assert |p| == |multiset(p)| == |q|;
    if p != [] {
      var i := IndexOf(q, p[0]);
      Removed(q, i);
      Removed(p, 0);
      var p', q' := p[..0] + p[1..], q[..i] + q[i + 1..];
      SumOrderFree(p', q', f);
      SumWithout(q, i, f);
      SumWithout(p, 0, f);
    }
  }

  lemma {:induction false} SumNonNegative<T>(s: seq<T>, f: T -> real)
    requires forall x | x in s :: f(x) >= 0.0
    ensures Sum(s, f) >= 0.0
    ensures forall x | x in s :: f(x) <= Sum(s, f)
  {
    if s != [] {
      SumNonNegative(s[1..], f);
    }
  }

  lemma SumSnoc<T>(s: seq<T>, x: T, f: T -> real)
    ensures Sum(s + [x], f) == Sum(s, f) + f(x)
  {
    SumSplit(s, [x], f);
  }

  lemma SumPair<T>(x: T, y: T, f: T -> real)
    ensures Sum([x, y], f) == f(x) + f(y)
  {
    assert [x, y] == [x] + [y];
    SumSplit([x], [y], f);
    assert Sum([x], f) == f(x) + Sum([x][1..], f) && Sum([y], f) == f(y) + Sum([y][1..], f);
  }
}
