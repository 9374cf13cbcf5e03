// ORDER BY and LIMIT: rows of a table listed by a key of up to two instants and two texts, ascending.
module Ordering {

  datatype Rank = Rank(first: int, second: int, third: string, fourth: string)

  // Texts compare code point by code point; a proper prefix comes first.
  predicate TextBefore(a: string, b: string) {
    b != [] && (a == [] || a[0] < b[0] || (a[0] == b[0] && TextBefore(a[1..], b[1..])))
  }

  predicate Before(a: Rank, b: Rank) {
    || a.first < b.first
    || (a.first == b.first && a.second < b.second)
    || (a.first == b.first && a.second == b.second && TextBefore(a.third, b.third))
    || (a.first == b.first && a.second == b.second && a.third == b.third && TextBefore(a.fourth, b.fourth))
  }

  lemma {:induction false} TextIrreflexive(a: string)
    ensures !TextBefore(a, a)
  {
    if a != [] {
      TextIrreflexive(a[1..]);
    }
  }

  lemma {:induction false} TextTransitive(a: string, b: string, c: string)
    requires TextBefore(a, b) && TextBefore(b, c)
    ensures TextBefore(a, c)
  {
    if a != [] && a[0] == b[0] && b[0] == c[0] {
      TextTransitive(a[1..], b[1..], c[1..]);
    }
  }

  lemma {:induction false} TextTotal(a: string, b: string)
    ensures a == b || TextBefore(a, b) || TextBefore(b, a)
  {
    if a != [] && b != [] && a[0] == b[0] {
      TextTotal(a[1..], b[1..]);
      assert a == [a[0]] + a[1..] && b == [b[0]] + b[1..];
    }
  }

  lemma BeforeIrreflexive(a: Rank)
    ensures !Before(a, a)
  {
    TextIrreflexive(a.third);
    TextIrreflexive(a.fourth);
  }

  lemma BeforeTransitive(a: Rank, b: Rank, c: Rank)
    requires Before(a, b) && Before(b, c)
    ensures Before(a, c)
  {
    if TextBefore(a.third, b.third) && TextBefore(b.third, c.third) {
      TextTransitive(a.third, b.third, c.third);
    }
    if TextBefore(a.fourth, b.fourth) && TextBefore(b.fourth, c.fourth) {
      TextTransitive(a.fourth, b.fourth, c.fourth);
    }
  }

  lemma BeforeTotal(a: Rank, b: Rank)
    ensures a == b || Before(a, b) || Before(b, a)
  {
    TextTotal(a.third, b.third);
    TextTotal(a.fourth, b.fourth);
  }

  ghost predicate IsLeast<T(!new)>(items: set<T>, rank: T -> Rank, x: T) {
    x in items && forall y | y in items :: !Before(rank(y), rank(x))
  }

  lemma {:induction false} LeastExists<T(!new)>(items: set<T>, rank: T -> Rank)
    requires items != {}
    ensures exists x :: IsLeast(items, rank, x)
    decreases |items|
  {
    var y :| y in items;
    if items == {y} {
      BeforeIrreflexive(rank(y));
      assert IsLeast(items, rank, y);
    } else {
      LeastExists(items - {y}, rank);
      var x :| IsLeast(items - {y}, rank, x);
      LeastOf(items, rank, x, y);
    }
  }

  lemma LeastOf<T(!new)>(items: set<T>, rank: T -> Rank, x: T, y: T)
    requires y in items && IsLeast(items - {y}, rank, x)
    ensures exists z :: IsLeast(items, rank, z)
  {
    if Before(rank(y), rank(x)) {
      forall z | z in items
        ensures !Before(rank(z), rank(y))
      {
        if Before(rank(z), rank(y)) {
          BeforeIrreflexive(rank(y));
          BeforeTransitive(rank(z), rank(y), rank(x));
        }
      }
      assert IsLeast(items, rank, y);
    } else {
      assert IsLeast(items, rank, x);
    }
  }

  ghost function Least<T(!new)>(items: set<T>, rank: T -> Rank): (x: T)
    requires items != {}
    ensures IsLeast(items, rank, x)
  {
    LeastExists(items, rank);
    var x :| IsLeast(items, rank, x); x
  }

  // SELECT ... ORDER BY rank
  ghost function Sorted<T(!new)>(items: set<T>, rank: T -> Rank): (s: seq<T>)
    ensures |s| == |items|
    decreases |items|
  {
    if items == {} then [] else
      var x := Least(items, rank);
      [x] + Sorted(items - {x}, rank)
  }

  // SELECT ... ORDER BY rank LIMIT n
  ghost function Selected<T(!new)>(items: set<T>, rank: T -> Rank, limit: nat): seq<T> {
    var s := Sorted(items, rank);
    if |s| <= limit then s else s[..limit]
  }

  ghost predicate Ascending<T(!new)>(s: seq<T>, rank: T -> Rank) {
    forall i, j | 0 <= i < j < |s| :: !Before(rank(s[j]), rank(s[i]))
  }

  ghost predicate Distinct<T(!new)>(s: seq<T>) {
    forall i, j | 0 <= i < j < |s| :: s[i] != s[j]
  }

  lemma {:induction false} SortedHas<T(!new)>(items: set<T>, rank: T -> Rank)
    ensures forall x :: x in Sorted(items, rank) <==> x in items
    decreases |items|
  {
    if items != {} {
      var x := Least(items, rank);
      SortedHas(items - {x}, rank);
    }
  }

  lemma {:induction false} SortedAscends<T(!new)>(items: set<T>, rank: T -> Rank)
    ensures Ascending(Sorted(items, rank), rank) && Distinct(Sorted(items, rank))
    decreases |items|
  {
    if items != {} {
      var x := Least(items, rank);
      var rest := Sorted(items - {x}, rank);
      SortedAscends(items - {x}, rank);
      SortedHas(items - {x}, rank);
      var s := Sorted(items, rank);
      forall i, j | 0 <= i < j < |s|
        ensures !Before(rank(s[j]), rank(s[i])) && s[i] != s[j]
      {
        assert s[j] == rest[j - 1] && s[j] in items - {x};
        if i > 0 {
          assert s[i] == rest[i - 1];
        }
      }
    }
  }

  // What a query with a limit returns: matching rows only, each once, in order, as many as the limit allows; a
  // matching row left out comes after no row returned.
  lemma SelectedSound<T(!new)>(items: set<T>, rank: T -> Rank, limit: nat)
    ensures var s := Selected(items, rank, limit);
      && |s| == (if |items| <= limit then |items| else limit)
      && Ascending(s, rank) && Distinct(s)
      && (forall x | x in s :: x in items)
      && (|items| <= limit ==> forall x | x in items :: x in s)
      && forall x, y | x in s && y in items && y !in s :: !Before(rank(y), rank(x))
  {
    var all, s := Sorted(items, rank), Selected(items, rank, limit);
    SortedHas(items, rank);
    SortedAscends(items, rank);
    forall x | x in s
      ensures x in items
    {
      assert x in all;
    }
    forall x, y | x in s && y in items && y !in s
      ensures !Before(rank(y), rank(x))
    {
      var i :| 0 <= i < |s| && s[i] == x;
      assert y in all;
      var j :| 0 <= j < |all| && all[j] == y;
      assert j >= |s|;
      assert all[i] == x;
    }
  }

  ghost predicate Ranked<T(!new)>(items: set<T>, rank: T -> Rank) {
    forall x, y | x in items && y in items && rank(x) == rank(y) :: x == y
  }

  // With distinct keys there is one least row.
  lemma LeastUnique<T(!new)>(items: set<T>, rank: T -> Rank, x: T)
    requires items != {} && Ranked(items, rank) && IsLeast(items, rank, x)
    ensures x == Least(items, rank)
  {
    BeforeTotal(rank(x), rank(Least(items, rank)));
  }

  lemma SortedStep<T(!new)>(items: set<T>, rank: T -> Rank, x: T)
    requires items != {} && Ranked(items, rank) && IsLeast(items, rank, x)
    ensures Sorted(items, rank) == [x] + Sorted(items - {x}, rank)
    ensures Ranked(items - {x}, rank)
  {
    LeastUnique(items, rank, x);
  }

  lemma Shift<T>(a: seq<T>, x: T, b: seq<T>)
    ensures a + ([x] + b) == (a + [x]) + b
  {
  }

  lemma SelectedPrefix<T(!new)>(items: set<T>, rank: T -> Rank, limit: nat, rows: seq<T>, rest: set<T>)
    requires Sorted(items, rank) == rows + Sorted(rest, rank)
    requires |rows| <= limit && (rest == {} || |rows| == limit)
    ensures rows == Selected(items, rank, limit)
  {
  }

  // The query, answered by taking the least remaining row until none is left or the limit is reached.
  method Select<T(==, !new)>(items: set<T>, rank: T -> Rank, limit: nat) returns (rows: seq<T>)
    requires Ranked(items, rank)
    ensures rows == Selected(items, rank, limit)
  {
    var rest := items;
    rows := [];
    while rest != {} && |rows| < limit
      invariant Ranked(rest, rank) && |rows| <= limit
      invariant Sorted(items, rank) == rows + Sorted(rest, rank)
      decreases |rest|
    {
      LeastExists(rest, rank);
      var x :| x in rest && forall y | y in rest :: !Before(rank(y), rank(x));
      SortedStep(rest, rank, x);
      Shift(rows, x, Sorted(rest - {x}, rank));
      rows, rest := rows + [x], rest - {x};
    }
    SelectedPrefix(items, rank, limit, rows, rest);
  }
}
