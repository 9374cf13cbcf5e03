// Python's sorted(): ascending by a key, equal keys in their original order.
module StableSort {

  function Insert<T>(x: T, s: seq<T>, key: T -> real): seq<T> {
    if s == [] || key(x) <= key(s[0]) then [x] + s else [s[0]] + Insert(x, s[1..], key)
  }

  function Sort<T>(s: seq<T>, key: T -> real): (r: seq<T>)
    ensures |r| == |s|
  {
    if s == [] then [] else
      InsertLength(s[0], Sort(s[1..], key), key);
      Insert(s[0], Sort(s[1..], key), key)
  }

  ghost predicate Ordered<T>(s: seq<T>, key: T -> real) {
    forall i, j | 0 <= i < j < |s| :: key(s[i]) <= key(s[j])
  }

  // The elements with one key, in order.
  function Group<T>(s: seq<T>, key: T -> real, k: real): seq<T> {
    if s == [] then []
    else if key(s[0]) == k then [s[0]] + Group(s[1..], key, k)
    else Group(s[1..], key, k)
  }

  lemma {:induction false} InsertLength<T>(x: T, s: seq<T>, key: T -> real)
    ensures |Insert(x, s, key)| == |s| + 1
  {
    if s != [] && key(x) > key(s[0]) {
      InsertLength(x, s[1..], key);
    }
  }

  lemma {:induction false} InsertKeeps<T>(x: T, s: seq<T>, key: T -> real)
    ensures multiset(Insert(x, s, key)) == multiset(s) + multiset{x}
  {
    if s != [] {
      assert s == [s[0]] + s[1..];
      if key(x) > key(s[0]) {
        InsertKeeps(x, s[1..], key);
      }
    }
  }

  lemma {:induction false} InsertOrdered<T>(x: T, s: seq<T>, key: T -> real)
    requires Ordered(s, key)
    ensures Ordered(Insert(x, s, key), key)
  {
    if s != [] && key(x) > key(s[0]) {
      InsertOrdered(x, s[1..], key);
      InsertKeeps(x, s[1..], key);
      var r := Insert(x, s[1..], key);
      forall j | 0 <= j < |r|
        ensures key(s[0]) <= key(r[j])
      {
        assert r[j] in multiset(s[1..]) + multiset{x};
      }
    }
  }

  lemma {:induction false} InsertGroup<T>(x: T, s: seq<T>, key: T -> real, k: real)
    requires Ordered(s, key)
    ensures Group(Insert(x, s, key), key, k) == Group([x] + s, key, k)
  {
    assert ([x] + s)[1..] == s;
    if s != [] && key(x) > key(s[0]) {
      var r := Insert(x, s[1..], key);
      assert ([s[0]] + r)[1..] == r;
      InsertGroup(x, s[1..], key, k);
      assert ([x] + s[1..])[1..] == s[1..];
    }
  }

  // A permutation, ordered by the key, with equal keys left in their original order.
  lemma {:induction false} SortSound<T>(s: seq<T>, key: T -> real)
    ensures multiset(Sort(s, key)) == multiset(s)
    ensures Ordered(Sort(s, key), key)
    ensures forall k :: Group(Sort(s, key), key, k) == Group(s, key, k)
  {
    if s != [] {
      var r := Sort(s[1..], key);
      SortSound(s[1..], key);
      InsertKeeps(s[0], r, key);
      InsertOrdered(s[0], r, key);
      assert s == [s[0]] + s[1..];
      forall k
        ensures Group(Sort(s, key), key, k) == Group(s, key, k)
      {
        InsertGroup(s[0], r, key, k);
        assert ([s[0]] + r)[1..] == r;
      }
    }
  }

  lemma SortGroup<T>(s: seq<T>, key: T -> real, k: real)
    ensures Group(Sort(s, key), key, k) == Group(s, key, k)
  {
    SortSound(s, key);
  }

  lemma SortOrdered<T>(s: seq<T>, key: T -> real)
    ensures Ordered(Sort(s, key), key)
  {
    SortSound(s, key);
  }

  // Sorting what is in order already changes nothing.
  lemma {:induction false} SortFixed<T>(s: seq<T>, key: T -> real)
    requires Ordered(s, key)
    ensures Sort(s, key) == s
  {
    if s != [] {
      SortFixed(s[1..], key);
      assert s == [s[0]] + s[1..];
    }
  }

  // The head of a group is its first element.
  lemma {:induction false} GroupFirst<T>(s: seq<T>, key: T -> real, k: real, i: nat)
    requires i < |s| && key(s[i]) == k
    requires forall j | 0 <= j < i :: key(s[j]) != k
    ensures Group(s, key, k) != [] && Group(s, key, k)[0] == s[i]
  {
    if i > 0 {
      assert key(s[0]) != k;
      GroupFirst(s[1..], key, k, i - 1);
    }
  }

  lemma {:induction false} GroupLast<T>(s: seq<T>, key: T -> real, k: real, i: nat)
    requires i < |s| && key(s[i]) == k
    requires forall j | i < j < |s| :: key(s[j]) != k
    ensures var g := Group(s, key, k); g != [] && g[|g| - 1] == s[i]
  {
    if i > 0 {
      GroupLast(s[1..], key, k, i - 1);
    } else {
      GroupNone(s[1..], key, k);
    }
  }

  lemma {:induction false} GroupNone<T>(s: seq<T>, key: T -> real, k: real)
    requires forall j | 0 <= j < |s| :: key(s[j]) != k
    ensures Group(s, key, k) == []
  {
    if s != [] {
      GroupNone(s[1..], key, k);
    }
  }
}
