/** Python's sorted() with a key, and what it keeps. */
module Sorting {
  import opened Base

  function InsertBy(xs: seq<nat>, x: nat, key: nat -> int): seq<nat> {
    if xs != [] && key(xs[|xs| - 1]) > key(x) then InsertBy(xs[..|xs| - 1], x, key) + [xs[|xs| - 1]]
    else xs + [x]
  }

  /** Stable sort: equal keys keep their order. */
  function SortBy(xs: seq<nat>, key: nat -> int): seq<nat> {
    if xs == [] then [] else InsertBy(SortBy(xs[..|xs| - 1], key), xs[|xs| - 1], key)
  }

  ghost predicate Ordered(xs: seq<nat>, key: nat -> int) {
    forall i, j :: 0 <= i < j < |xs| ==> key(xs[i]) <= key(xs[j])
  }

  lemma {:induction false} InsertByMembers(xs: seq<nat>, x: nat, key: nat -> int)
    ensures multiset(InsertBy(xs, x, key)) == multiset(xs) + multiset{x}
  {
    if xs != [] && key(xs[|xs| - 1]) > key(x) {
      var n := |xs| - 1;
      InsertByMembers(xs[..n], x, key);
      assert xs == xs[..n] + [xs[n]];
    }
  }

  /** Every key of the result is that of a member or of the new element. */
  lemma {:induction false} InsertByBelow(xs: seq<nat>, x: nat, key: nat -> int, top: int)
    requires key(x) <= top && forall i :: 0 <= i < |xs| ==> key(xs[i]) <= top
    ensures forall i :: 0 <= i < |InsertBy(xs, x, key)| ==> key(InsertBy(xs, x, key)[i]) <= top
  {
    if xs != [] && key(xs[|xs| - 1]) > key(x) {
      InsertByBelow(xs[..|xs| - 1], x, key, top);
    }
  }

  lemma OrderedSnoc(xs: seq<nat>, x: nat, key: nat -> int)
    requires Ordered(xs, key) && forall i :: 0 <= i < |xs| ==> key(xs[i]) <= key(x)
    ensures Ordered(xs + [x], key)
  {
  }

  lemma {:induction false} InsertByOrdered(xs: seq<nat>, x: nat, key: nat -> int)
    requires Ordered(xs, key)
    ensures Ordered(InsertBy(xs, x, key), key)
  {
    if xs != [] && key(xs[|xs| - 1]) > key(x) {
      var n := |xs| - 1;
      InsertByOrdered(xs[..n], x, key);
      InsertByBelow(xs[..n], x, key, key(xs[n]));
      OrderedSnoc(InsertBy(xs[..n], x, key), xs[n], key);
    } else {
      OrderedSnoc(xs, x, key);
    }
  }

  /** The result of sorting is ordered and has the same members. */
  lemma {:induction false} SortByFacts(xs: seq<nat>, key: nat -> int)
    ensures multiset(SortBy(xs, key)) == multiset(xs)
    ensures Ordered(SortBy(xs, key), key)
  {
    if xs != [] {
      var n := |xs| - 1;
      SortByFacts(xs[..n], key);
      InsertByMembers(SortBy(xs[..n], key), xs[n], key);
      InsertByOrdered(SortBy(xs[..n], key), xs[n], key);
      assert xs == xs[..n] + [xs[n]];
    }
  }

  // ----- stability -----

  /** The members with key k, in order. */
  ghost function WithKey(xs: seq<nat>, key: nat -> int, k: int): seq<nat> {
    if xs == [] then []
    else WithKey(xs[..|xs| - 1], key, k) + if key(xs[|xs| - 1]) == k then [xs[|xs| - 1]] else []
  }

  lemma WithKeySnoc(xs: seq<nat>, x: nat, key: nat -> int, k: int)
    ensures WithKey(xs + [x], key, k) == WithKey(xs, key, k) + if key(x) == k then [x] else []
  {
    assert (xs + [x])[..|xs|] == xs;
  }

  /** Two elements with different keys may change places. */
  lemma WithKeySwap(xs: seq<nat>, x: nat, y: nat, key: nat -> int, k: int)
    requires key(x) != key(y)
    ensures WithKey(xs + [x] + [y], key, k) == WithKey(xs + [y] + [x], key, k)
  {
    WithKeySnoc(xs, x, key, k);
    WithKeySnoc(xs, y, key, k);
    WithKeySnoc(xs + [x], y, key, k);
    WithKeySnoc(xs + [y], x, key, k);
  }

  lemma {:induction false} InsertByStable(xs: seq<nat>, x: nat, key: nat -> int, k: int)
    ensures WithKey(InsertBy(xs, x, key), key, k) == WithKey(xs + [x], key, k)
  {
    if xs != [] && key(xs[|xs| - 1]) > key(x) {
      var front, y := xs[..|xs| - 1], xs[|xs| - 1];
      InsertByStable(front, x, key, k);
      WithKeySnoc(InsertBy(front, x, key), y, key, k);
      WithKeySnoc(front + [x], y, key, k);
      WithKeySwap(front, x, y, key, k);
      assert front + [y] == xs;
    }
  }

  lemma {:induction false} SortByStable(xs: seq<nat>, key: nat -> int, k: int)
    ensures WithKey(SortBy(xs, key), key, k) == WithKey(xs, key, k)
  {
    if xs != [] {
      var n := |xs| - 1;
      var front := SortBy(xs[..n], key);
      SortByStable(xs[..n], key, k);
      InsertByStable(front, xs[n], key, k);
      WithKeySnoc(front, xs[n], key, k);
    }
  }

  /** ys is what sorted() makes of xs: the same members, ordered, equal keys in their old order. */
  ghost predicate SortedCopy(xs: seq<nat>, ys: seq<nat>, key: nat -> int) {
    && multiset(ys) == multiset(xs) && Ordered(ys, key)
    && forall k :: WithKey(ys, key, k) == WithKey(xs, key, k)
  }

  lemma SortBySorts(xs: seq<nat>, key: nat -> int)
    ensures SortedCopy(xs, SortBy(xs, key), key)
  {
    SortByFacts(xs, key);
    forall k
      ensures WithKey(SortBy(xs, key), key, k) == WithKey(xs, key, k)
    {
      SortByStable(xs, key, k);
    }
  }

  lemma SameMembers<T>(a: seq<T>, b: seq<T>)
    requires multiset(a) == multiset(b)
    ensures forall x :: x in a <==> x in b
    ensures NoDup(a) ==> NoDup(b)
  {
    forall x
      ensures x in a <==> x in b
    {
      assert x in a <==> x in multiset(a);
      assert x in b <==> x in multiset(b);
    }
    if NoDup(a) {
      forall i, j | 0 <= i < j < |b|
        ensures b[i] != b[j]
      {
        if b[i] == b[j] {
          Twice(b, i, j);
          AtMostOnce(a, b[i]);
          assert false;
        }
      }
    }
  }

  lemma Twice<T>(b: seq<T>, i: nat, j: nat)
    requires i < j < |b| && b[i] == b[j]
    ensures multiset(b)[b[i]] >= 2
  {
    assert b == b[..j] + [b[j]] + b[j + 1..];
    assert b[i] in b[..j];
  }

  lemma {:induction false} AtMostOnce<T>(a: seq<T>, x: T)
    requires NoDup(a)
    ensures multiset(a)[x] <= 1
  {
    if a != [] {
      var n := |a| - 1;
      assert a == a[..n] + [a[n]];
      assert NoDup(a[..n]) by {
        forall i, j | 0 <= i < j < n
          ensures a[..n][i] != a[..n][j]
        {
          assert a[i] != a[j];
        }
      }
      AtMostOnce(a[..n], x);
      if a[n] == x {
        assert x !in a[..n];
      }
    }
  }
}
