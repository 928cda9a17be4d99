/** Work items that move between queues: each owner has one place, and each queue lists the
    owners of its place. */
module Queueing {
  import opened Base

  function RemoveAt<T>(s: seq<T>, i: nat): seq<T>
    requires i < |s|
  {
    s[..i] + s[i + 1..]
  }

  /** The queue holds exactly the owners whose place is p, each once. */
  ghost predicate Located<P>(ids: seq<nat>, place: seq<P>, p: P) {
    && NoDup(ids)
    && (forall i :: 0 <= i < |ids| ==> ids[i] < |place| && place[ids[i]] == p)
    && (forall c: nat :: c < |place| && place[c] == p ==> c in ids)
  }

  lemma LocatedRemove<P>(ids: seq<nat>, place: seq<P>, p: P, i: nat, p': P)
    requires Located(ids, place, p) && i < |ids| && p' != p
    ensures Located(RemoveAt(ids, i), place[ids[i] := p'], p)
  {
    var rest, place' := RemoveAt(ids, i), place[ids[i] := p'];
    forall k | 0 <= k < |rest|
      ensures rest[k] < |place'| && place'[rest[k]] == p
    {
      assert rest[k] == if k < i then ids[k] else ids[k + 1];
    }
    forall c: nat | c < |place'| && place'[c] == p
      ensures c in rest
    {
      assert c in ids && c != ids[i];
      var k :| 0 <= k < |ids| && ids[k] == c;
      assert c == if k < i then rest[k] else rest[k - 1];
    }
  }

  lemma LocatedAdd<P>(ids: seq<nat>, place: seq<P>, p: P, c: nat)
    requires Located(ids, place, p) && c < |place| && place[c] != p
    ensures Located(ids + [c], place[c := p], p)
  {
    assert c !in ids;
  }

  lemma LocatedOther<P>(ids: seq<nat>, place: seq<P>, p: P, c: nat, p': P)
    requires Located(ids, place, p) && c < |place| && place[c] != p && p' != p
    ensures Located(ids, place[c := p'], p)
  {
  }

  /** Moving owner c from queue `from` at index i to the end of queue `to`. */
  lemma LocatedMove<P>(from: seq<nat>, to: seq<nat>, place: seq<P>, p: P, q: P, i: nat)
    requires Located(from, place, p) && Located(to, place, q) && p != q && i < |from|
    ensures Located(RemoveAt(from, i), place[from[i] := q], p)
    ensures Located(to + [from[i]], place[from[i] := q], q)
  {
    LocatedRemove(from, place, p, i, q);
    LocatedAdd(to, place, q, from[i]);
  }

  /** Distinct values of a finite set are at most as many as the set. */
  lemma {:induction false} DistinctSize(ids: seq<nat>, all: set<nat>)
    requires NoDup(ids)
    requires forall i :: 0 <= i < |ids| ==> ids[i] in all
    ensures |ids| <= |all|
  {
    if ids != [] {
      var rest := ids[1..];
      forall i | 0 <= i < |rest|
        ensures rest[i] in all - {ids[0]}
      {
        assert rest[i] == ids[i + 1];
      }
      DistinctSize(rest, all - {ids[0]});
    }
  }

  lemma {:induction false} UpToSize(n: nat)
    ensures |UpTo(n)| == n
  {
    if n > 0 {
      UpToSize(n - 1);
    }
  }

  /** A queue of distinct owners below n that leaves one of them out has fewer than n entries. */
  lemma RoomFor(ids: seq<nat>, n: nat, c: nat)
    requires NoDup(ids) && c < n && c !in ids
    requires forall i :: 0 <= i < |ids| ==> ids[i] < n
    ensures |ids| < n
  {
    assert forall i :: 0 <= i < |ids| ==> ids[i] in ids;
    DistinctSize(ids, UpTo(n) - {c});
    UpToSize(n);
  }
}
