/** The graph that the trace converter builds from untrusted span and parent ids,
    and why everything it can reach from the root list is a forest.

    Spans are numbered by their position in the input list.  Nothing is assumed of
    the ids: they may repeat, dangle, name the span itself or form cycles. */
module SpanForest {
  import opened Base
  import opened Chains

  /** What the tree builder reads of a span.  `parent` is "" when the field is absent. */
  datatype Key = Key(id: string, parent: string, request: bool)

  /** The span an id stands for: the last one listed under it. */
  function LastWithId(keys: seq<Key>, id: string): (r: Option<nat>)
    ensures r.Some? ==> r.value < |keys|
  {
    if keys == [] then None
    else if keys[|keys| - 1].id == id then Some(|keys| - 1)
    else LastWithId(keys[..|keys| - 1], id)
  }

  lemma {:induction false} LastWithIdMeans(keys: seq<Key>, id: string)
    ensures LastWithId(keys, id).None? <==> forall i :: 0 <= i < |keys| ==> keys[i].id != id
    ensures LastWithId(keys, id).Some? ==>
      var m := LastWithId(keys, id).value;
      keys[m].id == id && forall i :: m < i < |keys| ==> keys[i].id != id
  {
    if keys != [] && keys[|keys| - 1].id != id {
      LastWithIdMeans(keys[..|keys| - 1], id);
    }
  }

  /** The span whose child list receives span k.  Request spans go to the root list instead. */
  function ParentOf(keys: seq<Key>, k: nat): (r: Option<nat>)
    requires k < |keys|
    ensures r.Some? ==> r.value < |keys| && !keys[k].request
  {
    if keys[k].request then None else LastWithId(keys, keys[k].parent)
  }

  function ParentLinks(keys: seq<Key>): (g: Links)
    ensures |g| == |keys| && Closed(g)
    ensures forall k :: 0 <= k < |keys| ==> g[k] == ParentOf(keys, k)
  {
    seq(|keys|, k requires 0 <= k < |keys| => ParentOf(keys, k))
  }

  /** Members of the first n spans that name p as parent, in input order. */
  function Kids(g: Links, p: nat, n: nat): (ks: seq<nat>)
    requires n <= |g|
    ensures forall k: nat {:trigger k in ks} :: k in ks <==> k < n && g[k] == Some(p)
  {
    if n == 0 then []
    else if g[n - 1] == Some(p) then Kids(g, p, n - 1) + [n - 1]
    else Kids(g, p, n - 1)
  }

  /** The request spans among the first n, in input order. */
  function Roots(keys: seq<Key>, n: nat): (rs: seq<nat>)
    requires n <= |keys|
    ensures forall k: nat {:trigger k in rs} :: k in rs <==> k < n && keys[k].request
  {
    if n == 0 then []
    else if keys[n - 1].request then Roots(keys, n - 1) + [n - 1]
    else Roots(keys, n - 1)
  }

  lemma {:induction false} KidsNoDup(g: Links, p: nat, n: nat)
    requires n <= |g|
    ensures NoDup(Kids(g, p, n))
  {
    if n != 0 {
      KidsNoDup(g, p, n - 1);
      assert n - 1 !in Kids(g, p, n - 1);
    }
  }

  lemma {:induction false} RootsNoDup(keys: seq<Key>, n: nat)
    requires n <= |keys|
    ensures NoDup(Roots(keys, n))
  {
    if n != 0 {
      RootsNoDup(keys, n - 1);
      assert n - 1 !in Roots(keys, n - 1);
    }
  }

  // ----- paths along child edges -----

  /** A walk that starts at a root and goes from parent to child. */
  ghost predicate RootedPath(keys: seq<Key>, p: seq<nat>) {
    && p != []
    && (forall i :: 0 <= i < |p| ==> p[i] < |keys|)
    && keys[p[0]].request
    && forall i :: 0 < i < |p| ==> ParentOf(keys, p[i]) == Some(p[i - 1])
  }

  lemma {:induction false} PathIsChain(keys: seq<Key>, p: seq<nat>, j: nat)
    requires RootedPath(keys, p) && j < |p|
    ensures Follow(ParentLinks(keys), p[|p| - 1], j) == Some(p[|p| - 1 - j])
    decreases |p|
  {
    var g := ParentLinks(keys);
    if j != 0 {
      var q := p[..|p| - 1];
      PathIsChain(keys, q, j - 1);
      assert ParentOf(keys, p[|p| - 1]) == Some(p[|p| - 2]);
      assert g[p[|p| - 1]] == Some(q[|q| - 1]);
    }
  }

  lemma PathLength(keys: seq<Key>, p: seq<nat>)
    requires RootedPath(keys, p)
    ensures Grounded(ParentLinks(keys), p[|p| - 1], |p| - 1)
  {
    var g := ParentLinks(keys);
    PathIsChain(keys, p, |p| - 1);
    assert Grounded(g, p[0], 0);
    GroundedVia(g, p[|p| - 1], |p| - 1, 0);
  }

  /** Forest property: a span is reached from the root list along one path only.
      So it has one parent, lies below one root, and no reachable walk closes a cycle. */
  lemma UniquePath(keys: seq<Key>, p: seq<nat>, q: seq<nat>)
    requires RootedPath(keys, p) && RootedPath(keys, q)
    requires p[|p| - 1] == q[|q| - 1]
    ensures p == q
  {
    var g, x := ParentLinks(keys), p[|p| - 1];
    PathLength(keys, p);
    PathLength(keys, q);
    GroundedUnique(g, x, |p| - 1, |q| - 1);
    forall i | 0 <= i < |p|
      ensures p[i] == q[i]
    {
      PathIsChain(keys, p, |p| - 1 - i);
      PathIsChain(keys, q, |p| - 1 - i);
    }
  }

  /** No span occurs twice on a walk from a root, so recursion along child lists is bounded
      by the number of spans. */
  lemma PathVisitsOnce(keys: seq<Key>, p: seq<nat>)
    requires RootedPath(keys, p)
    ensures NoDup(p)
  {
    forall i, j | 0 <= i < j < |p|
      ensures p[i] != p[j]
    {
      if p[i] == p[j] {
        assert RootedPath(keys, p[..i + 1]) && RootedPath(keys, p[..j + 1]);
        UniquePath(keys, p[..i + 1], p[..j + 1]);
        assert false;
      }
    }
  }

  // ----- subtrees -----

  /** x is s or lies below s. */
  ghost predicate Below(g: Links, x: nat, s: nat)
    requires Closed(g)
  {
    x < |g| && exists k: nat :: Follow(g, x, k) == Some(s)
  }

  /** x lies in the subtree of one of the spans ss. */
  ghost predicate BelowAny(g: Links, x: nat, ss: seq<nat>)
    requires Closed(g)
  {
    exists c: nat :: c in ss && Below(g, x, c)
  }

  ghost predicate AtDepth(g: Links, ss: seq<nat>, d: nat)
    requires Closed(g)
  {
    forall k :: 0 <= k < |ss| ==> ss[k] < |g| && Grounded(g, ss[k], d)
  }

  ghost predicate AsDeepAs(g: Links, x: nat, d: nat)
    requires Closed(g)
  {
    x < |g| && exists e: nat :: d <= e && Grounded(g, x, e)
  }

  /** Spans whose parent chain ends after at least d links. */
  ghost function Deeper(g: Links, d: nat): set<nat>
    requires Closed(g)
  {
    set x: nat | x < |g| && AsDeepAs(g, x, d)
  }

  lemma DeeperShrinks(g: Links, s: nat, d: nat)
    requires Closed(g) && s < |g| && Grounded(g, s, d)
    ensures Deeper(g, d + 1) < Deeper(g, d)
  {
    assert s in Deeper(g, d);
    if s in Deeper(g, d + 1) {
      var e: nat :| d + 1 <= e && Grounded(g, s, e);
      GroundedUnique(g, s, d, e);
      assert false;
    }
  }

  lemma {:induction false} KidsAtDepth(g: Links, s: nat, d: nat)
    requires Closed(g) && s < |g| && Grounded(g, s, d)
    ensures AtDepth(g, Kids(g, s, |g|), d + 1)
  {
    var ks := Kids(g, s, |g|);
    forall k | 0 <= k < |ks|
      ensures ks[k] < |g| && Grounded(g, ks[k], d + 1)
    {
      assert ks[k] in ks;
    }
  }

  /** Preorder listing of the subtree of s, the order in which the recursive passes visit it.
      The subtree is finite although the graph may hold cycles elsewhere: each level drops
      spans from `Deeper`. */
  ghost function Preorder(g: Links, s: nat, d: nat): seq<nat>
    requires Closed(g) && s < |g| && Grounded(g, s, d)
    decreases Deeper(g, d), 0
  {
    DeeperShrinks(g, s, d);
    KidsAtDepth(g, s, d);
    [s] + PreorderAll(g, Kids(g, s, |g|), d + 1)
  }

  /** The listings of the spans ss, one after the other. */
  ghost function PreorderAll(g: Links, ss: seq<nat>, d: nat): seq<nat>
    requires Closed(g) && AtDepth(g, ss, d)
    decreases Deeper(g, d), 1 + |ss|
  {
    if ss == [] then [] else PreorderAll(g, ss[..|ss| - 1], d) + Preorder(g, ss[|ss| - 1], d)
  }

  lemma {:induction false} BelowStep(g: Links, x: nat, s: nat)
    requires Closed(g) && s < |g|
    ensures Below(g, x, s) <==> x == s || BelowAny(g, x, Kids(g, s, |g|))
  {
    if Below(g, x, s) && x != s {
      var k: nat :| Follow(g, x, k) == Some(s);
      BelowChild(g, x, s, k);
    }
    if c: nat :| c in Kids(g, s, |g|) && Below(g, x, c) {
      var k: nat :| Follow(g, x, k) == Some(c);
      FollowPlus(g, x, k, 1);
      assert Follow(g, c, 1) == Some(s);
      assert Follow(g, x, k + 1) == Some(s);
    }
    if x == s {
      assert Follow(g, x, 0) == Some(s);
    }
  }

  lemma {:induction false} BelowChild(g: Links, x: nat, s: nat, k: nat)
    requires Closed(g) && s < |g| && x < |g|
    requires Follow(g, x, k) == Some(s) && x != s
    ensures BelowAny(g, x, Kids(g, s, |g|))
  {
    assert k != 0;
    FollowDefined(g, x, k, k - 1);
    var c := Follow(g, x, k - 1).value;
    FollowPlus(g, x, k - 1, 1);
    assert Follow(g, c, 1) == Some(s);
    assert g[c] == Some(s) && Below(g, x, c);
  }

  lemma {:induction false} FollowDefined(g: Links, x: nat, k: nat, j: nat)
    requires Closed(g) && x < |g|
    requires Follow(g, x, k).Some? && j <= k
    ensures Follow(g, x, j).Some?
    decreases k
  {
    if j != 0 {
      FollowDefined(g, g[x].value, k - 1, j - 1);
    }
  }

  /** The listing of a subtree holds exactly the spans below its top. */
  lemma {:induction false} PreorderMembers(g: Links, s: nat, d: nat, x: nat)
    requires Closed(g) && s < |g| && Grounded(g, s, d)
    ensures x in Preorder(g, s, d) <==> Below(g, x, s)
    decreases Deeper(g, d), 0
  {
    DeeperShrinks(g, s, d);
    KidsAtDepth(g, s, d);
    PreorderAllMembers(g, Kids(g, s, |g|), d + 1, x);
    BelowStep(g, x, s);
  }

  lemma {:induction false} PreorderAllMembers(g: Links, ss: seq<nat>, d: nat, x: nat)
    requires Closed(g) && AtDepth(g, ss, d)
    ensures x in PreorderAll(g, ss, d) <==> BelowAny(g, x, ss)
    decreases Deeper(g, d), 1 + |ss|
  {
    if ss != [] {
      var n := |ss| - 1;
      PreorderMembers(g, ss[n], d, x);
      PreorderAllMembers(g, ss[..n], d, x);
      assert ss == ss[..n] + [ss[n]];
      assert forall c :: c in ss <==> c in ss[..n] || c == ss[n];
    }
  }

  /** Spans of equal depth share no descendant. */
  lemma DisjointBelow(g: Links, x: nat, a: nat, b: nat, d: nat)
    requires Closed(g) && a < |g| && b < |g|
    requires Grounded(g, a, d) && Grounded(g, b, d)
    requires Below(g, x, a) && Below(g, x, b)
    ensures a == b
  {
    var i: nat :| Follow(g, x, i) == Some(a);
    var j: nat :| Follow(g, x, j) == Some(b);
    GroundedVia(g, x, i, d);
    GroundedVia(g, x, j, d);
    GroundedUnique(g, x, i + d, j + d);
  }

  lemma {:induction false} NotBelowDeeper(g: Links, s: nat, c: nat, d: nat)
    requires Closed(g) && s < |g| && c < |g|
    requires Grounded(g, s, d) && Grounded(g, c, d + 1)
    ensures !Below(g, s, c)
  {
    if Below(g, s, c) {
      var k: nat :| Follow(g, s, k) == Some(c);
      GroundedVia(g, s, k, d + 1);
      GroundedUnique(g, s, d, k + d + 1);
      assert false;
    }
  }

  lemma {:induction false} NotBelowItself(g: Links, s: nat, d: nat)
    requires Closed(g) && s < |g| && Grounded(g, s, d)
    ensures AtDepth(g, Kids(g, s, |g|), d + 1)
    ensures s !in PreorderAll(g, Kids(g, s, |g|), d + 1)
  {
    KidsAtDepth(g, s, d);
    var ks := Kids(g, s, |g|);
    PreorderAllMembers(g, ks, d + 1, s);
    forall c: nat | c in ks
      ensures !Below(g, s, c)
    {
      NotBelowDeeper(g, s, c, d);
    }
  }

  /** No span is listed twice: each is visited once by a recursive pass. */
  lemma {:induction false} PreorderNoDup(g: Links, s: nat, d: nat)
    requires Closed(g) && s < |g| && Grounded(g, s, d)
    ensures NoDup(Preorder(g, s, d))
    decreases Deeper(g, d), 1
  {
    KidsPreorderNoDup(g, s, d);
    NotBelowItself(g, s, d);
    NoDupCons(s, PreorderAll(g, Kids(g, s, |g|), d + 1));
  }

  lemma {:induction false} KidsPreorderNoDup(g: Links, s: nat, d: nat)
    requires Closed(g) && s < |g| && Grounded(g, s, d)
    ensures AtDepth(g, Kids(g, s, |g|), d + 1)
    ensures NoDup(PreorderAll(g, Kids(g, s, |g|), d + 1))
    decreases Deeper(g, d), 0
  {
    DeeperShrinks(g, s, d);
    KidsAtDepth(g, s, d);
    KidsNoDup(g, s, |g|);
    PreorderAllNoDup(g, Kids(g, s, |g|), d + 1);
  }

  lemma {:induction false} PreorderAllNoDup(g: Links, ss: seq<nat>, d: nat)
    requires Closed(g) && NoDup(ss) && AtDepth(g, ss, d)
    ensures NoDup(PreorderAll(g, ss, d))
    decreases Deeper(g, d), 2 + |ss|
  {
    if ss != [] {
      var n := |ss| - 1;
      PreorderNoDup(g, ss[n], d);
      PreorderAllNoDup(g, ss[..n], d);
      forall x | x in PreorderAll(g, ss[..n], d)
        ensures x !in Preorder(g, ss[n], d)
      {
        PreorderMembers(g, ss[n], d, x);
        PreorderAllMembers(g, ss[..n], d, x);
        if Below(g, x, ss[n]) {
          var c: nat :| c in ss[..n] && Below(g, x, c);
          DisjointBelow(g, x, ss[n], c, d);
          assert false;
        }
      }
      NoDupConcat(PreorderAll(g, ss[..n], d), Preorder(g, ss[n], d));
    }
  }

  // ----- subtrees as sets -----

  ghost function BelowSet(g: Links, s: nat): set<nat>
    requires Closed(g)
  {
    set x: nat | x < |g| && Below(g, x, s)
  }

  ghost function BelowSets(g: Links, ss: seq<nat>): set<nat>
    requires Closed(g)
  {
    if ss == [] then {} else BelowSets(g, ss[..|ss| - 1]) + BelowSet(g, ss[|ss| - 1])
  }

  lemma {:induction false} BelowSetsMembers(g: Links, ss: seq<nat>, x: nat)
    requires Closed(g)
    ensures x in BelowSets(g, ss) <==> BelowAny(g, x, ss)
  {
    if ss != [] {
      var n := |ss| - 1;
      BelowSetsMembers(g, ss[..n], x);
      assert ss == ss[..n] + [ss[n]];
      assert forall c :: c in ss <==> c in ss[..n] || c == ss[n];
    }
  }

  lemma BelowSetsStep(g: Links, ss: seq<nat>, k: nat)
    requires Closed(g) && k < |ss|
    ensures BelowSets(g, ss[..k + 1]) == BelowSets(g, ss[..k]) + BelowSet(g, ss[k])
  {
    assert ss[..k + 1][..k] == ss[..k];
  }

  /** A subtree is its top span and the subtrees of the child list. */
  lemma BelowSetSplit(g: Links, s: nat)
    requires Closed(g) && s < |g|
    ensures BelowSet(g, s) == {s} + BelowSets(g, Kids(g, s, |g|))
  {
    forall x: nat
      ensures x in BelowSet(g, s) <==> x in {s} + BelowSets(g, Kids(g, s, |g|))
    {
      BelowStep(g, x, s);
      BelowSetsMembers(g, Kids(g, s, |g|), x);
    }
  }

  /** The subtree of the next listed span is disjoint from the subtrees already walked. */
  lemma BelowSetsFresh(g: Links, ss: seq<nat>, k: nat, d: nat)
    requires Closed(g) && k < |ss|
    requires NoDup(ss) && AtDepth(g, ss, d)
    ensures BelowSets(g, ss[..k]) !! BelowSet(g, ss[k])
  {
    forall x: nat | x in BelowSets(g, ss[..k]) && x in BelowSet(g, ss[k])
      ensures false
    {
      BelowSetsMembers(g, ss[..k], x);
      var c: nat :| c in ss[..k] && Below(g, x, c);
      DisjointBelow(g, x, c, ss[k], d);
    }
  }

  ghost function NumKids(g: Links, p: nat): nat {
    |Kids(g, p, |g|)|
  }

  ghost function Kid(g: Links, p: nat, k: nat): (c: nat)
    requires k < NumKids(g, p)
    ensures c < |g| && g[c] == Some(p)
  {
    assert Kids(g, p, |g|)[k] in Kids(g, p, |g|);
    Kids(g, p, |g|)[k]
  }

  /** The part of the subtree of p that a pass has covered after p itself and k children. */
  ghost function Walked(g: Links, p: nat, k: nat): set<nat>
    requires Closed(g) && p < |g| && k <= NumKids(g, p)
  {
    {p} + BelowSets(g, Kids(g, p, |g|)[..k])
  }

  lemma WalkedEnds(g: Links, p: nat)
    requires Closed(g) && p < |g|
    ensures Walked(g, p, 0) == {p}
    ensures Walked(g, p, NumKids(g, p)) == BelowSet(g, p)
  {
    var ks := Kids(g, p, |g|);
    assert ks[..0] == [] && ks[..|ks|] == ks;
    BelowSetSplit(g, p);
  }

  /** The next child adds its whole subtree, none of which was covered before. */
  lemma WalkedStep(g: Links, p: nat, d: nat, k: nat)
    requires Closed(g) && p < |g| && Grounded(g, p, d) && k < NumKids(g, p)
    ensures Grounded(g, Kid(g, p, k), d + 1)
    ensures Walked(g, p, k) !! BelowSet(g, Kid(g, p, k))
    ensures Walked(g, p, k + 1) == Walked(g, p, k) + BelowSet(g, Kid(g, p, k))
    ensures BelowSet(g, Kid(g, p, k)) <= BelowSet(g, p)
    ensures Deeper(g, d + 1) < Deeper(g, d)
  {
    var ks := Kids(g, p, |g|);
    KidsAtDepth(g, p, d);
    KidsNoDup(g, p, |g|);
    DeeperShrinks(g, p, d);
    BelowSetsStep(g, ks, k);
    BelowSetsFresh(g, ks, k, d + 1);
    NotBelowDeeper(g, p, ks[k], d);
    forall x: nat | Below(g, x, ks[k])
      ensures Below(g, x, p)
    {
      assert ks[k] in ks;
      BelowStep(g, x, p);
    }
  }

  // ----- levels of the forest -----

  /** The children of the spans ps, list by list. */
  function KidsOf(g: Links, ps: seq<nat>): seq<nat> {
    if ps == [] then [] else KidsOf(g, ps[..|ps| - 1]) + Kids(g, ps[|ps| - 1], |g|)
  }

  lemma {:induction false} KidsOfMembers(g: Links, ps: seq<nat>, k: nat)
    ensures k in KidsOf(g, ps) <==> k < |g| && g[k].Some? && g[k].value in ps
  {
    if ps != [] {
      KidsOfMembers(g, ps[..|ps| - 1], k);
      assert ps == ps[..|ps| - 1] + [ps[|ps| - 1]];
      assert k in Kids(g, ps[|ps| - 1], |g|) <==> k < |g| && g[k] == Some(ps[|ps| - 1]);
    }
  }

  lemma {:induction false} KidsOfConcat(g: Links, ps: seq<nat>, qs: seq<nat>)
    ensures KidsOf(g, ps + qs) == KidsOf(g, ps) + KidsOf(g, qs)
  {
    if qs == [] {
      assert ps + qs == ps;
    } else {
      KidsOfConcat(g, ps, qs[..|qs| - 1]);
      assert (ps + qs)[..|ps + qs| - 1] == ps + qs[..|qs| - 1];
    }
  }

  lemma {:induction false} KidsOfNoDup(g: Links, ps: seq<nat>)
    requires NoDup(ps)
    ensures NoDup(KidsOf(g, ps))
  {
    if ps != [] {
      var q, last := ps[..|ps| - 1], ps[|ps| - 1];
      KidsOfNoDup(g, q);
      KidsNoDup(g, last, |g|);
      forall k: nat | k in KidsOf(g, q)
        ensures k !in Kids(g, last, |g|)
      {
        KidsOfMembers(g, q, k);
      }
      NoDupConcat(KidsOf(g, q), Kids(g, last, |g|));
    }
  }

  lemma KidsOfAtDepth(g: Links, ps: seq<nat>, d: nat)
    requires Closed(g) && AtDepth(g, ps, d)
    ensures AtDepth(g, KidsOf(g, ps), d + 1)
  {
    var ks := KidsOf(g, ps);
    forall k | 0 <= k < |ks|
      ensures ks[k] < |g| && Grounded(g, ks[k], d + 1)
    {
      assert ks[k] in ks;
      KidsOfMembers(g, ps, ks[k]);
    }
  }

  // ----- the thread span and the request a span belongs to -----

  /** The number of child edges above a span that lies in the forest. */
  ghost function DepthOf(g: Links, x: nat): (d: nat)
    requires Closed(g) && x < |g| && exists d: nat :: Grounded(g, x, d)
    ensures Grounded(g, x, d)
  {
    var d: nat :| Grounded(g, x, d); d
  }

  /** The span two edges below a request under which x lies has `thread` as its parent and
      `root` as its grandparent: both are functions of x alone. */
  lemma OwnersOf(g: Links, x: nat, top: nat, thread: nat, root: nat)
    requires Closed(g) && top < |g| && thread < |g| && root < |g|
    requires g[top] == Some(thread) && g[thread] == Some(root) && g[root].None?
    requires Below(g, x, top)
    ensures exists d: nat :: Grounded(g, x, d)
    ensures var d := DepthOf(g, x);
            && d >= 2
            && Follow(g, x, d - 1) == Some(thread)
            && Follow(g, x, d) == Some(root)
  {
    var k: nat :| Follow(g, x, k) == Some(top);
    assert Grounded(g, top, 2) by {
      assert Grounded(g, root, 0);
      assert Grounded(g, thread, 1);
    }
    GroundedVia(g, x, k, 2);
    GroundedUnique(g, x, k + 2, DepthOf(g, x));
    FollowPlus(g, x, k, 1);
    FollowPlus(g, x, k, 2);
    assert Follow(g, thread, 1) == Some(root);
  }
}
