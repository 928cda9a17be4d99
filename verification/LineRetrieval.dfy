/** The line-retrieval generator: lines that redirect to other lines, the walk that finds the
    final value of each line, and the hop groups built from it. */
module LineRetrieval {
  import opened Base
  import opened Chains

  /** The chain of redirects from line i never reaches a line without redirect. */
  ghost predicate Ring(g: Links, i: nat)
    requires Closed(g) && i < |g|
  {
    forall d: nat :: !Grounded(g, i, d)
  }

  /** The lines visited after i on a chain of d redirects. */
  ghost function Path(g: Links, i: nat, d: nat): (p: seq<nat>)
    requires Closed(g) && i < |g| && Grounded(g, i, d)
    ensures |p| == d
    decreases d
  {
    if d == 0 then [] else [g[i].value] + Path(g, g[i].value, d - 1)
  }

  lemma {:induction false} PathAt(g: Links, i: nat, d: nat, k: nat)
    requires Closed(g) && i < |g| && Grounded(g, i, d) && k < d
    ensures Follow(g, i, k + 1) == Some(Path(g, i, d)[k])
    decreases d
  {
    if k != 0 {
      PathAt(g, g[i].value, d - 1, k - 1);
    }
  }

  ghost function Terminal(g: Links, i: nat, d: nat): (t: nat)
    requires Closed(g) && i < |g| && Grounded(g, i, d)
    ensures t < |g| && g[t].None?
  {
    FollowGrounded(g, i, d, d);
    Follow(g, i, d).value
  }

  lemma OnPath(g: Links, i: nat, d: nat, a: nat)
    requires Closed(g) && i < |g| && Grounded(g, i, d) && a <= d
    ensures Follow(g, i, a) == Some(([i] + Path(g, i, d))[a])
  {
    if a != 0 {
      PathAt(g, i, d, a - 1);
    }
  }

  lemma {:induction false} PathDistinct(g: Links, i: nat, d: nat, a: nat, b: nat)
    requires Closed(g) && i < |g| && Grounded(g, i, d) && a < b <= d
    ensures Follow(g, i, a) != Follow(g, i, b)
  {
    FollowGrounded(g, i, d, a);
    if Follow(g, i, a) == Follow(g, i, b) {
      RevisitNeverEnds(g, i, a, b);
      assert false;
    }
  }

  /** A resolvable line and its path contain no line twice. */
  lemma {:induction false} PathNoDup(g: Links, i: nat, d: nat)
    requires Closed(g) && i < |g| && Grounded(g, i, d)
    ensures NoDup([i] + Path(g, i, d))
  {
    var p := [i] + Path(g, i, d);
    forall a, b | 0 <= a < b < |p|
      ensures p[a] != p[b]
    {
      OnPath(g, i, d, a);
      OnPath(g, i, d, b);
      PathDistinct(g, i, d, a, b);
    }
  }

  /** The first k + 1 nodes of the chain from i. */
  ghost predicate WalkedTo(g: Links, i: nat, link: seq<nat>, cur: nat)
    requires Closed(g) && i < |g|
  {
    && Follow(g, i, |link|) == Some(cur)
    && forall j :: 0 <= j < |link| ==> Follow(g, i, j + 1) == Some(link[j])
  }

  ghost predicate VisitedBefore(g: Links, i: nat, k: nat, visited: set<nat>)
    requires Closed(g) && i < |g|
  {
    && (forall v :: v in visited ==> exists j: nat :: j < k && Follow(g, i, j) == Some(v))
    && (forall j: nat :: j < k ==> Follow(g, i, j).Some? && Follow(g, i, j).value in visited)
  }

  lemma WalkStep(g: Links, i: nat, link: seq<nat>, cur: nat, visited: set<nat>)
    requires Closed(g) && i < |g| && cur < |g| && g[cur].Some?
    requires WalkedTo(g, i, link, cur) && VisitedBefore(g, i, |link|, visited)
    ensures WalkedTo(g, i, link + [g[cur].value], g[cur].value)
    ensures VisitedBefore(g, i, |link| + 1, visited + {cur})
  {
    FollowPlus(g, i, |link|, 1);
    assert Follow(g, cur, 1) == Some(g[cur].value);
  }

  lemma WalkEnds(g: Links, i: nat, link: seq<nat>, cur: nat)
    requires Closed(g) && i < |g| && cur < |g| && g[cur].None? && WalkedTo(g, i, link, cur)
    ensures Grounded(g, i, |link|) && link == Path(g, i, |link|) && cur == Terminal(g, i, |link|)
  {
    GroundedVia(g, i, |link|, 0);
    forall k | 0 <= k < |link|
      ensures link[k] == Path(g, i, |link|)[k]
    {
      PathAt(g, i, |link|, k);
    }
  }

  lemma WalkRevisits(g: Links, i: nat, k: nat, visited: set<nat>, cur: nat)
    requires Closed(g) && i < |g| && VisitedBefore(g, i, k, visited) && cur in visited && Follow(g, i, k) == Some(cur)
    ensures Ring(g, i)
  {
    var j: nat :| j < k && Follow(g, i, j) == Some(cur);
    RevisitNeverEnds(g, i, j, k);
  }

  /** The inner loop: follow redirects until a plain line or a line seen before. */
  method Walk(g: Links, i: nat) returns (ring: bool, link: seq<nat>, cur: nat)
    requires Closed(g) && i < |g|
    ensures cur < |g|
    ensures ring <==> Ring(g, i)
    ensures !ring ==> Grounded(g, i, |link|) && link == Path(g, i, |link|) && cur == Terminal(g, i, |link|)
  {
    link, cur := [], i;
    var visited: set<nat> := {};
    ghost var all := UpTo(|g|);
    while g[cur].Some?
      invariant cur < |g| && cur !in visited && visited <= all
      invariant WalkedTo(g, i, link, cur) && VisitedBefore(g, i, |link|, visited)
      decreases all - visited
    {
      WalkStep(g, i, link, cur, visited);
      visited := visited + {cur};
      link := link + [g[cur].value];
      cur := g[cur].value;
      if cur in visited {
        WalkRevisits(g, i, |link|, visited, cur);
        return true, link, cur;
      }
    }
    WalkEnds(g, i, link, cur);
    ring := false;
  }

  /** What the walk records for line i, given the values before the scan. */
  ghost predicate Resolved(g: Links, was: seq<string>, i: nat, link: Option<seq<nat>>, value: string)
    requires Closed(g) && i < |g| == |was|
  {
    && (Ring(g, i) <==> link.None?)
    && forall d: nat :: Grounded(g, i, d) ==> link == Some(Path(g, i, d)) && value == was[Terminal(g, i, d)]
  }

  /** The scan over all lines.  It overwrites values while it runs; the lines it still reads
      are plain ones, which it never overwrites. */
  method ResolveRedirects(g: Links, values: array<string>) returns (links: seq<Option<seq<nat>>>, rings: set<nat>)
    requires Closed(g) && values.Length == |g|
    modifies values
    ensures |links| == |g|
    ensures forall i: nat :: i in rings <==> i < |g| && Ring(g, i)
    ensures forall i :: 0 <= i < |g| ==> Resolved(g, old(values[..]), i, links[i], values[i])
  {
    ghost var was := values[..];
    links := seq(|g|, i => Some([]));
    rings := {};
    for i := 0 to |g|
      invariant |links| == |g|
      invariant forall j :: i <= j < |g| ==> links[j] == Some([])
      invariant forall j: nat :: j in rings <==> j < i && Ring(g, j)
      invariant forall j :: 0 <= j < |g| && (g[j].None? || i <= j) ==> values[j] == was[j]
      invariant forall j :: 0 <= j < i ==> Resolved(g, was, j, links[j], values[j])
    {
      if g[i].None? {
        PlainResolved(g, was, i);
      } else {
        var ring, link, cur := Walk(g, i);
        if ring {
          rings := rings + {i};
        }
        ghost var before := values[..];
        values[i] := values[cur];
        links := links[i := if ring then None else Some(link)];
        if !ring {
          WalkResolved(g, was, i, link);
        }
        assert forall j :: 0 <= j < |g| && j != i ==> values[j] == before[j];
      }
    }
  }

  lemma PlainResolved(g: Links, was: seq<string>, i: nat)
    requires Closed(g) && i < |g| == |was| && g[i].None?
    ensures Resolved(g, was, i, Some([]), was[i]) && !Ring(g, i)
  {
    assert Grounded(g, i, 0);
    forall d: nat | Grounded(g, i, d)
      ensures d == 0
    {
      GroundedUnique(g, i, 0, d);
    }
  }

  lemma WalkResolved(g: Links, was: seq<string>, i: nat, link: seq<nat>)
    requires Closed(g) && i < |g| == |was| && Grounded(g, i, |link|) && link == Path(g, i, |link|)
    ensures Resolved(g, was, i, Some(link), was[Terminal(g, i, |link|)]) && !Ring(g, i)
  {
    forall d: nat | Grounded(g, i, d)
      ensures d == |link|
    {
      GroundedUnique(g, i, |link|, d);
    }
  }
}
