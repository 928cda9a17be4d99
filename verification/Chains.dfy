/** Chains in a table where every entry has at most one successor.

    Two parts of the repository walk such a table: the trace converter, whose
    spans name at most one parent, and the line-retrieval generator, whose lines
    redirect to at most one other line.  Both are safe for the same reason, which
    this module states once: the distance to the end of a chain is unique, so a
    chain that ends never meets the same node twice. */
module Chains {
  import opened Base

  type Links = seq<Option<nat>>

  ghost predicate Closed(g: Links) {
    forall i :: 0 <= i < |g| && g[i].Some? ==> g[i].value < |g|
  }

  /** The node k links away from x, if the chain is that long. */
  ghost function Follow(g: Links, x: nat, k: nat): (r: Option<nat>)
    requires Closed(g) && x < |g|
    ensures r.Some? ==> r.value < |g|
    decreases k
  {
    if k == 0 then Some(x)
    else if g[x].None? then None
    else Follow(g, g[x].value, k - 1)
  }

  /** The chain from x ends after exactly d links. */
  ghost predicate Grounded(g: Links, x: nat, d: nat)
    requires Closed(g) && x < |g|
    decreases d
  {
    if d == 0 then g[x].None? else g[x].Some? && Grounded(g, g[x].value, d - 1)
  }

  lemma {:induction false} GroundedUnique(g: Links, x: nat, d: nat, e: nat)
    requires Closed(g) && x < |g|
    requires Grounded(g, x, d) && Grounded(g, x, e)
    ensures d == e
    decreases d
  {
    if d != 0 && e != 0 {
      GroundedUnique(g, g[x].value, d - 1, e - 1);
    }
  }

  /** Going k links along a chain of length d leaves a chain of length d - k,
      and going further than d is impossible. */
  lemma {:induction false} FollowGrounded(g: Links, x: nat, d: nat, k: nat)
    requires Closed(g) && x < |g|
    requires Grounded(g, x, d)
    ensures Follow(g, x, k).Some? <==> k <= d
    ensures k <= d ==> Grounded(g, Follow(g, x, k).value, d - k)
    decreases k
  {
    if k != 0 && d != 0 {
      FollowGrounded(g, g[x].value, d - 1, k - 1);
    }
  }

  lemma {:induction false} FollowPlus(g: Links, x: nat, a: nat, b: nat)
    requires Closed(g) && x < |g|
    requires Follow(g, x, a).Some?
    ensures Follow(g, x, a + b) == Follow(g, Follow(g, x, a).value, b)
    decreases a
  {
    if a != 0 {
      FollowPlus(g, g[x].value, a - 1, b);
    }
  }

  lemma {:induction false} GroundedVia(g: Links, x: nat, k: nat, d: nat)
    requires Closed(g) && x < |g|
    requires Follow(g, x, k).Some? && Grounded(g, Follow(g, x, k).value, d)
    ensures Grounded(g, x, k + d)
    decreases k
  {
    if k != 0 {
      GroundedVia(g, g[x].value, k - 1, d);
    }
  }

  /** A chain that meets a node twice never ends. */
  lemma RevisitNeverEnds(g: Links, x: nat, a: nat, b: nat)
    requires Closed(g) && x < |g|
    requires a < b
    requires Follow(g, x, a).Some? && Follow(g, x, a) == Follow(g, x, b)
    ensures forall d: nat :: !Grounded(g, x, d)
  {
    forall d: nat | Grounded(g, x, d)
      ensures false
    {
      FollowGrounded(g, x, d, a);
      FollowGrounded(g, x, d, b);
      GroundedUnique(g, Follow(g, x, a).value, d - a, d - b);
    }
  }
}
