/** Splitting a text at a separator and joining the pieces again. */
module Splitting {
  import opened Base

  predicate Occurs(s: string, sep: string, i: nat) {
    i + |sep| <= |s| && s[i..i + |sep|] == sep
  }

  ghost predicate Contains(s: string, sep: string) {
    exists i: nat :: Occurs(s, sep, i)
  }

  /** The first occurrence at or after position i. */
  function Find(s: string, sep: string, i: nat): (r: Option<nat>)
    requires i <= |s|
    ensures r.Some? ==> i <= r.value && Occurs(s, sep, r.value)
    ensures r.Some? ==> forall j: nat :: i <= j < r.value ==> !Occurs(s, sep, j)
    ensures r.None? ==> forall j: nat :: i <= j ==> !Occurs(s, sep, j)
    decreases |s| - i
  {
    if Occurs(s, sep, i) then Some(i)
    else if i == |s| then None
    else Find(s, sep, i + 1)
  }

  /** Cut at the separator from left to right, occurrences not overlapping. */
  function Split(s: string, sep: string): (r: seq<string>)
    requires sep != ""
    ensures |r| >= 1
    decreases |s|
  {
    match Find(s, sep, 0)
    case None => [s]
    case Some(k) => [s[..k]] + Split(s[k + |sep|..], sep)
  }

  function Join(pieces: seq<string>, sep: string): string
    requires pieces != []
  {
    if |pieces| == 1 then pieces[0] else pieces[0] + sep + Join(pieces[1..], sep)
  }

  lemma {:induction false} JoinSplit(s: string, sep: string)
    requires sep != ""
    ensures Join(Split(s, sep), sep) == s
    decreases |s|
  {
    var f := Find(s, sep, 0);
    if f.Some? {
      var k := f.value;
      JoinSplit(s[k + |sep|..], sep);
      assert Split(s, sep)[1..] == Split(s[k + |sep|..], sep);
      assert s == s[..k] + sep + s[k + |sep|..];
    }
  }

  lemma OccursInPrefix(p: string, q: string, sep: string, j: nat)
    requires j + |sep| <= |p|
    ensures Occurs(p + q, sep, j) <==> Occurs(p, sep, j)
  {
    assert (p + q)[j..j + |sep|] == p[j..j + |sep|];
  }

  lemma OccursInSuffix(p: string, q: string, sep: string, j: nat)
    ensures Occurs(p + q, sep, |p| + j) <==> Occurs(q, sep, j)
  {
    if j + |sep| <= |q| {
      assert (p + q)[|p| + j..|p| + j + |sep|] == q[j..j + |sep|];
    }
  }

  lemma BeforeFirst(s: string, sep: string, k: nat)
    requires sep != "" && k <= |s| && forall j: nat :: j < k ==> !Occurs(s, sep, j)
    ensures !Contains(s[..k], sep)
  {
    forall j: nat
      ensures !Occurs(s[..k], sep, j)
    {
      if j + |sep| <= k {
        OccursInPrefix(s[..k], s[k..], sep, j);
        assert s == s[..k] + s[k..];
      }
    }
  }

  /** No piece of a split contains the separator. */
  lemma {:induction false} SplitPieces(s: string, sep: string, i: nat)
    requires sep != "" && i < |Split(s, sep)|
    ensures !Contains(Split(s, sep)[i], sep)
    decreases |s|
  {
    var f := Find(s, sep, 0);
    if f.Some? {
      var k := f.value;
      if i == 0 {
        BeforeFirst(s, sep, k);
      } else {
        SplitPieces(s[k + |sep|..], sep, i - 1);
      }
    }
  }

  // ----- separators that do not overlap themselves -----

  /** No proper suffix of the separator is also a prefix of it. */
  ghost predicate BorderFree(sep: string) {
    forall d: nat :: 0 < d < |sep| ==> sep[d..] != sep[..|sep| - d]
  }

  lemma FirstCharOnce(sep: string)
    requires forall d :: 0 < d < |sep| ==> sep[d] != sep[0]
    ensures BorderFree(sep)
  {
    forall d: nat | 0 < d < |sep|
      ensures sep[d..] != sep[..|sep| - d]
    {
      assert sep[d..][0] != sep[..|sep| - d][0];
    }
  }

  /** An occurrence that runs into a separator from the left makes a border of it. */
  lemma OverlapMakesBorder(p: string, sep: string, rest: string, j: nat)
    requires j < |p| < j + |sep|
    ensures Occurs(p + sep + rest, sep, j) ==> sep[|p| - j..] == sep[..|sep| - (|p| - j)]
  {
    var s, d := p + sep + rest, |p| - j;
    if Occurs(s, sep, j) {
      assert s[j..j + |sep|][d..] == s[|p|..|p| + |sep| - d];
      assert s[|p|..|p| + |sep|] == sep;
      assert s[|p|..|p| + |sep| - d] == sep[..|sep| - d];
    }
  }

  lemma FirstOccurrence(p: string, sep: string, rest: string)
    requires sep != "" && BorderFree(sep) && !Contains(p, sep)
    ensures Find(p + sep + rest, sep, 0) == Some(|p|)
  {
    var s := p + sep + rest;
    assert s[|p|..|p| + |sep|] == sep;
    forall j: nat | j < |p|
      ensures !Occurs(s, sep, j)
    {
      if j + |sep| <= |p| {
        OccursInPrefix(p, sep + rest, sep, j);
        assert p + (sep + rest) == s;
      } else {
        OverlapMakesBorder(p, sep, rest, j);
      }
    }
    assert Occurs(s, sep, |p|);
  }

  lemma SplitFirst(p: string, sep: string, rest: string)
    requires sep != "" && BorderFree(sep) && !Contains(p, sep)
    ensures Split(p + sep + rest, sep) == [p] + Split(rest, sep)
  {
    var s := p + sep + rest;
    FirstOccurrence(p, sep, rest);
    assert s[..|p|] == p;
    assert s[|p| + |sep|..] == rest;
  }

  /** Splitting undoes joining when no piece contains the separator. */
  lemma {:induction false} SplitJoin(pieces: seq<string>, sep: string)
    requires sep != "" && BorderFree(sep) && pieces != []
    requires forall i :: 0 <= i < |pieces| ==> !Contains(pieces[i], sep)
    ensures Split(Join(pieces, sep), sep) == pieces
  {
    if |pieces| == 1 {
      assert Find(pieces[0], sep, 0) == None;
    } else {
      var rest := pieces[1..];
      SplitJoin(rest, sep);
      SplitFirst(pieces[0], sep, Join(rest, sep));
      assert pieces == [pieces[0]] + rest;
    }
  }

  lemma StartsWithSeparator(s: string, sep: string)
    requires sep != "" && Occurs(s, sep, 0)
    ensures Split(s, sep)[0] == ""
  {
    assert Find(s, sep, 0) == Some(0);
  }

  /** The condition on the separator is needed: a separator that ends as it begins gives pieces
      that do not survive. */
  lemma BorderBreaksSplit(sep: string, head: string, border: string, tail: string)
    requires head != "" && border != "" && sep == head + border == border + tail
    ensures !Contains(head, sep) && !Contains("", sep)
    ensures Split(Join([head, ""], sep), sep)[0] != head
  {
    ShortFree(head, sep);
    ShortFree("", sep);
    assert Join([head, ""], sep) == head + sep == sep + tail;
    assert (sep + tail)[0..|sep|] == sep;
    StartsWithSeparator(sep + tail, sep);
  }

  /** A character outside the separator shields what is left and right of it. */
  lemma Shielded(x: string, c: char, y: string, sep: string)
    requires sep != "" && c !in sep
    requires !Contains(x, sep) && !Contains(y, sep)
    ensures !Contains(x + [c] + y, sep)
  {
    var s := x + [c] + y;
    forall j: nat
      ensures !Occurs(s, sep, j)
    {
      if j + |sep| <= |x| {
        OccursInPrefix(x, [c] + y, sep, j);
        assert x + ([c] + y) == s;
      } else if j <= |x| {
        if j + |sep| <= |s| {
          assert s[j..j + |sep|][|x| - j] == c;
        }
      } else {
        OccursInSuffix(x + [c], y, sep, j - |x| - 1);
      }
    }
  }

  lemma SuffixFree(s: string, sep: string, k: nat)
    requires k <= |s| && !Contains(s, sep)
    ensures !Contains(s[k..], sep)
  {
    forall j: nat
      ensures !Occurs(s[k..], sep, j)
    {
      OccursInSuffix(s[..k], s[k..], sep, j);
      assert s[..k] + s[k..] == s;
      assert !Occurs(s, sep, k + j);
    }
  }

  lemma PrefixFree(s: string, sep: string, k: nat)
    requires k <= |s| && !Contains(s, sep)
    ensures !Contains(s[..k], sep)
  {
    forall j: nat
      ensures !Occurs(s[..k], sep, j)
    {
      if j + |sep| <= k {
        OccursInPrefix(s[..k], s[k..], sep, j);
        assert s[..k] + s[k..] == s;
      }
    }
  }

  lemma ShortFree(s: string, sep: string)
    requires |s| < |sep|
    ensures !Contains(s, sep)
  {
  }
}
