/** Hop groups, and the benchmark that asks for lines of a truncated list. */
module LineQueries {
  import opened Base
  import opened Chains
  import opened LineRetrieval

  // ----- group_by_num_hoops -----

  ghost predicate Ascending(s: seq<nat>) {
    forall i, j :: 0 <= i < j < |s| ==> s[i] < s[j]
  }

  ghost predicate LinksFit(links: seq<Option<seq<nat>>>, rings: set<nat>) {
    forall i: nat :: i < |links| && i !in rings ==> links[i].Some?
  }

  function Hops(link: Option<seq<nat>>): nat {
    if link.Some? then |link.value| + 1 else 0
  }

  ghost predicate GroupFits(group: seq<nat>, links: seq<Option<seq<nat>>>, rings: set<nat>, n: nat, h: nat)
    requires n <= |links|
  {
    && group != [] && Ascending(group)
    && forall i: nat :: i in group <==> i < n && i !in rings && Hops(links[i]) == h
  }

  /** The groups partition the first n lines outside rings by the length of their path. */
  ghost predicate Grouped(groups: map<nat, seq<nat>>, links: seq<Option<seq<nat>>>, rings: set<nat>, n: nat)
    requires n <= |links|
  {
    && (forall h :: h in groups ==> GroupFits(groups[h], links, rings, n, h))
    && (forall i: nat :: i < n && i !in rings ==> Hops(links[i]) in groups)
  }

  method GroupByHops(links: seq<Option<seq<nat>>>, rings: set<nat>) returns (groups: map<nat, seq<nat>>)
    requires LinksFit(links, rings)
    ensures Grouped(groups, links, rings, |links|)
  {
    groups := map[];
    for i := 0 to |links|
      invariant Grouped(groups, links, rings, i)
    {
      if i in rings {
        continue;
      }
      var h := |links[i].value| + 1;
      var group := if h in groups then groups[h] else [];
      GroupedStep(groups, links, rings, i);
      groups := groups[h := group + [i]];
    }
  }

  lemma GroupedStep(groups: map<nat, seq<nat>>, links: seq<Option<seq<nat>>>, rings: set<nat>, i: nat)
    requires i < |links| && i !in rings && LinksFit(links, rings) && Grouped(groups, links, rings, i)
    ensures var h := Hops(links[i]);
            var group := if h in groups then groups[h] else [];
            Grouped(groups[h := group + [i]], links, rings, i + 1)
  {
    var h := Hops(links[i]);
    var group := if h in groups then groups[h] else [];
    assert h in groups ==> GroupFits(groups[h], links, rings, i, h);
    assert GroupFits(group + [i], links, rings, i + 1, h) by {
      forall k | 0 <= k < |group|
        ensures group[k] < i
      {
        assert group[k] in group;
      }
    }
    forall k: nat | k in groups && k != h
      ensures GroupFits(groups[k], links, rings, i + 1, k)
    {
      assert GroupFits(groups[k], links, rings, i, k);
    }
  }

  // ----- the generated lines -----

  /** A line of the prompt: a value, or a reference to another line's index. */
  datatype Line = Plain(index: string, value: string) | SameAs(index: string, target: string)

  /** The object that the generator writes. */
  datatype LineObj = LineObj(
    lines: seq<Line>,
    indices: seq<string>,
    values: seq<string>,
    links: seq<Option<seq<nat>>>,
    rings: set<nat>,
    groups: map<nat, seq<nat>>)

  function LineFor(g: Links, indices: seq<string>, original: seq<string>, i: nat): Line
    requires Closed(g) && i < |g| == |indices| == |original|
  {
    if g[i].None? then Plain(indices[i], original[i]) else SameAs(indices[i], indices[g[i].value])
  }

  /** obj is what the generator produces from the redirect table g and the drawn values. */
  ghost predicate Generated(obj: LineObj, g: Links, original: seq<string>) {
    && Closed(g)
    && |obj.lines| == |obj.indices| == |obj.values| == |obj.links| == |g| == |original|
    && NoDup(obj.indices)
    && (forall i :: 0 <= i < |g| ==> obj.lines[i] == LineFor(g, obj.indices, original, i))
    && (forall i :: 0 <= i < |g| ==> Resolved(g, original, i, obj.links[i], obj.values[i]))
    && (forall i: nat :: i in obj.rings <==> i < |g| && Ring(g, i))
    && Grouped(obj.groups, obj.links, obj.rings, |g|)
  }

  /** The generator from the redirect table on. */
  method GenerateLines(g: Links, indices: seq<string>, original: seq<string>) returns (obj: LineObj)
    requires Closed(g) && |g| == |indices| == |original| && NoDup(indices)
    ensures Generated(obj, g, original) && obj.indices == indices
  {
    var lines := seq(|g|, i requires 0 <= i < |g| => LineFor(g, indices, original, i));
    var values := new string[|g|](i requires 0 <= i < |g| => original[i]);
    assert values[..] == original;
    var links, rings := ResolveRedirects(g, values);
    forall i: nat | i < |links| && i !in rings
      ensures links[i].Some?
    {
      assert Resolved(g, original, i, links[i], values[i]);
    }
    var groups := GroupByHops(links, rings);
    obj := LineObj(lines, indices, values[..], links, rings, groups);
  }

  // ----- reading a body -----

  /** The line of the body that carries the index, if any. */
  function Find(body: seq<Line>, index: string): (r: Option<Line>)
    ensures r.Some? ==> r.value in body && r.value.index == index
    ensures r.None? ==> forall k :: 0 <= k < |body| ==> body[k].index != index
  {
    if body == [] then None
    else if body[0].index == index then Some(body[0])
    else Find(body[1..], index)
  }

  /** What a reader of the body alone finds for an index, following at most `hops` references. */
  function Read(body: seq<Line>, index: string, hops: nat): Option<string>
    decreases hops
  {
    match Find(body, index)
    case None => None
    case Some(Plain(_, value)) => Some(value)
    case Some(SameAs(_, target)) => if hops == 0 then None else Read(body, target, hops - 1)
  }

  lemma FindsLine(obj: LineObj, g: Links, original: seq<string>, m: nat, i: nat)
    requires Generated(obj, g, original) && i < m <= |g|
    ensures Find(obj.lines[..m], obj.indices[i]) == Some(obj.lines[i])
  {
    var body := obj.lines[..m];
    assert body[i] == obj.lines[i] && body[i].index == obj.indices[i];
    match Find(body, obj.indices[i])
    case None =>
      assert false;
    case Some(line) =>
      var k :| 0 <= k < |body| && body[k] == line;
      assert obj.lines[k].index == obj.indices[k];
      assert k == i;
  }

  lemma ReadsLine(obj: LineObj, g: Links, original: seq<string>, m: nat, i: nat, hops: nat)
    requires Generated(obj, g, original) && i < m <= |g|
    ensures Read(obj.lines[..m], obj.indices[i], hops)
         == if g[i].None? then Some(original[i])
            else if hops == 0 then None
            else Read(obj.lines[..m], obj.indices[g[i].value], hops - 1)
  {
    FindsLine(obj, g, original, m, i);
    assert obj.lines[i] == LineFor(g, obj.indices, original, i);
  }

  ghost predicate AllBelow(p: seq<nat>, m: nat) {
    forall k :: 0 <= k < |p| ==> p[k] < m
  }

  lemma PathTail(g: Links, i: nat, d: nat, m: nat)
    requires Closed(g) && i < |g| && Grounded(g, i, d) && d != 0
    requires AllBelow(Path(g, i, d), m)
    ensures g[i].value < m && Terminal(g, i, d) == Terminal(g, g[i].value, d - 1)
    ensures AllBelow(Path(g, g[i].value, d - 1), m)
  {
    var p, tail := Path(g, i, d), Path(g, g[i].value, d - 1);
    assert p[0] == g[i].value;
    forall k | 0 <= k < |tail|
      ensures tail[k] < m
    {
      assert tail[k] == p[k + 1];
    }
  }

  /** The group for h hops holds exactly the lines whose chain ends after h - 1 links, and each line
      outside a ring is in the group for its chain. */
  lemma GroupMeans(obj: LineObj, g: Links, original: seq<string>, q: nat, d: nat)
    requires Generated(obj, g, original) && q < |g| && Grounded(g, q, d)
    ensures d + 1 in obj.groups && q in obj.groups[d + 1]
    ensures forall h :: h in obj.groups && q in obj.groups[h] ==> h == d + 1
  {
    assert Resolved(g, original, q, obj.links[q], obj.values[q]);
    assert obj.links[q] == Some(Path(g, q, d)) && Hops(obj.links[q]) == d + 1;
    assert !Ring(g, q);
    forall h | h in obj.groups
      ensures q in obj.groups[h] <==> h == d + 1
    {
      assert GroupFits(obj.groups[h], obj.links, obj.rings, |g|, h);
    }
  }

  /** Following a chain that stays inside the first m lines reads the value of its end. */
  lemma {:induction false} ReadsChain(obj: LineObj, g: Links, original: seq<string>, m: nat, i: nat, d: nat)
    requires Generated(obj, g, original) && i < m <= |g| && Grounded(g, i, d)
    requires AllBelow(Path(g, i, d), m)
    ensures Read(obj.lines[..m], obj.indices[i], d) == Some(original[Terminal(g, i, d)])
    decreases d
  {
    if d == 0 {
      ReadsLine(obj, g, original, m, i, 0);
    } else {
      PathTail(g, i, d, m);
      ReadsLine(obj, g, original, m, i, d);
      ReadsChain(obj, g, original, m, g[i].value, d - 1);
    }
  }

  // ----- eval_model -----

  predicate Inside(link: Option<seq<nat>>, src: nat) {
    link.Some? && forall l :: l in link.value ==> l <= src
  }

  /** The lines of a hop group whose whole chain lies within the cut. */
  function Queries(group: seq<nat>, links: seq<Option<seq<nat>>>, src: nat): (r: seq<nat>)
    requires forall k :: 0 <= k < |group| ==> group[k] < |links|
    ensures forall q :: q in r <==> q in group && Inside(links[q], src) && q < src
  {
    if group == [] then []
    else
      var rest, q := Queries(group[..|group| - 1], links, src), group[|group| - 1];
      if Inside(links[q], src) && q < src then rest + [q] else rest
  }

  /** Python's slice end: body = lines[: src + 1]. */
  function Cut(n: nat, src: nat): nat {
    if src + 1 <= n then src + 1 else n
  }

  function Body(obj: LineObj, src: nat): seq<Line> {
    obj.lines[..Cut(|obj.lines|, src)]
  }

  /** A chosen line is not in a ring, has as many links as its group says, and its whole
      chain lies inside the body. */
  lemma QueryChain(obj: LineObj, g: Links, original: seq<string>, hops: nat, src: nat, q: nat) returns (d: nat)
    requires Generated(obj, g, original) && hops in obj.groups
    requires q in obj.groups[hops] && q < |obj.links| && Inside(obj.links[q], src) && q < src
    ensures q < |g| && Grounded(g, q, d) && hops == d + 1 && obj.values[q] == original[Terminal(g, q, d)]
    ensures q < Cut(|g|, src) && AllBelow(Path(g, q, d), Cut(|g|, src))
  {
    assert GroupFits(obj.groups[hops], obj.links, obj.rings, |g|, hops);
    assert Resolved(g, original, q, obj.links[q], obj.values[q]);
    assert !Ring(g, q);
    d :| Grounded(g, q, d);
    var p := Path(g, q, d);
    forall k | 0 <= k < d
      ensures p[k] < Cut(|g|, src)
    {
      assert p[k] in p;
      PathAt(g, q, d, k);
    }
  }

  lemma ReadsBody(obj: LineObj, g: Links, original: seq<string>, src: nat, q: nat, d: nat)
    requires Generated(obj, g, original) && q < Cut(|g|, src) && Grounded(g, q, d)
    requires AllBelow(Path(g, q, d), Cut(|g|, src))
    ensures Read(Body(obj, src), obj.indices[q], d) == Some(original[Terminal(g, q, d)])
  {
    ReadsChain(obj, g, original, Cut(|g|, src), q, d);
  }

  lemma LineResolvable(obj: LineObj, g: Links, original: seq<string>, hops: nat, src: nat, q: nat)
    requires Generated(obj, g, original) && hops in obj.groups
    requires q in obj.groups[hops] && q < |obj.links| && Inside(obj.links[q], src) && q < src
    ensures hops >= 1 && q < |obj.values|
    ensures Read(Body(obj, src), obj.indices[q], hops - 1) == Some(obj.values[q])
  {
    var d := QueryChain(obj, g, original, hops, src, q);
    ReadsBody(obj, g, original, src, q, d);
  }

  lemma QueryMeans(group: seq<nat>, links: seq<Option<seq<nat>>>, src: nat, q: nat)
    requires (forall k :: 0 <= k < |group| ==> group[k] < |links|) && q in Queries(group, links, src)
    ensures q in group && q < |links| && Inside(links[q], src) && q < src
  {
  }

  /** Every line chosen for a cut can be resolved from the truncated body alone, and what the
      reader finds there is the recorded label. */
  lemma QueriesResolvable(obj: LineObj, g: Links, original: seq<string>, hops: nat, src: nat, q: nat)
    requires Generated(obj, g, original) && hops in obj.groups
    requires (forall k :: 0 <= k < |obj.groups[hops]| ==> obj.groups[hops][k] < |obj.links|)
    requires q in Queries(obj.groups[hops], obj.links, src)
    ensures hops >= 1 && q < |obj.values|
    ensures Read(Body(obj, src), obj.indices[q], hops - 1) == Some(obj.values[q])
  {
    QueryMeans(obj.groups[hops], obj.links, src, q);
    LineResolvable(obj, g, original, hops, src, q);
  }

  /** int() of a float: towards zero. */
  function Truncate(x: real): int {
    if x >= 0.0 then x.Floor else -((-x).Floor)
  }

  /** min(int(x), n - 1). */
  function Clamp(n: nat, x: real): int {
    var k := Truncate(x);
    if k <= n - 1 then k else n - 1
  }

  function Share(n: nat, percent: real): real {
    n as real * percent
  }

  /** The position that a percentage of n queries names: min(int(len * percent), len - 1). */
  function Position(n: nat, percent: real): int {
    Clamp(n, Share(n, percent))
  }

  /** Python's list index: a negative one counts from the end; one before the first element, and
      any in an empty list, raise an IndexError. */
  function ElementAt(s: seq<nat>, k: int): (r: Option<nat>)
    ensures r.Some? <==> -|s| <= k < |s|
    ensures r.Some? ==> r.value in s
  {
    if 0 <= k < |s| then Some(s[k])
    else if -|s| <= k < 0 then Some(s[|s| + k])
    else None
  }

  function Choose(queries: seq<nat>, percent: real): (r: Option<nat>)
    ensures r.Some? <==> queries != [] && Position(|queries|, percent) >= -|queries|
    ensures r.Some? ==> r.value in queries
  {
    ElementAt(queries, Position(|queries|, percent))
  }

  function Times(n: nat, x: real): real {
    if n == 0 then 0.0 else Times(n - 1, x) + x
  }

  lemma OneMore(m: real, x: real)
    ensures (m + 1.0) * x == m * x + x
  {
  }

  lemma {:induction false} TimesIsProduct(n: nat, x: real)
    ensures Times(n, x) == Share(n, x)
  {
    if n > 0 {
      TimesIsProduct(n - 1, x);
      OneMore((n - 1) as real, x);
      assert n as real == (n - 1) as real + 1.0;
    }
  }

  lemma {:induction false} Scaled(n: nat, a: real)
    ensures a == 0.0 ==> Times(n, a) == 0.0
    ensures a >= 1.0 ==> Times(n, a) >= n as real
    ensures a >= -1.0 ==> Times(n, a) >= -(n as real)
  {
    if n > 0 {
      Scaled(n - 1, a);
    }
  }

  lemma TruncateRange(n: nat, x: real)
    ensures x >= 0.0 ==> Truncate(x) >= 0
    ensures x >= n as real ==> Truncate(x) >= n
    ensures x >= -(n as real) ==> Truncate(x) + n >= 0
  {
    if x < 0.0 {
      assert (-x).Floor as real <= -x;
    }
  }

  lemma ClampEnds(queries: seq<nat>, x: real)
    requires queries != []
    ensures x >= -(|queries| as real) ==> ElementAt(queries, Clamp(|queries|, x)).Some?
    ensures x == 0.0 ==> ElementAt(queries, Clamp(|queries|, x)) == Some(queries[0])
    ensures x >= |queries| as real ==> ElementAt(queries, Clamp(|queries|, x)) == Some(queries[|queries| - 1])
  {
    TruncateRange(|queries|, x);
  }

  lemma ChooseTimes(queries: seq<nat>, percent: real)
    ensures Choose(queries, percent) == ElementAt(queries, Clamp(|queries|, Times(|queries|, percent)))
  {
    TimesIsProduct(|queries|, percent);
  }

  lemma ChosenEnds(queries: seq<nat>, percent: real, choice: Option<nat>)
    requires queries != [] && choice == ElementAt(queries, Clamp(|queries|, Times(|queries|, percent)))
    ensures percent >= -1.0 ==> choice.Some?
    ensures percent == 0.0 ==> choice == Some(queries[0])
    ensures percent >= 1.0 ==> choice == Some(queries[|queries| - 1])
  {
    Scaled(|queries|, percent);
    ClampEnds(queries, Times(|queries|, percent));
  }

  /** A percentage from -1 up always finds a query; 0 finds the first, 1 and more the last. */
  lemma ChooseEnds(queries: seq<nat>, percent: real)
    requires queries != []
    ensures percent >= -1.0 ==> Choose(queries, percent).Some?
    ensures percent == 0.0 ==> Choose(queries, percent) == Some(queries[0])
    ensures percent >= 1.0 ==> Choose(queries, percent) == Some(queries[|queries| - 1])
  {
    ChooseTimes(queries, percent);
    ChosenEnds(queries, percent, Choose(queries, percent));
  }

  /** The body in four parts. */
  function Quarter(body: seq<Line>): (seq<Line>, seq<Line>, seq<Line>, seq<Line>) {
    var n := |body| / 4;
    (body[..n], body[n..2 * n], body[2 * n..3 * n], body[3 * n..])
  }

  /** The four parts concatenate back to the body, for every length; the first three are equally
      long, and the last by less than four lines longer. */
  lemma QuartersConcatenate(body: seq<Line>)
    ensures var (a, b, c, d) := Quarter(body); a + b + c + d == body && |a| == |b| == |c| <= |d| < |a| + 4
  {
    var n := |body| / 4;
    assert body == body[..n] + body[n..];
    assert body[n..] == body[n..2 * n] + body[2 * n..];
    assert body[2 * n..] == body[2 * n..3 * n] + body[3 * n..];
  }

  lemma GroupInRange(obj: LineObj, g: Links, original: seq<string>, hops: nat)
    requires Generated(obj, g, original) && hops in obj.groups
    ensures hops >= 1 && forall k :: 0 <= k < |obj.groups[hops]| ==> obj.groups[hops][k] < |obj.links|
  {
    var group := obj.groups[hops];
    assert GroupFits(group, obj.links, obj.rings, |g|, hops);
    forall k | 0 <= k < |group|
      ensures group[k] < |obj.links|
    {
      assert group[k] in group;
    }
    assert group[0] in group;
    assert Resolved(g, original, group[0], obj.links[group[0]], obj.values[group[0]]);
  }

  datatype Question = Question(parts: (seq<Line>, seq<Line>, seq<Line>, seq<Line>), index: string, answer: string)

  /** The question's label can be read off its own body parts. */
  ghost predicate Answerable(q: Question, hops: nat)
    requires hops >= 1
  {
    var (a, b, c, d) := q.parts;
    Read(a + b + c + d, q.index, hops - 1) == Some(q.answer)
  }

  /** No line of the group has its whole chain within the cut. */
  ghost predicate NoQuery(obj: LineObj, hops: nat, src: nat) {
    hops !in obj.groups
    || forall q :: q in obj.groups[hops] && q < |obj.links| ==> !(Inside(obj.links[q], src) && q < src)
  }

  predicate InRange(obj: LineObj, hops: nat) {
    && |obj.indices| == |obj.values| == |obj.links| && hops in obj.groups
    && forall k :: 0 <= k < |obj.groups[hops]| ==> obj.groups[hops][k] < |obj.links|
  }

  /** The question for a cut and a percentage, when there is a query for it. */
  function QuestionAt(obj: LineObj, hops: nat, src: nat, percent: real): Option<Question>
    requires InRange(obj, hops)
  {
    var choice := Choose(Queries(obj.groups[hops], obj.links, src), percent);
    if choice.None? then None
    else Some(Question(Quarter(Body(obj, src)), obj.indices[choice.value], obj.values[choice.value]))
  }

  /** The questions of one cut, one for each percentage in turn. */
  ghost predicate AsksRow(obj: LineObj, hops: nat, src: nat, percents: seq<real>, row: seq<Question>)
    requires InRange(obj, hops)
  {
    |row| == |percents| && forall k :: 0 <= k < |row| ==> QuestionAt(obj, hops, src, percents[k]) == Some(row[k])
  }

  /** A question cannot be asked exactly when no line of the group has its whole chain within
      the cut, or the percentage points before the first such line. */
  lemma QuestionFails(obj: LineObj, hops: nat, src: nat, percent: real)
    requires InRange(obj, hops)
    ensures var n := |Queries(obj.groups[hops], obj.links, src)|;
            QuestionAt(obj, hops, src, percent).None? <==> NoQuery(obj, hops, src) || Position(n, percent) < -n
  {
    var queries := Queries(obj.groups[hops], obj.links, src);
    assert queries != [] ==> queries[0] in queries;
  }

  // ----- which line is asked for -----

  /** The lines of the hop group below a bound whose whole chain, and they themselves, lie before
      the cut. */
  ghost function Candidates(obj: LineObj, hops: nat, src: nat, bound: nat): set<nat>
    requires InRange(obj, hops)
  {
    set q: nat | q in obj.groups[hops] && q < src && q < bound && q < |obj.links| && obj.links[q].Some?
                 && (forall l :: l in obj.links[q].value ==> l <= src)
  }

  /** How many of n candidates lie below the one that a percentage names: that share of them, but
      not all; a negative percentage counts from the end, after rounding towards zero. */
  function Rank(n: nat, percent: real): int {
    if percent >= 0.0 then
      if (n as real * percent).Floor < n then (n as real * percent).Floor else n - 1
    else
      var back := (-(n as real * percent)).Floor;
      if back == 0 then 0 else n - back
  }

  /** The question asks for the candidate dst, below which as many lie as the percentage says, with
      the lines up to the cut as its body. */
  ghost predicate AsksFor(obj: LineObj, hops: nat, src: nat, percent: real, question: Question, dst: nat)
    requires InRange(obj, hops)
  {
    var (a, b, c, d) := question.parts;
    && dst < |obj.indices| && dst in Candidates(obj, hops, src, src)
    && |Candidates(obj, hops, src, dst)| == Rank(|Candidates(obj, hops, src, src)|, percent)
    && question.index == obj.indices[dst] && question.answer == obj.values[dst]
    && |a + b + c + d| == (if src < |obj.lines| then src + 1 else |obj.lines|) && a + b + c + d <= obj.lines
  }

  function Elements(s: seq<nat>): (r: set<nat>)
    ensures forall x: nat :: x in r <==> x in s
  {
    if s == [] then {} else Elements(s[..|s| - 1]) + {s[|s| - 1]}
  }

  lemma {:induction false} ElementsSize(s: seq<nat>)
    requires Ascending(s)
    ensures |Elements(s)| == |s|
  {
    if s != [] {
      ElementsSize(s[..|s| - 1]);
      assert s[|s| - 1] !in s[..|s| - 1];
    }
  }

  /** The elements of an ascending sequence below one of them are those before it. */
  lemma BelowElement(s: seq<nat>, k: nat, x: nat)
    requires Ascending(s) && k < |s|
    ensures x in s[..k] <==> x in s && x < s[k]
  {
    if x in s && x < s[k] {
      var i :| 0 <= i < |s| && s[i] == x;
      assert i < k;
      assert s[..k][i] == x;
    }
  }

  lemma {:induction false} QueriesAscend(group: seq<nat>, links: seq<Option<seq<nat>>>, src: nat)
    requires (forall k :: 0 <= k < |group| ==> group[k] < |links|) && Ascending(group)
    ensures Ascending(Queries(group, links, src))
  {
    if group != [] {
      var n := |group| - 1;
      var rest := Queries(group[..n], links, src);
      QueriesAscend(group[..n], links, src);
      forall k | 0 <= k < |rest|
        ensures rest[k] < group[n]
      {
        assert rest[k] in rest;
      }
    }
  }

  lemma CandidatesBelow(obj: LineObj, hops: nat, src: nat, k: nat)
    requires InRange(obj, hops) && Ascending(obj.groups[hops])
    requires k < |Queries(obj.groups[hops], obj.links, src)|
    ensures |Candidates(obj, hops, src, Queries(obj.groups[hops], obj.links, src)[k])| == k
    ensures Queries(obj.groups[hops], obj.links, src)[k] in Candidates(obj, hops, src, src)
  {
    var queries := Queries(obj.groups[hops], obj.links, src);
    QueriesAscend(obj.groups[hops], obj.links, src);
    assert queries[k] in queries;
    forall x: nat
      ensures x in Candidates(obj, hops, src, queries[k]) <==> x in queries[..k]
    {
      BelowElement(queries, k, x);
    }
    ElementsSize(queries[..k]);
    assert Candidates(obj, hops, src, queries[k]) == Elements(queries[..k]);
  }

  lemma CandidatesAll(obj: LineObj, hops: nat, src: nat)
    requires InRange(obj, hops) && Ascending(obj.groups[hops])
    ensures |Candidates(obj, hops, src, src)| == |Queries(obj.groups[hops], obj.links, src)|
  {
    var queries := Queries(obj.groups[hops], obj.links, src);
    QueriesAscend(obj.groups[hops], obj.links, src);
    ElementsSize(queries);
    assert Candidates(obj, hops, src, src) == Elements(queries);
  }

  /** The element chosen is number Rank of the list, where there is one. */
  lemma ChooseRank(queries: seq<nat>, percent: real)
    ensures Choose(queries, percent).Some? <==> 0 <= Rank(|queries|, percent) < |queries|
    ensures 0 <= Rank(|queries|, percent) < |queries| ==>
              Choose(queries, percent) == Some(queries[Rank(|queries|, percent)])
  {
    ClampRank(|queries|, |queries| as real * percent, percent);
  }

  lemma ClampRank(n: nat, x: real, percent: real)
    requires x == n as real * percent && (percent >= 0.0 ==> x >= 0.0) && (percent < 0.0 ==> x <= 0.0)
    ensures 0 <= n + Clamp(n, x) && Clamp(n, x) < n <==> 0 <= Rank(n, percent) < n
    ensures 0 <= Rank(n, percent) < n ==>
              Rank(n, percent) == if Clamp(n, x) >= 0 then Clamp(n, x) else n + Clamp(n, x)
  {
  }

  /** For an ascending group: a question can be asked exactly when the percentage names one of the
      candidates, and then asks for that one. */
  lemma QuestionRank(obj: LineObj, hops: nat, src: nat, percent: real) returns (dst: nat)
    requires InRange(obj, hops) && Ascending(obj.groups[hops])
    ensures var n := |Candidates(obj, hops, src, src)|;
            QuestionAt(obj, hops, src, percent).Some? <==> 0 <= Rank(n, percent) < n
    ensures QuestionAt(obj, hops, src, percent).Some? ==>
              AsksFor(obj, hops, src, percent, QuestionAt(obj, hops, src, percent).value, dst)
  {
    var queries := Queries(obj.groups[hops], obj.links, src);
    CandidatesAll(obj, hops, src);
    ChooseRank(queries, percent);
    dst := 0;
    if 0 <= Rank(|queries|, percent) < |queries| {
      var k: nat := Rank(|queries|, percent);
      dst := queries[k];
      CandidatesBelow(obj, hops, src, k);
      QuartersConcatenate(Body(obj, src));
    }
  }

  lemma QuestionAnswerable(obj: LineObj, g: Links, original: seq<string>, hops: nat, src: nat, percent: real)
    requires Generated(obj, g, original) && InRange(obj, hops) && hops >= 1
    requires QuestionAt(obj, hops, src, percent).Some?
    ensures Answerable(QuestionAt(obj, hops, src, percent).value, hops)
  {
    var q := Choose(Queries(obj.groups[hops], obj.links, src), percent).value;
    QueriesResolvable(obj, g, original, hops, src, q);
    QuartersConcatenate(Body(obj, src));
  }

  lemma RowAnswerable(obj: LineObj, g: Links, original: seq<string>, hops: nat, src: nat, percents: seq<real>,
                      row: seq<Question>)
    requires Generated(obj, g, original) && InRange(obj, hops) && hops >= 1
    requires AsksRow(obj, hops, src, percents, row)
    ensures forall k :: 0 <= k < |row| ==> Answerable(row[k], hops)
  {
    forall k | 0 <= k < |row|
      ensures Answerable(row[k], hops)
    {
      QuestionAnswerable(obj, g, original, hops, src, percents[k]);
    }
  }

  /** Some question of the cut cannot be asked: the group does not exist, or one percentage
      finds no query. */
  ghost predicate RowFails(obj: LineObj, hops: nat, src: nat, percents: seq<real>) {
    if InRange(obj, hops) then exists k :: 0 <= k < |percents| && QuestionAt(obj, hops, src, percents[k]).None?
    else percents != []
  }

  /** The inner loop of eval_model: one question for each percentage of a cut. */
  method QuestionsFor(obj: LineObj, hops: nat, src: nat, percents: seq<real>) returns (r: Option<seq<Question>>)
    requires InRange(obj, hops)
    ensures r.None? <==> RowFails(obj, hops, src, percents)
    ensures r.Some? ==> AsksRow(obj, hops, src, percents, r.value)
  {
    var questions: seq<Question> := [];
    for j := 0 to |percents|
      invariant |questions| == j
      invariant forall k :: 0 <= k < j ==> QuestionAt(obj, hops, src, percents[k]) == Some(questions[k])
    {
      var question := QuestionAt(obj, hops, src, percents[j]);
      if question.None? {
        return None;
      }
      questions := questions + [question.value];
    }
    return Some(questions);
  }

  function Flat(rows: seq<seq<Question>>): seq<Question> {
    if rows == [] then [] else Flat(rows[..|rows| - 1]) + rows[|rows| - 1]
  }

  ghost predicate AllAnswerable(questions: seq<Question>, hops: nat) {
    forall k :: 0 <= k < |questions| ==> hops >= 1 && Answerable(questions[k], hops)
  }

  ghost predicate Asked(obj: LineObj, hops: nat, src: nat, percent: real, question: Question)
    requires InRange(obj, hops)
  {
    exists dst: nat :: AsksFor(obj, hops, src, percent, question, dst)
  }

  /** Every question of the row asks for the line that the cut and its percentage name. */
  ghost predicate RowAsksFor(obj: LineObj, hops: nat, src: nat, percents: seq<real>, row: seq<Question>)
    requires InRange(obj, hops)
  {
    && |row| == |percents|
    && forall k :: 0 <= k < |row| ==> Asked(obj, hops, src, percents[k], row[k])
  }

  ghost predicate RowsAskFor(obj: LineObj, hops: nat, srcs: seq<nat>, percents: seq<real>, rows: seq<seq<Question>>)
    requires InRange(obj, hops)
  {
    |rows| == |srcs| && forall i :: 0 <= i < |rows| ==> RowAsksFor(obj, hops, srcs[i], percents, rows[i])
  }

  lemma RowRanked(obj: LineObj, hops: nat, src: nat, percents: seq<real>, row: seq<Question>)
    requires InRange(obj, hops) && Ascending(obj.groups[hops]) && AsksRow(obj, hops, src, percents, row)
    ensures RowAsksFor(obj, hops, src, percents, row)
  {
    forall k | 0 <= k < |row|
      ensures Asked(obj, hops, src, percents[k], row[k])
    {
      var dst := QuestionRank(obj, hops, src, percents[k]);
      assert AsksFor(obj, hops, src, percents[k], row[k], dst);
    }
  }

  lemma RowsRanked(obj: LineObj, hops: nat, srcs: seq<nat>, percents: seq<real>, rows: seq<seq<Question>>)
    requires InRange(obj, hops) && Ascending(obj.groups[hops])
    requires |rows| == |srcs| && AsksRows(obj, hops, srcs, percents, rows)
    ensures RowsAskFor(obj, hops, srcs, percents, rows)
  {
    forall i | 0 <= i < |rows|
      ensures RowAsksFor(obj, hops, srcs[i], percents, rows[i])
    {
      RowRanked(obj, hops, srcs[i], percents, rows[i]);
    }
  }

  /** The rows asked so far, one for each cut. */
  ghost predicate AsksRows(obj: LineObj, hops: nat, srcs: seq<nat>, percents: seq<real>, rows: seq<seq<Question>>)
    requires InRange(obj, hops)
  {
    |rows| <= |srcs| && forall i :: 0 <= i < |rows| ==> AsksRow(obj, hops, srcs[i], percents, rows[i])
  }

  lemma AsksRowsSnoc(obj: LineObj, hops: nat, srcs: seq<nat>, percents: seq<real>, rows: seq<seq<Question>>,
                     row: seq<Question>)
    requires InRange(obj, hops) && AsksRows(obj, hops, srcs, percents, rows) && |rows| < |srcs|
    requires AsksRow(obj, hops, srcs[|rows|], percents, row)
    ensures AsksRows(obj, hops, srcs, percents, rows + [row])
  {
  }

  lemma FlatSnoc(rows: seq<seq<Question>>, row: seq<Question>)
    ensures Flat(rows + [row]) == Flat(rows) + row
  {
    assert (rows + [row])[..|rows|] == rows;
  }

  lemma {:induction false} RowsAnswerable(obj: LineObj, g: Links, original: seq<string>, hops: nat,
                                          srcs: seq<nat>, percents: seq<real>, rows: seq<seq<Question>>)
    requires Generated(obj, g, original) && InRange(obj, hops) && hops >= 1
    requires AsksRows(obj, hops, srcs, percents, rows)
    ensures AllAnswerable(Flat(rows), hops)
  {
    if rows != [] {
      var n := |rows| - 1;
      RowsAnswerable(obj, g, original, hops, srcs, percents, rows[..n]);
      RowAnswerable(obj, g, original, hops, srcs[n], percents, rows[n]);
    }
  }

  /** The loop over the cuts, for a group that exists. */
  method BuildRows(obj: LineObj, hops: nat, srcs: seq<nat>, percents: seq<real>)
    returns (r: Option<seq<Question>>, ghost rows: seq<seq<Question>>)
    requires InRange(obj, hops)
    ensures r.None? <==> exists i :: 0 <= i < |srcs| && RowFails(obj, hops, srcs[i], percents)
    ensures r.Some? ==> r.value == Flat(rows) && |rows| == |srcs| && AsksRows(obj, hops, srcs, percents, rows)
  {
    rows := [];
    var questions: seq<Question> := [];
    for i := 0 to |srcs|
      invariant questions == Flat(rows) && |rows| == i
      invariant AsksRows(obj, hops, srcs, percents, rows)
      invariant forall k :: 0 <= k < i ==> !RowFails(obj, hops, srcs[k], percents)
    {
      var more := QuestionsFor(obj, hops, srcs[i], percents);
      if more.None? {
        return None, rows;
      }
      AsksRowsSnoc(obj, hops, srcs, percents, rows, more.value);
      FlatSnoc(rows, more.value);
      rows := rows + [more.value];
      questions := questions + more.value;
    }
    return Some(questions), rows;
  }

  /** The loops of eval_model that build questions and labels.  The result is None when some
      question cannot be asked, where the source raises an IndexError or, without the group, a
      KeyError. */
  method BuildQuestions(obj: LineObj, hops: nat, srcs: seq<nat>, percents: seq<real>, ghost g: Links,
                        ghost original: seq<string>)
    returns (r: Option<seq<Question>>, ghost rows: seq<seq<Question>>)
    requires Generated(obj, g, original)
    ensures r.None? <==> exists i :: 0 <= i < |srcs| && RowFails(obj, hops, srcs[i], percents)
    ensures r.Some? ==> r.value == Flat(rows)
    ensures r.Some? && InRange(obj, hops) ==> |rows| == |srcs| && AsksRows(obj, hops, srcs, percents, rows)
    ensures r.Some? && InRange(obj, hops) ==> RowsAskFor(obj, hops, srcs, percents, rows)
    ensures r.Some? ==> AllAnswerable(r.value, hops)
  {
    if hops !in obj.groups {
      if srcs == [] || percents == [] {
        return Some([]), [];
      }
      assert RowFails(obj, hops, srcs[0], percents);
      return None, [];
    }
    GroupInRange(obj, g, original, hops);
    r, rows := BuildRows(obj, hops, srcs, percents);
    if r.Some? {
      RowsAnswerable(obj, g, original, hops, srcs, percents, rows);
      assert GroupFits(obj.groups[hops], obj.links, obj.rings, |g|, hops);
      RowsRanked(obj, hops, srcs, percents, rows);
    }
  }
}
