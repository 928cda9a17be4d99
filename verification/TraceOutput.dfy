/** The gathering pass of the trace converter, and what the whole conversion promises. */
module TraceOutput {
  import opened Base
  import opened Chains
  import opened SpanForest
  import opened Sorting
  import opened TraceSpans
  import opened TraceConverter
  import opened TraceLayout
  import opened LaneLayout

  // ----- gathering -----

  /** elems are the Perfetto records of the spans `order`, in that order. */
  ghost predicate Emits(data: seq<SpanData>, order: seq<nat>, elems: seq<PerfettoSpan>) {
    && |elems| == |order|
    && forall k :: 0 <= k < |order| ==> order[k] < |data| && data[order[k]].perfetto == Some(elems[k])
  }

  lemma EmitsConcat(data: seq<SpanData>, a: seq<nat>, b: seq<nat>, x: seq<PerfettoSpan>, y: seq<PerfettoSpan>)
    requires Emits(data, a, x) && Emits(data, b, y)
    ensures Emits(data, a + b, x + y)
  {
  }

  lemma PreorderStep(g: Links, ss: seq<nat>, k: nat, d: nat)
    requires Closed(g) && AtDepth(g, ss, d) && k < |ss|
    ensures PreorderAll(g, ss[..k + 1], d) == PreorderAll(g, ss[..k], d) + Preorder(g, ss[k], d)
  {
    assert ss[..k + 1][..k] == ss[..k];
  }

  /** What gathering has collected after p and its first k children. */
  ghost function GatheredSpans(g: Links, p: nat, d: nat, k: nat): seq<nat>
    requires Closed(g) && p < |g| && Grounded(g, p, d) && k <= NumKids(g, p)
  {
    KidsAtDepth(g, p, d);
    [p] + PreorderAll(g, Kids(g, p, |g|)[..k], d + 1)
  }

  lemma GatheredEnds(g: Links, p: nat, d: nat)
    requires Closed(g) && p < |g| && Grounded(g, p, d)
    ensures GatheredSpans(g, p, d, 0) == [p]
    ensures GatheredSpans(g, p, d, NumKids(g, p)) == Preorder(g, p, d)
  {
    KidsAtDepth(g, p, d);
    var ks := Kids(g, p, |g|);
    assert ks[..|ks|] == ks && ks[..0] == [];
  }

  lemma GatheredStep(g: Links, p: nat, d: nat, k: nat)
    requires Closed(g) && p < |g| && Grounded(g, p, d) && k < NumKids(g, p)
    ensures Grounded(g, Kid(g, p, k), d + 1)
    ensures GatheredSpans(g, p, d, k + 1) == GatheredSpans(g, p, d, k) + Preorder(g, Kid(g, p, k), d + 1)
  {
    KidsAtDepth(g, p, d);
    var ks := Kids(g, p, |g|);
    PreorderStep(g, ks, k, d + 1);
    AppendAssoc([p], PreorderAll(g, ks[..k], d + 1), Preorder(g, ks[k], d + 1));
  }

  /** __gather_one_span: the records of the subtree in preorder. */
  method GatherOneSpan(t: Trace, p: nat, ghost d: nat) returns (elems: seq<PerfettoSpan>)
    requires t.InForest(p, d) && |t.data| == |t.parents| && AllRecorded(t.data, BelowSet(t.parents, p))
    ensures Emits(t.data, Preorder(t.parents, p, d), elems)
    decreases Deeper(t.parents, d)
  {
    GatheredEnds(t.parents, p, d);
    BelowStep(t.parents, p, p);
    elems := [t.data[p].perfetto.value];
    for k := 0 to |t.child[p]|
      invariant Emits(t.data, GatheredSpans(t.parents, p, d, k), elems)
    {
      GatheredStep(t.parents, p, d, k);
      WalkedStep(t.parents, p, d, k);
      var more := GatherOneSpan(t, t.child[p][k], d + 1);
      EmitsConcat(t.data, GatheredSpans(t.parents, p, d, k), Preorder(t.parents, Kid(t.parents, p, k), d + 1),
                  elems, more);
      elems := elems + more;
    }
  }

  ghost predicate CanGather(t: Trace, all: seq<nat>)
    reads t
  {
    && t.Linked() && |t.data| == |t.parents|
    && AtDepth(t.parents, all, 2) && AllConverted(t.parents, t.data, all)
  }

  /** The records of one request, appended to what was gathered before. */
  method GatherRequest(t: Trace, list: seq<nat>, before: seq<PerfettoSpan>, ghost done: seq<nat>, ghost all: seq<nat>)
    returns (elems: seq<PerfettoSpan>)
    requires CanGather(t, all) && done + list <= all
    requires AtDepth(t.parents, done, 2) && AtDepth(t.parents, done + list, 2)
    requires Emits(t.data, PreorderAll(t.parents, done, 2), before)
    ensures Emits(t.data, PreorderAll(t.parents, done + list, 2), elems)
  {
    ghost var some := done + list;
    elems := before;
    AppendEnds(done, list);
    for k := 0 to |list|
      invariant Emits(t.data, PreorderAll(t.parents, some[..|done| + k], 2), elems)
    {
      assert some[|done| + k] == list[k] == all[|done| + k];
      ConvertedBelow(t.parents, t.data, all, |done| + k);
      PreorderStep(t.parents, some, |done| + k, 2);
      var more := GatherOneSpan(t, list[k], 2);
      EmitsConcat(t.data, PreorderAll(t.parents, some[..|done| + k], 2), Preorder(t.parents, list[k], 2), elems, more);
      elems := elems + more;
    }
    assert some[..|done| + |list|] == some;
  }

  /** gather_all_perfetto_elems for engine spans: request by request, span by span, in preorder. */
  method GatherAll(t: Trace, roots: seq<nat>) returns (elems: seq<PerfettoSpan>)
    requires forall k :: 0 <= k < |roots| ==> roots[k] in t.spans
    requires CanGather(t, Lists(t.spans, roots))
    ensures Emits(t.data, PreorderAll(t.parents, Lists(t.spans, roots), 2), elems)
  {
    ghost var all := Lists(t.spans, roots);
    elems := [];
    for k := 0 to |roots|
      invariant AtDepth(t.parents, Lists(t.spans, roots[..k]), 2)
      invariant Emits(t.data, PreorderAll(t.parents, Lists(t.spans, roots[..k]), 2), elems)
    {
      ListsStep(t.spans, roots, k);
      assert forall j :: 0 <= j < |Lists(t.spans, roots[..k + 1])| ==> Lists(t.spans, roots[..k + 1])[j] == all[j];
      elems := GatherRequest(t, t.spans[roots[k]], elems, Lists(t.spans, roots[..k]), all);
    }
    assert roots[..|roots|] == roots;
  }

  // ----- which spans are emitted -----

  /** The span is reached from the root list through a thread span. */
  ghost predicate Reached(keys: seq<Key>, i: nat) {
    exists p :: RootedPath(keys, p) && |p| >= 3 && p[|p| - 1] == i
  }

  lemma {:induction false} ExtendPath(keys: seq<Key>, p: seq<nat>, i: nat, k: nat)
    requires RootedPath(keys, p) && i < |keys|
    requires Follow(ParentLinks(keys), i, k) == Some(p[|p| - 1])
    ensures exists q :: RootedPath(keys, q) && |q| == |p| + k && q[|q| - 1] == i
    decreases k
  {
    var g := ParentLinks(keys);
    if k != 0 {
      FollowDefined(g, i, k, k - 1);
      FollowPlus(g, i, k - 1, 1);
      var x := Follow(g, i, k - 1).value;
      assert g[x] == Some(p[|p| - 1]) by {
        assert Follow(g, x, 1) == Some(p[|p| - 1]);
      }
      assert RootedPath(keys, p + [x]);
      ExtendPath(keys, p + [x], i, k - 1);
    }
  }

  lemma ReachedIsGathered(keys: seq<Key>, spans: map<nat, seq<nat>>, p: seq<nat>)
    requires ListsOk(ParentLinks(keys), spans, Roots(keys, |keys|)) && RootedPath(keys, p) && |p| >= 3
    ensures BelowAny(ParentLinks(keys), p[|p| - 1], Lists(spans, Roots(keys, |keys|)))
  {
    var g, roots := ParentLinks(keys), Roots(keys, |keys|);
    PathIsChain(keys, p, |p| - 3);
    assert g[p[1]] == Some(p[0]) && g[p[2]] == Some(p[1]);
    ListsMembers(g, spans, roots, p[2]);
    assert p[0] in roots && TopOf(g, p[2], p[0]);
    assert Below(g, p[|p| - 1], p[2]);
  }

  /** The walk from a request to a span directly below one of its thread spans. */
  lemma TopPath(keys: seq<Key>, c: nat, r: nat) returns (p: seq<nat>)
    requires r in Roots(keys, |keys|) && TopOf(ParentLinks(keys), c, r)
    ensures RootedPath(keys, p) && |p| == 3 && p[2] == c
  {
    var g := ParentLinks(keys);
    p := [r, g[c].value, c];
    assert ParentOf(keys, p[1]) == g[p[1]] && ParentOf(keys, p[2]) == g[p[2]];
  }

  lemma GatheredIsReached(keys: seq<Key>, spans: map<nat, seq<nat>>, i: nat, c: nat)
    requires ListsOk(ParentLinks(keys), spans, Roots(keys, |keys|))
    requires c in Lists(spans, Roots(keys, |keys|)) && Below(ParentLinks(keys), i, c)
    ensures Reached(keys, i)
  {
    var g, roots := ParentLinks(keys), Roots(keys, |keys|);
    ListsMembers(g, spans, roots, c);
    var r: nat :| r in roots && TopOf(g, c, r);
    var p := TopPath(keys, c, r);
    var k: nat :| Follow(g, i, k) == Some(c);
    ExtendPath(keys, p, i, k);
  }

  /** The gathered spans are those on a path from a request through a thread span. */
  lemma GatheredIffReached(keys: seq<Key>, spans: map<nat, seq<nat>>, i: nat)
    requires ListsOk(ParentLinks(keys), spans, Roots(keys, |keys|))
    ensures BelowAny(ParentLinks(keys), i, Lists(spans, Roots(keys, |keys|))) <==> Reached(keys, i)
  {
    var g, roots := ParentLinks(keys), Roots(keys, |keys|);
    if Reached(keys, i) {
      var p :| RootedPath(keys, p) && |p| >= 3 && p[|p| - 1] == i;
      ReachedIsGathered(keys, spans, p);
    }
    if BelowAny(g, i, Lists(spans, roots)) {
      var c: nat :| c in Lists(spans, roots) && Below(g, i, c);
      GatheredIsReached(keys, spans, i, c);
    }
  }

  // ----- the whole conversion -----

  ghost function ParentTable(input: seq<InputSpan>): (g: Links)
    ensures Closed(g) && |g| == |input|
  {
    ParentLinks(Keys(input))
  }

  ghost function RequestsIn(input: seq<InputSpan>): seq<nat> {
    Roots(Keys(input), |input|)
  }

  /** A span is a request exactly by its module attribute, wherever its parent id points; any other
      span is a child of the last span that carries its parent id, if one does. */
  lemma ParentsExact(input: seq<InputSpan>, i: nat, p: nat)
    requires i < |input|
    ensures var request := "module" in input[i].attributes && input[i].attributes["module"] == "sglang::request";
            && (i in RequestsIn(input) <==> request)
            && (ParentTable(input)[i] == Some(p) <==>
                  && !request && p < |input| && input[p].spanId == input[i].parentSpanId
                  && forall q :: p < q < |input| ==> input[q].spanId != input[i].parentSpanId)
  {
    var keys := Keys(input);
    LastWithIdMeans(keys, input[i].parentSpanId);
    assert forall q {:trigger input[q]} :: 0 <= q < |input| ==> keys[q].id == input[q].spanId;
    assert forall q {:trigger keys[q]} :: 0 <= q < |input| ==> keys[q].id == input[q].spanId;
  }

  lemma RequestsAreRoots(input: seq<InputSpan>)
    ensures AreRoots(ParentTable(input), RequestsIn(input))
  {
    var keys, roots := Keys(input), RequestsIn(input);
    RootsNoDup(keys, |keys|);
    forall k | 0 <= k < |roots|
      ensures roots[k] < |keys| && ParentTable(input)[roots[k]].None?
    {
      assert roots[k] in roots;
      assert ParentTable(input)[roots[k]] == ParentOf(keys, roots[k]);
    }
  }

  ghost function LoadedData(input: seq<InputSpan>): (data: seq<SpanData>)
    ensures |data| == |input| && forall i :: 0 <= i < |input| ==> data[i] == Loaded(input[i])
  {
    seq(|input|, i requires 0 <= i < |input| => Loaded(input[i]))
  }

  ghost function NamesOf(input: seq<InputSpan>): (names: seq<string>)
    ensures |names| == |input| && forall i :: 0 <= i < |input| ==> names[i] == input[i].name
  {
    seq(|input|, i requires 0 <= i < |input| => input[i].name)
  }

  /** The fields of all spans after conversion and before the layout. */
  ghost function AfterConversion(input: seq<InputSpan>, env: Env): (data: seq<SpanData>)
    ensures |data| == |input|
  {
    RequestsAreRoots(input);
    TopsNoDup(ParentTable(input), RequestsIn(input));
    ConvertTops(LoadedData(input), NamesOf(input), ParentTable(input), env, Tops(ParentTable(input), RequestsIn(input)))
  }

  lemma TopsMembers(g: Links, roots: seq<nat>, s: nat)
    requires Closed(g)
    ensures s in Tops(g, roots) <==> exists r: nat :: r in roots && TopOf(g, s, r)
  {
    KidsOfMembers(g, KidsOf(g, roots), s);
    if s < |g| && g[s].Some? {
      KidsOfMembers(g, roots, g[s].value);
    }
  }

  lemma TopsAreLists(g: Links, spans: map<nat, seq<nat>>, roots: seq<nat>)
    requires Closed(g) && ListsOk(g, spans, roots)
    ensures BelowSets(g, Tops(g, roots)) == BelowSets(g, Lists(spans, roots))
  {
    forall s: nat
      ensures s in Tops(g, roots) <==> s in Lists(spans, roots)
    {
      TopsMembers(g, roots, s);
      ListsMembers(g, spans, roots, s);
    }
    forall i: nat
      ensures i in BelowSets(g, Tops(g, roots)) <==> i in BelowSets(g, Lists(spans, roots))
    {
      BelowSetsMembers(g, Tops(g, roots), i);
      BelowSetsMembers(g, Lists(spans, roots), i);
    }
  }

  /** What conversion makes of a span under a thread span: its own request's rid and its own
      thread's pid, the end lowered by 1000 once. */
  lemma AfterConversionAt(input: seq<InputSpan>, env: Env, spans: map<nat, seq<nat>>, i: nat)
    requires ListsOk(ParentTable(input), spans, RequestsIn(input))
    requires i in BelowSets(ParentTable(input), Lists(spans, RequestsIn(input)))
    ensures i < |input| && UnderThread(ParentTable(input), i)
    ensures AfterConversion(input, env)[i]
         == ConvertedData(LoadedData(input), NamesOf(input), ParentTable(input), env, i)
  {
    var g, roots := ParentTable(input), RequestsIn(input);
    RequestsAreRoots(input);
    TopsNoDup(g, roots);
    TopsAreLists(g, spans, roots);
    DepthTwoUnderThread(g, Tops(g, roots));
  }

  /** Everything a run of the converter leaves behind.  listed: the spans directly below thread
      spans, as conversion lists them.  spans: the same, sorted.  order: the requests in layout
      order. */
  datatype Journal = Journal(
    input: seq<InputSpan>,
    env: Env,
    listed: map<nat, seq<nat>>,
    spans: map<nat, seq<nat>>,
    order: seq<nat>,
    data: seq<SpanData>,
    ops: seq<Op>,
    elems: seq<PerfettoSpan>)

  ghost predicate Completed(j: Journal) {
    var g, roots := ParentTable(j.input), RequestsIn(j.input);
    && AreRoots(g, roots) && ListsOk(g, j.spans, roots)
    && AreRoots(g, j.order) && ListsOk(g, j.spans, j.order)
    && SpanLists(g, j.listed, roots, |roots|)
    && ListsSorted(AfterConversion(j.input, j.env), j.listed, j.spans, roots)
    && SortedCopy(roots, j.order, FirstKey(AfterConversion(j.input, j.env), j.spans))
    && j.ops == LayoutOps(AfterConversion(j.input, j.env), j.spans, j.order)
    && LaidOut(g, AfterConversion(j.input, j.env), j.data, Lists(j.spans, j.order), Run(j.ops).log)
    && AtDepth(g, Lists(j.spans, roots), 2)
    && Emits(j.data, PreorderAll(g, Lists(j.spans, roots), 2), j.elems)
  }

  /** The listing and the layout list of request number k. */
  lemma RequestLists(j: Journal, k: nat)
    requires Completed(j) && k < |RequestsIn(j.input)|
    ensures var g, r := ParentTable(j.input), RequestsIn(j.input)[k];
            && r in j.listed && j.listed[r] == KidsOf(g, Kids(g, r, |g|))
            && r in j.spans && SortedCopy(j.listed[r], j.spans[r], StartKey(AfterConversion(j.input, j.env)))
  {
  }

  lemma RequestOrder(j: Journal)
    requires Completed(j)
    ensures ListsOk(ParentTable(j.input), j.spans, RequestsIn(j.input))
    ensures multiset(j.order) == multiset(RequestsIn(j.input))
  {
  }

  /** The spans emitted, in output order. */
  ghost function Emitted(j: Journal): seq<nat>
    requires Completed(j)
  {
    PreorderAll(ParentTable(j.input), Lists(j.spans, RequestsIn(j.input)), 2)
  }

  /** A span is emitted once if it is reached through a thread span, and never otherwise. */
  lemma EmittedOnce(j: Journal)
    requires Completed(j)
    ensures NoDup(Emitted(j)) && |j.elems| == |Emitted(j)|
    ensures forall i: nat :: i in Emitted(j) <==> Reached(Keys(j.input), i)
  {
    var g, roots := ParentTable(j.input), RequestsIn(j.input);
    ListsNoDup(g, j.spans, roots);
    PreorderAllNoDup(g, Lists(j.spans, roots), 2);
    forall i: nat
      ensures i in Emitted(j) <==> Reached(Keys(j.input), i)
    {
      PreorderAllMembers(g, Lists(j.spans, roots), 2, i);
      GatheredIffReached(Keys(j.input), j.spans, i);
    }
  }

  /** The lane of an emitted span is that of the span under its thread span. */
  lemma EmittedLane(j: Journal, n: nat) returns (m: nat)
    requires Completed(j) && n < |j.elems|
    ensures var placed, i := Lists(j.spans, j.order), Emitted(j)[n];
            && m < |placed| == |Run(j.ops).log|
            && i in BelowSet(ParentTable(j.input), placed[m])
            && MovedTo(AfterConversion(j.input, j.env)[i], j.data[i], Run(j.ops).log[m].line)
            && j.data[i].perfetto == Some(j.elems[n])
  {
    var g, roots, i := ParentTable(j.input), RequestsIn(j.input), Emitted(j)[n];
    assert i in Emitted(j);
    PreorderAllMembers(g, Lists(j.spans, roots), 2, i);
    RootsPermuted(g, j.spans, roots, j.order);
    var c: nat :| c in Lists(j.spans, roots) && Below(g, i, c);
    var placed := Lists(j.spans, j.order);
    assert c in placed;
    m :| 0 <= m < |placed| && placed[m] == c;
  }

  /** The arguments of a record: the span's own attributes, with rid and bootstrap room of its
      request where the request has them. */
  ghost predicate ArgsOf(args: map<string, string>, own: map<string, string>, request: map<string, string>) {
    && (Get(request, "rid") != "" ==> Get(args, "rid") == Get(request, "rid"))
    && (Get(request, "bootstrap_room") != "" ==> Get(args, "bootstrap_room") == Get(request, "bootstrap_room"))
    && (forall key :: key != "rid" && key != "bootstrap_room" ==> Get(args, key) == Get(own, key))
    && args.Keys <= own.Keys + {"rid", "bootstrap_room"} && own.Keys <= args.Keys
  }

  lemma ConvertedArgs(d: SpanData, name: string, root: SpanData, thread: SpanData, env: Env)
    ensures ArgsOf(ConvertData(d, name, JobFor(root, thread, env)).perfetto.value.args, d.attributes, root.attributes)
  {
    assert "rid" != "bootstrap_room" by {
      assert "rid"[0] != "bootstrap_room"[0];
    }
  }

  /** e is the record of span i: exact times after one trim of 1000 ns, the pid of the span's own
      thread span, and the arguments of its own request. */
  ghost predicate RecordOf(input: seq<InputSpan>, env: Env, i: nat, e: PerfettoSpan) {
    var g := ParentTable(input);
    && i < |input| && UnderThread(g, i)
    && e.name == input[i].name
    && e.ts == (input[i].start - env.baseline) as real / 1000.0
    && e.dur == (input[i].end - 1000 - input[i].start) as real / 1000.0
    && e.pid == env.parse(Get(input[ThreadOf(g, i)].attributes, "pid"))
    && ArgsOf(e.args, input[i].attributes, input[RootOf(g, i)].attributes)
  }

  lemma EmittedListed(j: Journal, n: nat)
    requires Completed(j) && n < |Emitted(j)|
    ensures Emitted(j)[n] in BelowSets(ParentTable(j.input), Lists(j.spans, RequestsIn(j.input)))
  {
    var g, roots, i := ParentTable(j.input), RequestsIn(j.input), Emitted(j)[n];
    assert i in Emitted(j);
    PreorderAllMembers(g, Lists(j.spans, roots), 2, i);
    BelowSetsMembers(g, Lists(j.spans, roots), i);
  }

  /** What conversion makes of a span, whichever lane it is put on later. */
  lemma ConvertedRecord(input: seq<InputSpan>, env: Env, i: nat, line: nat)
    requires i < |input| && UnderThread(ParentTable(input), i)
    ensures var d := ConvertedData(LoadedData(input), NamesOf(input), ParentTable(input), env, i);
            d.perfetto.Some? && RecordOf(input, env, i, d.perfetto.value.(tid := line))
  {
    var g, data := ParentTable(input), LoadedData(input);
    ConvertedArgs(data[i], NamesOf(input)[i], data[RootOf(g, i)], data[ThreadOf(g, i)], env);
  }

  lemma EmittedRecord(j: Journal, n: nat)
    requires Completed(j) && n < |j.elems|
    ensures RecordOf(j.input, j.env, Emitted(j)[n], j.elems[n])
  {
    var i := Emitted(j)[n];
    var m := EmittedLane(j, n);
    EmittedListed(j, n);
    AfterConversionAt(j.input, j.env, j.spans, i);
    ConvertedRecord(j.input, j.env, i, Run(j.ops).log[m].line);
  }

  lemma {:induction false} BelowTransitive(g: Links, x: nat, y: nat, z: nat)
    requires Closed(g) && Below(g, x, y) && Below(g, y, z)
    ensures Below(g, x, z)
  {
    var a: nat :| Follow(g, x, a) == Some(y);
    var b: nat :| Follow(g, y, b) == Some(z);
    FollowPlus(g, x, a, b);
    assert Follow(g, x, a + b) == Some(z);
  }

  /** A span and everything below it share process and lane. */
  lemma SubtreeSharesLane(j: Journal, m: nat, n: nat)
    requires Completed(j) && m < |j.elems| && n < |j.elems|
    requires Below(ParentTable(j.input), Emitted(j)[m], Emitted(j)[n])
    ensures j.elems[m].tid == j.elems[n].tid && j.elems[m].pid == j.elems[n].pid
  {
    var g, placed := ParentTable(j.input), Lists(j.spans, j.order);
    var a := EmittedLane(j, m);
    var b := EmittedLane(j, n);
    BelowTransitive(g, Emitted(j)[m], Emitted(j)[n], placed[b]);
    ListsNoDup(g, j.spans, j.order);
    DisjointBelow(g, Emitted(j)[m], placed[a], placed[b], 2);
    assert a == b;
    EmittedRecord(j, m);
    EmittedRecord(j, n);
    SameThread(g, Emitted(j)[m], Emitted(j)[n], placed[a]);
  }

  lemma SameThread(g: Links, x: nat, y: nat, top: nat)
    requires Closed(g) && top < |g| && Grounded(g, top, 2) && Below(g, x, top) && Below(g, y, top)
    ensures UnderThread(g, x) && UnderThread(g, y) && ThreadOf(g, x) == ThreadOf(g, y)
  {
    var thread := g[top].value;
    var root := g[thread].value;
    BelowTopUnderThread(g, top, thread, root, x);
    BelowTopUnderThread(g, top, thread, root, y);
  }

  /** The span lies directly below a thread span of a request. */
  ghost predicate IsTop(input: seq<InputSpan>, s: nat) {
    exists r: nat :: r in RequestsIn(input) && TopOf(ParentTable(input), s, r)
  }

  /** A placement in the log is that of a span directly below a thread span, with its trimmed times. */
  lemma LogEntry(j: Journal, m: nat)
    requires Completed(j) && m < |Run(j.ops).log|
    ensures var s := Lists(j.spans, j.order)[m];
            && |Lists(j.spans, j.order)| == |Run(j.ops).log|
            && s < |j.input| && IsTop(j.input, s)
            && Run(j.ops).log[m].at == Interval(j.input[s].start, j.input[s].end - TRIM)
  {
    var g, roots, s := ParentTable(j.input), RequestsIn(j.input), Lists(j.spans, j.order)[m];
    assert s in Lists(j.spans, j.order);
    RootsPermuted(g, j.spans, roots, j.order);
    ListsMembers(g, j.spans, roots, s);
    assert PlacementOf(AfterConversion(j.input, j.env)[s], Run(j.ops).log[m]);
    BelowStep(g, s, s);
    BelowSetsMembers(g, Lists(j.spans, roots), s);
    AfterConversionAt(j.input, j.env, j.spans, s);
  }

  /** The emitted record of a placed span names the process and the lane of its placement. */
  lemma TopPlacement(j: Journal, n: nat) returns (m: nat)
    requires Completed(j) && n < |j.elems| && IsTop(j.input, Emitted(j)[n])
    ensures m < |Run(j.ops).log| == |Lists(j.spans, j.order)| && Lists(j.spans, j.order)[m] == Emitted(j)[n]
    ensures Run(j.ops).log[m].pid == j.elems[n].pid && Run(j.ops).log[m].line == j.elems[n].tid
  {
    var g, s, placed := ParentTable(j.input), Emitted(j)[n], Lists(j.spans, j.order);
    m := EmittedLane(j, n);
    var r: nat :| r in RequestsIn(j.input) && TopOf(g, s, r);
    ListsNoDup(g, j.spans, j.order);
    TopGrounded(g, s, r);
    BelowStep(g, s, s);
    DisjointBelow(g, s, s, placed[m], 2);
    assert PlacementOf(AfterConversion(j.input, j.env)[s], Run(j.ops).log[m]);
  }

  /** The line of every placement has a slot record. */
  lemma PlacementHasSlot(ops: seq<Op>, m: nat)
    requires m < |Run(ops).log|
    ensures Run(ops).log[m].line in SlotLines(Run(ops).slots, Run(ops).log[m].pid)
  {
    var e := Run(ops).log[m];
    RunRecorded(ops);
    SlotsNumberLanes(ops, e.pid);
    var lines := OneTo(|LanesOf(Run(ops), e.pid)|);
    assert lines[e.line - 1] == e.line;
  }

  /** Every lane that the output names has a slot record. */
  lemma LanesHaveSlots(j: Journal, n: nat)
    requires Completed(j) && n < |j.elems|
    ensures j.elems[n].tid in SlotLines(Run(j.ops).slots, j.elems[n].pid)
  {
    var m := EmittedLane(j, n);
    PlacementHasSlot(j.ops, m);
    PlacedPid(j, m, Emitted(j)[n]);
  }

  lemma PlacedPid(j: Journal, m: nat, i: nat)
    requires Completed(j) && m < |Run(j.ops).log|
    requires i in BelowSet(ParentTable(j.input), Lists(j.spans, j.order)[m])
    ensures var c := AfterConversion(j.input, j.env);
            i < |c| && c[i].perfetto.Some? && c[i].perfetto.value.pid == Run(j.ops).log[m].pid
  {
    var g, roots, s := ParentTable(j.input), RequestsIn(j.input), Lists(j.spans, j.order)[m];
    LogEntry(j, m);
    var r: nat :| r in roots && TopOf(g, s, r);
    ListsMembers(g, j.spans, roots, s);
    BelowStep(g, s, s);
    BelowSetsMembers(g, Lists(j.spans, roots), s);
    BelowSetsMembers(g, Lists(j.spans, roots), i);
    AfterConversionAt(j.input, j.env, j.spans, s);
    AfterConversionAt(j.input, j.env, j.spans, i);
    TopGrounded(g, s, r);
    SameThread(g, s, i, s);
    assert PlacementOf(AfterConversion(j.input, j.env)[s], Run(j.ops).log[m]);
  }

  // ----- the output as a whole -----

  /** The spans that a conversion emits, a function of ids and parent ids alone. */
  ghost function ReachedSpans(input: seq<InputSpan>): set<nat> {
    set i | i in UpTo(|input|) && Reached(Keys(input), i)
  }

  ghost predicate HaveSlots(elems: seq<PerfettoSpan>, slots: seq<(int, nat)>) {
    forall n :: 0 <= n < |elems| ==> elems[n].tid in SlotLines(slots, elems[n].pid)
  }

  /** Every record is that of a reached span. */
  ghost predicate AreRecords(input: seq<InputSpan>, env: Env, elems: seq<PerfettoSpan>) {
    forall n :: 0 <= n < |elems| ==> exists i: nat :: i in ReachedSpans(input) && RecordOf(input, env, i, elems[n])
  }

  /** Every reached span has a record. */
  ghost predicate HaveRecords(input: seq<InputSpan>, env: Env, elems: seq<PerfettoSpan>) {
    forall i: nat :: i in ReachedSpans(input) ==> exists n :: 0 <= n < |elems| && RecordOf(input, env, i, elems[n])
  }

  /** One record for each reached span and no others, each on a lane with a slot record. */
  ghost predicate IsOutput(input: seq<InputSpan>, env: Env, elems: seq<PerfettoSpan>, slots: seq<(int, nat)>) {
    && |elems| == |ReachedSpans(input)| && HaveSlots(elems, slots)
    && AreRecords(input, env, elems) && HaveRecords(input, env, elems)
  }

  lemma ReachedBelow(input: seq<InputSpan>, i: nat)
    ensures i in ReachedSpans(input) <==> Reached(Keys(input), i)
  {
    if Reached(Keys(input), i) {
      var p :| RootedPath(Keys(input), p) && |p| > 2 && p[|p| - 1] == i;
      assert i < |input|;
    }
  }

  lemma {:induction false} ListSize(ids: seq<nat>, all: set<nat>)
    requires NoDup(ids) && forall i: nat :: i in ids <==> i in all
    ensures |ids| == |all|
  {
    if ids == [] {
      assert all == {};
    } else {
      var rest := ids[1..];
      forall i: nat
        ensures i in rest <==> i in all - {ids[0]}
      {
        assert ids == [ids[0]] + rest;
      }
      assert ids[0] in all;
      ListSize(rest, all - {ids[0]});
    }
  }

  lemma EmittedAreReached(j: Journal)
    requires Completed(j)
    ensures NoDup(Emitted(j)) && |j.elems| == |Emitted(j)| == |ReachedSpans(j.input)|
    ensures forall i: nat :: i in Emitted(j) <==> i in ReachedSpans(j.input)
  {
    EmittedOnce(j);
    forall i: nat
      ensures i in Emitted(j) <==> i in ReachedSpans(j.input)
    {
      ReachedBelow(j.input, i);
    }
    ListSize(Emitted(j), ReachedSpans(j.input));
  }

  lemma AllHaveSlots(j: Journal)
    requires Completed(j)
    ensures HaveSlots(j.elems, Run(j.ops).slots)
  {
    forall n | 0 <= n < |j.elems|
      ensures j.elems[n].tid in SlotLines(Run(j.ops).slots, j.elems[n].pid)
    {
      LanesHaveSlots(j, n);
    }
  }

  lemma AllAreRecords(j: Journal)
    requires Completed(j)
    ensures AreRecords(j.input, j.env, j.elems)
  {
    EmittedAreReached(j);
    forall n | 0 <= n < |j.elems|
      ensures exists i: nat :: i in ReachedSpans(j.input) && RecordOf(j.input, j.env, i, j.elems[n])
    {
      EmittedRecord(j, n);
      assert Emitted(j)[n] in Emitted(j);
    }
  }

  lemma AllSpansRecorded(j: Journal)
    requires Completed(j)
    ensures HaveRecords(j.input, j.env, j.elems)
  {
    EmittedAreReached(j);
    forall i: nat | i in ReachedSpans(j.input)
      ensures exists n :: 0 <= n < |j.elems| && RecordOf(j.input, j.env, i, j.elems[n])
    {
      var n :| 0 <= n < |Emitted(j)| && Emitted(j)[n] == i;
      EmittedRecord(j, n);
    }
  }

  lemma CompletedOutput(j: Journal)
    requires Completed(j)
    ensures IsOutput(j.input, j.env, j.elems, Run(j.ops).slots)
  {
    EmittedAreReached(j);
    AllHaveSlots(j);
    AllAreRecords(j);
    AllSpansRecorded(j);
  }

  /** What the source demands of its input: the attributes it reads without a default, and at
      least one span under the thread spans of every request. */
  ghost predicate InputOk(input: seq<InputSpan>) {
    var g, roots := ParentTable(input), RequestsIn(input);
    && (forall r :: r in roots ==> "rid" in input[r].attributes)
    && (forall i: nat :: i < |input| && g[i].Some? && g[i].value in roots ==> ThreadAttributes(Loaded(input[i])))
    && (forall r :: r in roots ==> exists s: nat :: TopOf(g, s, r))
  }

  lemma InputHasAttributes(t: Trace, input: seq<InputSpan>)
    requires InputOk(input) && t.Linked() && t.parents == ParentTable(input) && t.data == LoadedData(input)
    ensures HasAttributes(t, RequestsIn(input))
  {
    var g, roots := ParentTable(input), RequestsIn(input);
    RequestsAreRoots(input);
    forall k | 0 <= k < |roots|
      ensures RootAttributes(t.data[roots[k]])
    {
      assert roots[k] in roots;
    }
    forall k, i | 0 <= k < |roots| && 0 <= i < |t.child[roots[k]]|
      ensures t.child[roots[k]][i] < |t.data| && ThreadAttributes(t.data[t.child[roots[k]][i]])
    {
      assert roots[k] in roots;
      assert t.child[roots[k]][i] in Kids(g, roots[k], |g|);
    }
  }

  lemma ReadyForLayout(input: seq<InputSpan>, env: Env, spans: map<nat, seq<nat>>)
    requires InputOk(input)
    requires SpanLists(ParentTable(input), spans, RequestsIn(input), |RequestsIn(input)|)
    ensures var g, roots := ParentTable(input), RequestsIn(input);
            && AreRoots(g, roots) && ListsOk(g, spans, roots)
            && AllConverted(g, AfterConversion(input, env), Lists(spans, roots))
            && forall k :: 0 <= k < |roots| ==> spans[roots[k]] != []
  {
    var g, roots := ParentTable(input), RequestsIn(input);
    RequestsAreRoots(input);
    forall k | 0 <= k < |roots|
      ensures roots[k] in spans && ListFor(g, spans[roots[k]], roots[k]) && spans[roots[k]] != []
    {
      assert roots[k] in roots;
      ListForTops(g, roots[k]);
      var s: nat :| TopOf(g, s, roots[k]);
      assert s in spans[roots[k]];
    }
    forall i: nat | i in BelowSets(g, Lists(spans, roots))
      ensures i < |input| && AfterConversion(input, env)[i].perfetto.Some?
    {
      AfterConversionAt(input, env, spans, i);
    }
  }

  /** LaidOut keeps every record. */
  lemma StillConverted(g: Links, was: seq<SpanData>, now: seq<SpanData>, placed: seq<nat>, log: seq<Placement>,
                       all: seq<nat>)
    requires Closed(g) && |was| == |g| && LaidOut(g, was, now, placed, log) && AllConverted(g, was, all)
    ensures AllConverted(g, now, all)
  {
    forall i: nat | i in BelowSets(g, all)
      ensures i < |now| && now[i].perfetto.Some?
    {
      if i in BelowSets(g, placed) {
        BelowSetsMembers(g, placed, i);
        var c: nat :| c in placed && Below(g, i, c);
        var n :| 0 <= n < |placed| && placed[n] == c;
        assert MovedTo(was[i], now[i], log[n].line);
      }
    }
  }

  /** The conversion of a list of engine spans.  No assumption is made on ids and parent ids. */
  method ConvertTrace(input: seq<InputSpan>, env: Env)
    returns (elems: seq<PerfettoSpan>, slots: seq<(int, nat)>, ghost j: Journal)
    requires InputOk(input)
    ensures j.input == input && j.env == env && j.elems == elems && Completed(j)
    ensures slots == Run(j.ops).slots
    ensures IsOutput(input, env, elems, slots)
  {
    ghost var g := ParentTable(input);
    var t := new Trace(input);
    assert t.data == LoadedData(input) && t.names == NamesOf(input);
    var roots := t.BuildOtelSpanTree();
    InputHasAttributes(t, input);
    GeneratePerfettoSpan(t, roots, env);
    ghost var converted := t.data;
    assert converted == AfterConversion(input, env);
    ReadyForLayout(input, env, t.spans);
    var lay := new SpanLayout();
    ghost var before := t.spans;
    ghost var order, ops := GenerateLayout(t, lay, roots);
    ConvertedResorted(g, converted, before, t.spans, roots);
    RootsPermuted(g, t.spans, roots, order);
    ListsNoDup(g, t.spans, roots);
    StillConverted(g, converted, t.data, Lists(t.spans, order), lay.log, Lists(t.spans, roots));
    elems := GatherAll(t, roots);
    slots := lay.slots;
    j := Journal(input, env, before, t.spans, order, t.data, ops, elems);
    CompletedOutput(j);
  }
}
