/** The layout pass of the trace converter: sort the spans of each request, give every span
    below a thread span a lane, and move its subtree there. */
module TraceLayout {
  import opened Base
  import opened Chains
  import opened SpanForest
  import opened Sorting
  import opened TraceSpans
  import opened TraceConverter
  import opened LaneLayout

  // ----- the span lists of the requests -----

  /** s lies directly below a thread span of request r. */
  ghost predicate TopOf(g: Links, s: nat, r: nat)
    requires Closed(g)
  {
    s < |g| && g[s].Some? && g[g[s].value] == Some(r)
  }

  ghost predicate ListFor(g: Links, list: seq<nat>, r: nat)
    requires Closed(g)
  {
    NoDup(list) && forall s: nat :: s in list <==> TopOf(g, s, r)
  }

  lemma ListForTops(g: Links, r: nat)
    requires Closed(g)
    ensures ListFor(g, KidsOf(g, Kids(g, r, |g|)), r)
  {
    var ks := Kids(g, r, |g|);
    KidsNoDup(g, r, |g|);
    KidsOfNoDup(g, ks);
    forall s: nat
      ensures s in KidsOf(g, ks) <==> TopOf(g, s, r)
    {
      KidsOfMembers(g, ks, s);
    }
  }

  lemma ListForSorted(g: Links, list: seq<nat>, sorted: seq<nat>, r: nat, key: nat -> int)
    requires Closed(g) && ListFor(g, list, r) && SortedCopy(list, sorted, key)
    ensures ListFor(g, sorted, r)
  {
    SameMembers(list, sorted);
  }

  /** The span lists of the requests rs, one after the other. */
  function Lists(spans: map<nat, seq<nat>>, rs: seq<nat>): seq<nat>
    requires forall k :: 0 <= k < |rs| ==> rs[k] in spans
  {
    if rs == [] then [] else Lists(spans, rs[..|rs| - 1]) + spans[rs[|rs| - 1]]
  }

  ghost predicate ListsOk(g: Links, spans: map<nat, seq<nat>>, rs: seq<nat>)
    requires Closed(g)
  {
    forall k :: 0 <= k < |rs| ==> rs[k] in spans && ListFor(g, spans[rs[k]], rs[k])
  }

  lemma {:induction false} ListsMembers(g: Links, spans: map<nat, seq<nat>>, rs: seq<nat>, s: nat)
    requires Closed(g) && ListsOk(g, spans, rs)
    ensures s in Lists(spans, rs) <==> exists r: nat :: r in rs && TopOf(g, s, r)
  {
    if rs != [] {
      var n := |rs| - 1;
      ListsMembers(g, spans, rs[..n], s);
      assert rs == rs[..n] + [rs[n]];
      assert ListFor(g, spans[rs[n]], rs[n]);
    }
  }

  /** No span is listed twice, and all listed spans are two edges below a request. */
  lemma {:induction false} ListsNoDup(g: Links, spans: map<nat, seq<nat>>, rs: seq<nat>)
    requires Closed(g) && ListsOk(g, spans, rs) && AreRoots(g, rs)
    ensures NoDup(Lists(spans, rs)) && AtDepth(g, Lists(spans, rs), 2)
  {
    if rs != [] {
      var n := |rs| - 1;
      PrefixNoDup(rs[..n], rs);
      ListsNoDup(g, spans, rs[..n]);
      assert ListFor(g, spans[rs[n]], rs[n]);
      forall s: nat | s in Lists(spans, rs[..n])
        ensures s !in spans[rs[n]]
      {
        ListsMembers(g, spans, rs[..n], s);
      }
      NoDupConcat(Lists(spans, rs[..n]), spans[rs[n]]);
      forall k | 0 <= k < |spans[rs[n]]|
        ensures spans[rs[n]][k] < |g| && Grounded(g, spans[rs[n]][k], 2)
      {
        assert spans[rs[n]][k] in spans[rs[n]];
        TopGrounded(g, spans[rs[n]][k], rs[n]);
      }
    }
  }

  lemma TopGrounded(g: Links, s: nat, r: nat)
    requires Closed(g) && TopOf(g, s, r) && r < |g| && g[r].None?
    ensures Grounded(g, s, 2)
  {
    assert Grounded(g, r, 0);
    assert Grounded(g, g[s].value, 1);
  }

  // ----- the state of the layout -----

  /** The spans `placed` went to the lanes in `log`, subtrees included; the rest is unchanged. */
  ghost predicate LaidOut(g: Links, was: seq<SpanData>, now: seq<SpanData>, placed: seq<nat>, log: seq<Placement>)
    requires Closed(g) && |was| == |g|
  {
    && |now| == |was| && |log| == |placed|
    && (forall n :: 0 <= n < |placed| ==> placed[n] < |g| && PlacementOf(was[placed[n]], log[n]))
    && (forall n, i :: 0 <= n < |placed| && i in BelowSet(g, placed[n]) ==> MovedTo(was[i], now[i], log[n].line))
    && (forall i: nat :: i < |was| && i !in BelowSets(g, placed) ==> now[i] == was[i])
  }

  ghost predicate PlacementOf(d: SpanData, e: Placement) {
    d.perfetto.Some? && e.pid == d.perfetto.value.pid && e.at == Interval(d.start, d.end)
  }

  ghost predicate MovedTo(d: SpanData, d': SpanData, line: nat) {
    d.perfetto.Some? && d' == WithTid(d, line)
  }

  lemma LaidOutStep(g: Links, names: seq<string>, was: seq<SpanData>, now: seq<SpanData>, placed: seq<nat>,
                    log: seq<Placement>,
                    s: nat, e: Placement)
    requires Closed(g) && |was| == |names| == |g| && LaidOut(g, was, now, placed, log)
    requires NoDup(placed + [s]) && AtDepth(g, placed + [s], 2)
    requires s < |g| && PlacementOf(was[s], e)
    requires forall i :: i in BelowSet(g, s) ==> was[i].perfetto.Some?
    ensures LaidOut(g, was, EditAt(now, names, BelowSet(g, s), SetTid(e.line)), placed + [s], log + [e])
  {
    var all, now' := placed + [s], EditAt(now, names, BelowSet(g, s), SetTid(e.line));
    assert all[..|placed|] == placed && all[..|all|] == all;
    BelowSetsFresh(g, all, |placed|, 2);
    BelowSetsStep(g, all, |placed|);
    forall n, i | 0 <= n < |all| && i in BelowSet(g, all[n])
      ensures MovedTo(was[i], now'[i], (log + [e])[n].line)
    {
      if n < |placed| {
        assert MovedTo(was[i], now[i], log[n].line);
        BelowSetsContains(g, placed, n, i);
      } else {
        assert i !in BelowSets(g, placed);
      }
    }
  }

  lemma BelowSetsContains(g: Links, ss: seq<nat>, n: nat, i: nat)
    requires Closed(g) && n < |ss| && i in BelowSet(g, ss[n])
    ensures i in BelowSets(g, ss)
  {
    BelowSetsMembers(g, ss, i);
  }

  // ----- generate_perfetto_span_layout -----

  /** Everything below the spans `all` has been converted. */
  ghost predicate AllConverted(g: Links, was: seq<SpanData>, all: seq<nat>)
    requires Closed(g) && |was| == |g|
  {
    forall i :: i in BelowSets(g, all) ==> i < |was| && was[i].perfetto.Some?
  }

  /** The placement of a converted span, with the fields it had before the layout. */
  ghost function PutFor(was: seq<SpanData>, s: nat): Op {
    if s < |was| && was[s].perfetto.Some? then Put(was[s].perfetto.value.pid, Interval(was[s].start, was[s].end))
    else NewRequest
  }

  /** What the layout does for one request: no current lanes, then one placement for each span. */
  ghost function RequestOps(was: seq<SpanData>, list: seq<nat>): seq<Op> {
    if list == [] then [NewRequest]
    else RequestOps(was, list[..|list| - 1]) + [PutFor(was, list[|list| - 1])]
  }

  /** What the layout does for all requests, in order. */
  ghost function LayoutOps(was: seq<SpanData>, spans: map<nat, seq<nat>>, order: seq<nat>): seq<Op>
    requires forall k :: 0 <= k < |order| ==> order[k] in spans
  {
    if order == [] then []
    else LayoutOps(was, spans, order[..|order| - 1]) + RequestOps(was, spans[order[|order| - 1]])
  }

  lemma RequestOpsStep(was: seq<SpanData>, list: seq<nat>, k: nat, ops: seq<Op>)
    requires k < |list|
    ensures ops + RequestOps(was, list[..k + 1]) == ops + RequestOps(was, list[..k]) + [PutFor(was, list[k])]
  {
    assert list[..k + 1][..k] == list[..k];
  }

  lemma LayoutOpsStep(was: seq<SpanData>, spans: map<nat, seq<nat>>, order: seq<nat>, k: nat)
    requires k < |order| && forall j :: 0 <= j < |order| ==> order[j] in spans
    ensures LayoutOps(was, spans, order[..k + 1])
         == LayoutOps(was, spans, order[..k]) + RequestOps(was, spans[order[k]])
  {
    assert order[..k + 1][..k] == order[..k];
  }

  /** The body of the placement loop: one span and its subtree. */
  method PlaceOne(t: Trace, lay: SpanLayout, s: nat, ghost was: seq<SpanData>, ghost placed: seq<nat>,
                  ghost all: seq<nat>, ghost ops: seq<Op>)
    requires t.Linked() && lay.Valid() && |was| == |t.parents| == |t.data|
    requires LaidOut(t.parents, was, t.data, placed, lay.log) && lay.View() == Run(ops)
    requires NoDup(all) && AtDepth(t.parents, all, 2) && placed + [s] <= all && AllConverted(t.parents, was, all)
    modifies t`data, lay
    ensures lay.Valid() && |t.data| == |was|
    ensures LaidOut(t.parents, was, t.data, placed + [s], lay.log)
    ensures lay.View() == Run(ops + [PutFor(was, s)])
  {
    ghost var g, now, log := t.parents, t.data, lay.log;
    SpanFresh(g, placed, s, all);
    ConvertedBelow(g, was, all, |placed|);
    ghost var pid := was[s].perfetto.value.pid;
    assert now[s] == was[s];
    var line := lay.PlaceSpan(t.data[s].perfetto.value.pid, t.data[s].start, t.data[s].end);
    ghost var e := Placement(pid, line, Interval(was[s].start, was[s].end));
    RunSnoc(ops, Put(pid, e.at));
    assert AllRecorded(now, BelowSet(g, s)) by {
      assert forall i :: i in BelowSet(g, s) ==> now[i] == was[i];
    }
    t.SetSpanTid(s, line, 2);
    LaidOutStep(g, t.names, was, now, placed, log, s, e);
  }

  lemma SpanFresh(g: Links, placed: seq<nat>, s: nat, all: seq<nat>)
    requires Closed(g) && NoDup(all) && AtDepth(g, all, 2) && placed + [s] <= all
    ensures s < |g| && Grounded(g, s, 2) && NoDup(placed + [s]) && AtDepth(g, placed + [s], 2)
    ensures s in BelowSet(g, s)
    ensures BelowSets(g, placed) !! BelowSet(g, s)
  {
    var some := placed + [s];
    PrefixNoDup(some, all);
    assert forall k :: 0 <= k < |some| ==> some[k] == all[k];
    assert AtDepth(g, some, 2);
    assert some[|placed|] == s && some[..|placed|] == placed;
    BelowSetsFresh(g, some, |placed|, 2);
    BelowStep(g, s, s);
  }

  lemma ConvertedBelow(g: Links, was: seq<SpanData>, all: seq<nat>, n: nat)
    requires Closed(g) && |was| == |g| && AllConverted(g, was, all) && n < |all|
    ensures forall i :: i in BelowSet(g, all[n]) ==> was[i].perfetto.Some?
  {
    forall i: nat | i in BelowSet(g, all[n])
      ensures was[i].perfetto.Some?
    {
      BelowSetsContains(g, all, n, i);
    }
  }

  ghost predicate InProgress(t: Trace, lay: SpanLayout, was: seq<SpanData>, placed: seq<nat>, ops: seq<Op>)
    reads t, lay
  {
    && t.Linked() && lay.Valid() && |was| == |t.parents| == |t.data|
    && LaidOut(t.parents, was, t.data, placed, lay.log)
    && lay.View() == Run(ops)
  }

  ghost predicate Plan(t: Trace, was: seq<SpanData>, all: seq<nat>) {
    && Closed(t.parents) && |was| == |t.parents|
    && NoDup(all) && AtDepth(t.parents, all, 2) && AllConverted(t.parents, was, all)
  }

  /** The spans of one request, placed with a fresh set of current lanes. */
  method PlaceRequest(t: Trace, lay: SpanLayout, list: seq<nat>, ghost was: seq<SpanData>, ghost placed: seq<nat>,
                      ghost all: seq<nat>, ghost ops: seq<Op>)
    returns (ghost ops': seq<Op>)
    requires InProgress(t, lay, was, placed, ops)
    requires Plan(t, was, all) && placed + list <= all
    modifies t`data, lay
    ensures InProgress(t, lay, was, placed + list, ops')
    ensures ops' == ops + RequestOps(was, list)
  {
    lay.StartRequest();
    ops' := ops + [NewRequest];
    RunSnoc(ops, NewRequest);
    AppendEnds(placed, list);
    for k := 0 to |list|
      invariant InProgress(t, lay, was, placed + list[..k], ops')
      invariant ops' == ops + RequestOps(was, list[..k])
    {
      AppendStep(placed, list, k);
      RequestOpsStep(was, list, k, ops);
      PlaceOne(t, lay, list[k], was, placed + list[..k], all, ops');
      ops' := ops' + [PutFor(was, list[k])];
    }
    assert list[..|list|] == list;
  }

  lemma ListsStep(spans: map<nat, seq<nat>>, rs: seq<nat>, k: nat)
    requires k < |rs| && forall j :: 0 <= j < |rs| ==> rs[j] in spans
    ensures Lists(spans, rs[..k + 1]) == Lists(spans, rs[..k]) + spans[rs[k]]
    ensures Lists(spans, rs[..k + 1]) <= Lists(spans, rs)
    decreases |rs| - k
  {
    assert rs[..k + 1][..k] == rs[..k];
    if k + 1 < |rs| {
      ListsStep(spans, rs, k + 1);
    } else {
      assert rs[..k + 1] == rs;
    }
  }

  /** The state of the layout when the first k requests are placed. */
  ghost predicate PlacedUpTo(t: Trace, lay: SpanLayout, was: seq<SpanData>, order: seq<nat>, k: nat, ops: seq<Op>)
    reads t, lay
  {
    && k <= |order| && (forall j :: 0 <= j < |order| ==> order[j] in t.spans)
    && Plan(t, was, Lists(t.spans, order))
    && InProgress(t, lay, was, Lists(t.spans, order[..k]), ops)
    && ops == LayoutOps(was, t.spans, order[..k])
  }

  /** One turn of the loop over the requests. */
  method PlaceNext(t: Trace, lay: SpanLayout, order: seq<nat>, k: nat, ghost was: seq<SpanData>, ghost ops: seq<Op>)
    returns (ghost ops': seq<Op>)
    requires PlacedUpTo(t, lay, was, order, k, ops) && k < |order|
    modifies t`data, lay
    ensures PlacedUpTo(t, lay, was, order, k + 1, ops')
  {
    ListsStep(t.spans, order, k);
    LayoutOpsStep(was, t.spans, order, k);
    ops' := PlaceRequest(t, lay, t.spans[order[k]], was, Lists(t.spans, order[..k]), Lists(t.spans, order), ops);
  }

  lemma NonePlaced(t: Trace, lay: SpanLayout, order: seq<nat>)
    requires t.Linked() && |t.data| == |t.parents| && lay.Valid() && lay.View() == EMPTY
    requires forall k :: 0 <= k < |order| ==> order[k] in t.spans
    requires Plan(t, t.data, Lists(t.spans, order))
    ensures PlacedUpTo(t, lay, t.data, order, 0, [])
  {
    assert order[..0] == [];
  }

  lemma AllPlaced(t: Trace, lay: SpanLayout, was: seq<SpanData>, order: seq<nat>, ops: seq<Op>)
    requires PlacedUpTo(t, lay, was, order, |order|, ops)
    ensures InProgress(t, lay, was, Lists(t.spans, order), ops) && ops == LayoutOps(was, t.spans, order)
  {
    assert order[..|order|] == order;
  }

  /** The placement loop over all requests. */
  method PlaceAll(t: Trace, lay: SpanLayout, order: seq<nat>) returns (ghost ops: seq<Op>)
    requires t.Linked() && |t.data| == |t.parents| && lay.Valid() && lay.View() == EMPTY
    requires forall k :: 0 <= k < |order| ==> order[k] in t.spans
    requires Plan(t, t.data, Lists(t.spans, order))
    modifies t`data, lay
    ensures InProgress(t, lay, old(t.data), Lists(t.spans, order), ops)
    ensures ops == LayoutOps(old(t.data), t.spans, order)
  {
    ghost var was := t.data;
    ops := [];
    NonePlaced(t, lay, order);
    for k := 0 to |order|
      invariant PlacedUpTo(t, lay, was, order, k, ops)
    {
      ops := PlaceNext(t, lay, order, k, was, ops);
    }
    AllPlaced(t, lay, was, order, ops);
  }

  function StartKey(data: seq<SpanData>): nat -> int {
    (i: nat) => if i < |data| then data[i].start else 0
  }

  function FirstKey(data: seq<SpanData>, spans: map<nat, seq<nat>>): nat -> int {
    r => if r in spans && spans[r] != [] then StartKey(data)(spans[r][0]) else 0
  }

  /** The list of each request is its earlier list, sorted by start time. */
  ghost predicate ListsSorted(data: seq<SpanData>, before: map<nat, seq<nat>>, spans: map<nat, seq<nat>>,
                              rs: seq<nat>) {
    forall k :: 0 <= k < |rs| ==>
      rs[k] in before && rs[k] in spans && SortedCopy(before[rs[k]], spans[rs[k]], StartKey(data))
  }

  lemma SortedListsOk(g: Links, data: seq<SpanData>, before: map<nat, seq<nat>>, spans: map<nat, seq<nat>>,
                      rs: seq<nat>)
    requires Closed(g) && ListsOk(g, before, rs) && ListsSorted(data, before, spans, rs)
    ensures ListsOk(g, spans, rs)
  {
    forall k | 0 <= k < |rs|
      ensures ListFor(g, spans[rs[k]], rs[k])
    {
      ListForSorted(g, before[rs[k]], spans[rs[k]], rs[k], StartKey(data));
    }
  }

  /** The first loop of the layout: sort the spans of each request by start time. */
  method SortLists(t: Trace, roots: seq<nat>)
    requires NoDup(roots) && forall k :: 0 <= k < |roots| ==> roots[k] in t.spans
    modifies t`spans
    ensures ListsSorted(t.data, old(t.spans), t.spans, roots)
    ensures t.spans.Keys == old(t.spans.Keys)
  {
    var key := StartKey(t.data);
    ghost var before := t.spans;
    for k := 0 to |roots|
      invariant t.spans.Keys == before.Keys
      invariant forall j :: 0 <= j < k ==> SortedCopy(before[roots[j]], t.spans[roots[j]], key)
      invariant forall j :: k <= j < |roots| ==> t.spans[roots[j]] == before[roots[j]]
    {
      SortBySorts(t.spans[roots[k]], key);
      t.spans := t.spans[roots[k] := SortBy(t.spans[roots[k]], key)];
    }
  }

  lemma RootsPermuted(g: Links, spans: map<nat, seq<nat>>, roots: seq<nat>, order: seq<nat>)
    requires Closed(g) && AreRoots(g, roots) && ListsOk(g, spans, roots)
    requires multiset(order) == multiset(roots)
    ensures AreRoots(g, order) && ListsOk(g, spans, order)
    ensures forall s: nat :: s in Lists(spans, order) <==> s in Lists(spans, roots)
  {
    SameMembers(roots, order);
    forall k | 0 <= k < |order|
      ensures order[k] < |g| && g[order[k]].None?
      ensures order[k] in spans && ListFor(g, spans[order[k]], order[k])
    {
      assert order[k] in order;
      var j :| 0 <= j < |roots| && roots[j] == order[k];
    }
    forall s: nat
      ensures s in Lists(spans, order) <==> s in Lists(spans, roots)
    {
      ListsMembers(g, spans, order, s);
      ListsMembers(g, spans, roots, s);
    }
  }

  lemma PlanPermuted(t: Trace, was: seq<SpanData>, spans: map<nat, seq<nat>>, roots: seq<nat>, order: seq<nat>)
    requires Closed(t.parents) && |was| == |t.parents|
    requires AreRoots(t.parents, roots) && ListsOk(t.parents, spans, roots)
    requires AllConverted(t.parents, was, Lists(spans, roots))
    requires multiset(order) == multiset(roots)
    ensures ListsOk(t.parents, spans, order) && Plan(t, was, Lists(spans, order))
  {
    var g := t.parents;
    RootsPermuted(g, spans, roots, order);
    ListsNoDup(g, spans, order);
    forall i: nat | i in BelowSets(g, Lists(spans, order))
      ensures i < |was| && was[i].perfetto.Some?
    {
      BelowSetsMembers(g, Lists(spans, order), i);
      BelowSetsMembers(g, Lists(spans, roots), i);
    }
  }

  /** generate_perfetto_span_layout for engine spans: requests in the order of their first span,
      the spans of a request in the order of their start. */
  method GenerateLayout(t: Trace, lay: SpanLayout, roots: seq<nat>) returns (ghost order: seq<nat>, ghost ops: seq<Op>)
    requires t.Linked() && |t.data| == |t.parents| && lay.Valid() && lay.View() == EMPTY
    requires AreRoots(t.parents, roots) && ListsOk(t.parents, t.spans, roots)
    requires AllConverted(t.parents, t.data, Lists(t.spans, roots))
    requires forall k :: 0 <= k < |roots| ==> t.spans[roots[k]] != []
    modifies t`data, t`spans, lay
    ensures ListsOk(t.parents, t.spans, roots) && ListsSorted(old(t.data), old(t.spans), t.spans, roots)
    ensures SortedCopy(roots, order, FirstKey(old(t.data), t.spans))
    ensures ListsOk(t.parents, t.spans, order)
    ensures InProgress(t, lay, old(t.data), Lists(t.spans, order), ops)
    ensures ops == LayoutOps(old(t.data), t.spans, order)
  {
    ghost var before := t.spans;
    SortLists(t, roots);
    SortedListsOk(t.parents, t.data, before, t.spans, roots);
    ConvertedResorted(t.parents, t.data, before, t.spans, roots);
    var sorted := SortBy(roots, FirstKey(t.data, t.spans));
    SortBySorts(roots, FirstKey(t.data, t.spans));
    order := sorted;
    PlanPermuted(t, t.data, t.spans, roots, sorted);
    ops := PlaceAll(t, lay, sorted);
  }

  lemma ConvertedResorted(g: Links, was: seq<SpanData>, a: map<nat, seq<nat>>, b: map<nat, seq<nat>>, roots: seq<nat>)
    requires Closed(g) && |was| == |g|
    requires ListsOk(g, a, roots) && ListsOk(g, b, roots) && AllConverted(g, was, Lists(a, roots))
    ensures AllConverted(g, was, Lists(b, roots))
  {
    forall i: nat | i in BelowSets(g, Lists(b, roots))
      ensures i < |was| && was[i].perfetto.Some?
    {
      BelowSetsMembers(g, Lists(b, roots), i);
      var c: nat :| c in Lists(b, roots) && Below(g, i, c);
      ListsMembers(g, b, roots, c);
      ListsMembers(g, a, roots, c);
      BelowSetsMembers(g, Lists(a, roots), i);
    }
  }
}
