/** The lane rule on the output of the trace converter: which line each span directly below a
    thread span gets, from the lines of the spans placed before it. */
module TraceRule {
  import opened Base
  import opened Chains
  import opened Sorting
  import opened TraceSpans
  import opened TraceConverter
  import opened TraceLayout
  import opened TraceOutput
  import opened LaneLayout
  import opened LaneRule

  /** The line of the latest of the first m placements that put a span of request r into the
      process. */
  ghost function LatestOf(g: Links, placed: seq<nat>, log: seq<Placement>, m: nat, pid: int, r: nat): Option<nat>
    requires Closed(g) && m <= |placed| && m <= |log|
  {
    if m == 0 then None
    else if log[m - 1].pid == pid && TopOf(g, placed[m - 1], r) then Some(log[m - 1].line)
    else LatestOf(g, placed, log, m - 1, pid, r)
  }

  // ----- the operations of the layout -----

  ghost predicate AllPuts(was: seq<SpanData>, list: seq<nat>) {
    forall k :: 0 <= k < |list| ==> PutFor(was, list[k]).Put?
  }

  lemma CountOne(ops: seq<Op>, op: Op)
    ensures Puts(ops + [op]) == Puts(ops) + if op.Put? then 1 else 0
    ensures Earlier(ops + [op]) == if op.Put? then Earlier(ops) else Puts(ops)
  {
    assert (ops + [op])[..|ops|] == ops;
  }

  /** A request makes one placement for each of its spans. */
  lemma {:induction false} RequestCounts(was: seq<SpanData>, ops: seq<Op>, list: seq<nat>)
    requires AllPuts(was, list)
    ensures Puts(ops + RequestOps(was, list)) == Puts(ops) + |list|
    ensures Earlier(ops + RequestOps(was, list)) == Puts(ops)
  {
    if list == [] {
      CountOne(ops, NewRequest);
    } else {
      var b := |list| - 1;
      RequestCounts(was, ops, list[..b]);
      RequestOpsStep(was, list, b, ops);
      CountOne(ops + RequestOps(was, list[..b]), PutFor(was, list[b]));
      assert list[..b + 1] == list;
    }
  }

  lemma {:induction false} LayoutCounts(was: seq<SpanData>, spans: map<nat, seq<nat>>, order: seq<nat>, a: nat)
    requires forall k :: 0 <= k < |order| ==> order[k] in spans && AllPuts(was, spans[order[k]])
    requires a <= |order|
    ensures Puts(LayoutOps(was, spans, order[..a])) == |Lists(spans, order[..a])|
  {
    if a > 0 {
      LayoutCounts(was, spans, order, a - 1);
      RequestCounts(was, LayoutOps(was, spans, order[..a - 1]), spans[order[a - 1]]);
      LayoutOpsStep(was, spans, order, a - 1);
      ListsStep(spans, order, a - 1);
    }
  }

  lemma {:induction false} RequestPrefix(was: seq<SpanData>, list: seq<nat>, b: nat)
    requires b <= |list|
    ensures RequestOps(was, list[..b]) <= RequestOps(was, list)
    decreases |list| - b
  {
    if b == |list| {
      assert list[..b] == list;
    } else {
      RequestPrefix(was, list, b + 1);
      assert list[..b + 1][..b] == list[..b];
    }
  }

  lemma {:induction false} LayoutPrefix(was: seq<SpanData>, spans: map<nat, seq<nat>>, order: seq<nat>, a: nat)
    requires a <= |order| && forall k :: 0 <= k < |order| ==> order[k] in spans
    ensures LayoutOps(was, spans, order[..a]) <= LayoutOps(was, spans, order)
    decreases |order| - a
  {
    if a == |order| {
      assert order[..a] == order;
    } else {
      LayoutPrefix(was, spans, order, a + 1);
      LayoutOpsStep(was, spans, order, a);
    }
  }

  lemma OpsPrefix(was: seq<SpanData>, spans: map<nat, seq<nat>>, order: seq<nat>, a: nat, b: nat)
    requires a < |order| && (forall k :: 0 <= k < |order| ==> order[k] in spans) && b <= |spans[order[a]]|
    ensures LayoutOps(was, spans, order[..a]) + RequestOps(was, spans[order[a]][..b]) <= LayoutOps(was, spans, order)
  {
    RequestPrefix(was, spans[order[a]], b);
    LayoutOpsStep(was, spans, order, a);
    LayoutPrefix(was, spans, order, a + 1);
  }

  /** The position of span number b of request number a. */
  ghost function Position(spans: map<nat, seq<nat>>, order: seq<nat>, a: nat, b: nat): nat
    requires a < |order| && forall k :: 0 <= k < |order| ==> order[k] in spans
  {
    |Lists(spans, order[..a])| + b
  }

  /** The operation that places span number b of request number a. */
  lemma OpAt(was: seq<SpanData>, spans: map<nat, seq<nat>>, order: seq<nat>, a: nat, b: nat) returns (n: nat)
    requires forall k :: 0 <= k < |order| ==> order[k] in spans && AllPuts(was, spans[order[k]])
    requires a < |order| && b < |spans[order[a]]|
    ensures n < |LayoutOps(was, spans, order)| && LayoutOps(was, spans, order)[n].Put?
    ensures Puts(LayoutOps(was, spans, order)[..n]) == Position(spans, order, a, b)
    ensures Earlier(LayoutOps(was, spans, order)[..n]) == Position(spans, order, a, 0)
  {
    var ops, list, all := LayoutOps(was, spans, order[..a]), spans[order[a]], LayoutOps(was, spans, order);
    var before := ops + RequestOps(was, list[..b]);
    n := |before|;
    RequestOpsStep(was, list, b, ops);
    OpsPrefix(was, spans, order, a, b + 1);
    assert before + [PutFor(was, list[b])] <= all;
    assert all[..n] == before && all[n] == PutFor(was, list[b]);
    LayoutCounts(was, spans, order, a);
    RequestCounts(was, ops, list[..b]);
  }

  // ----- by request -----

  /** The placements of a request are those from its first one on. */
  lemma {:induction false} LatestIsLast(g: Links, placed: seq<nat>, log: seq<Placement>, lo: nat, m: nat, pid: int,
                                        r: nat)
    requires Closed(g) && lo <= m <= |placed| && m <= |log|
    requires forall k :: 0 <= k < lo ==> !TopOf(g, placed[k], r)
    requires forall k :: lo <= k < m ==> TopOf(g, placed[k], r)
    ensures LatestOf(g, placed, log, m, pid, r) == LastIn(log[..m], lo, pid)
  {
    if m > 0 {
      if lo < m {
        LatestIsLast(g, placed, log, lo, m - 1, pid, r);
        assert log[..m][..m - 1] == log[..m - 1];
      } else {
        LatestIsLast(g, placed, log, lo - 1, m - 1, pid, r);
        assert LastIn(log[..m - 1], lo - 1, pid) == None;
      }
    }
  }

  lemma PlacedAt(spans: map<nat, seq<nat>>, order: seq<nat>, a: nat, k: nat)
    requires a < |order| && (forall k :: 0 <= k < |order| ==> order[k] in spans)
    requires k < Position(spans, order, a, |spans[order[a]]|)
    ensures k < |Lists(spans, order)|
    ensures k < Position(spans, order, a, 0) ==> Lists(spans, order)[k] in Lists(spans, order[..a])
    ensures k >= Position(spans, order, a, 0) ==> Lists(spans, order)[k] in spans[order[a]]
  {
    ListsStep(spans, order, a);
    assert Lists(spans, order)[k] == Lists(spans, order[..a + 1])[k];
  }

  /** The spans before the first position of a request belong to other requests, and those from
      there on to it. */
  lemma OwnedBy(g: Links, spans: map<nat, seq<nat>>, order: seq<nat>, a: nat, k: nat)
    requires Closed(g) && AreRoots(g, order) && ListsOk(g, spans, order) && a < |order|
    requires k < Position(spans, order, a, |spans[order[a]]|)
    ensures k < |Lists(spans, order)|
    ensures TopOf(g, Lists(spans, order)[k], order[a]) <==> k >= Position(spans, order, a, 0)
  {
    PlacedAt(spans, order, a, k);
    var s := Lists(spans, order)[k];
    if k < Position(spans, order, a, 0) {
      ListsMembers(g, spans, order[..a], s);
      var r: nat :| r in order[..a] && TopOf(g, s, r);
      var i :| 0 <= i < a && order[i] == r;
    } else {
      assert ListFor(g, spans[order[a]], order[a]);
    }
  }

  lemma LatestOfRequest(g: Links, spans: map<nat, seq<nat>>, order: seq<nat>, log: seq<Placement>, a: nat, b: nat,
                        pid: int)
    requires Closed(g) && AreRoots(g, order) && ListsOk(g, spans, order) && a < |order| && b < |spans[order[a]]|
    requires |log| == |Lists(spans, order)| && Position(spans, order, a, b) < |log|
    ensures LatestOf(g, Lists(spans, order), log, Position(spans, order, a, b), pid, order[a])
         == LastIn(log[..Position(spans, order, a, b)], Position(spans, order, a, 0), pid)
  {
    forall k: nat | k < Position(spans, order, a, b)
      ensures TopOf(g, Lists(spans, order)[k], order[a]) <==> k >= Position(spans, order, a, 0)
    {
      OwnedBy(g, spans, order, a, k);
    }
    LatestIsLast(g, Lists(spans, order), log, Position(spans, order, a, 0), Position(spans, order, a, b), pid,
                 order[a]);
  }

  /** Every position is that of some span of some request. */
  lemma {:induction false} Locate(spans: map<nat, seq<nat>>, order: seq<nat>, m: nat) returns (a: nat, b: nat)
    requires (forall k :: 0 <= k < |order| ==> order[k] in spans) && m < |Lists(spans, order)|
    ensures a < |order| && b < |spans[order[a]]| && m == Position(spans, order, a, b)
  {
    var n := |order| - 1;
    if m < |Lists(spans, order[..n])| {
      a, b := Locate(spans, order[..n], m);
      assert order[..n][..a] == order[..a];
    } else {
      a, b := n, m - |Lists(spans, order[..n])|;
    }
  }

  lemma ByRuleAt(g: Links, spans: map<nat, seq<nat>>, order: seq<nat>, log: seq<Placement>, a: nat, b: nat, r: nat)
    requires Closed(g) && AreRoots(g, order) && ListsOk(g, spans, order) && a < |order| && b < |spans[order[a]]|
    requires |log| == |Lists(spans, order)| && Position(spans, order, a, b) < |log|
    requires LastByRule(log[..Position(spans, order, a, b) + 1], Position(spans, order, a, 0))
    requires TopOf(g, Lists(spans, order)[Position(spans, order, a, b)], r)
    ensures var m, placed := Position(spans, order, a, b), Lists(spans, order);
            FollowsRule(LanesAfter(log[..m], log[m].pid), LatestOf(g, placed, log, m, log[m].pid, r), log[m].line,
                        log[m].at)
  {
    var m := Position(spans, order, a, b);
    OwnedBy(g, spans, order, a, m);
    LatestOfRequest(g, spans, order, log, a, b, log[m].pid);
    assert log[..m + 1][..m] == log[..m];
  }

  /** What was laid out had been converted. */
  lemma PutsPlaced(g: Links, was: seq<SpanData>, now: seq<SpanData>, placed: seq<nat>, log: seq<Placement>)
    requires Closed(g) && |was| == |g| && LaidOut(g, was, now, placed, log)
    ensures AllPuts(was, placed)
  {
    forall k | 0 <= k < |placed|
      ensures PutFor(was, placed[k]).Put?
    {
      assert PlacementOf(was[placed[k]], log[k]);
    }
  }

  lemma PutsListed(was: seq<SpanData>, spans: map<nat, seq<nat>>, order: seq<nat>, a: nat)
    requires (forall k :: 0 <= k < |order| ==> order[k] in spans) && AllPuts(was, Lists(spans, order)) && a < |order|
    ensures AllPuts(was, spans[order[a]])
  {
    var list, placed := spans[order[a]], Lists(spans, order);
    ListsStep(spans, order, a);
    forall b | 0 <= b < |list|
      ensures PutFor(was, list[b]).Put?
    {
      var m := Position(spans, order, a, b);
      assert placed[m] == Lists(spans, order[..a + 1])[m] == list[b];
    }
  }

  lemma EntryByRule(was: seq<SpanData>, spans: map<nat, seq<nat>>, order: seq<nat>, ops: seq<Op>, a: nat, b: nat)
    requires (forall k :: 0 <= k < |order| ==> order[k] in spans) && AllPuts(was, Lists(spans, order))
    requires ops == LayoutOps(was, spans, order) && a < |order| && b < |spans[order[a]]|
    ensures Position(spans, order, a, b) < |Run(ops).log|
    ensures LastByRule(Run(ops).log[..Position(spans, order, a, b) + 1], Position(spans, order, a, 0))
  {
    forall k | 0 <= k < |order|
      ensures AllPuts(was, spans[order[k]])
    {
      PutsListed(was, spans, order, k);
    }
    var n := OpAt(was, spans, order, a, b);
    LogByRule(ops, n);
  }

  lemma LaidByRule(g: Links, was: seq<SpanData>, spans: map<nat, seq<nat>>, order: seq<nat>, log: seq<Placement>,
                   m: nat, r: nat)
    requires Closed(g) && AreRoots(g, order) && ListsOk(g, spans, order) && AllPuts(was, Lists(spans, order))
    requires log == Run(LayoutOps(was, spans, order)).log && m < |log| == |Lists(spans, order)|
    requires TopOf(g, Lists(spans, order)[m], r)
    ensures FollowsRule(LanesAfter(log[..m], log[m].pid), LatestOf(g, Lists(spans, order), log, m, log[m].pid, r),
                        log[m].line, log[m].at)
  {
    var a, b := Locate(spans, order, m);
    EntryByRule(was, spans, order, LayoutOps(was, spans, order), a, b);
    ByRuleAt(g, spans, order, log, a, b, r);
  }

  lemma JournalPuts(j: Journal)
    requires Completed(j)
    ensures AllPuts(AfterConversion(j.input, j.env), Lists(j.spans, j.order))
    ensures |Run(j.ops).log| == |Lists(j.spans, j.order)|
  {
    PutsPlaced(ParentTable(j.input), AfterConversion(j.input, j.env), j.data, Lists(j.spans, j.order), Run(j.ops).log);
  }

  /** In every conversion, a span directly below a thread span stays on the line of the latest
      earlier span of its request in its process, if it has length zero or finds that line free;
      otherwise, and when it is the first of its request there, it gets the least free line. */
  lemma SpansFollowRule(j: Journal, m: nat, r: nat)
    requires Completed(j) && m < |Run(j.ops).log| == |Lists(j.spans, j.order)|
    requires TopOf(ParentTable(j.input), Lists(j.spans, j.order)[m], r)
    ensures var log := Run(j.ops).log;
            FollowsRule(LanesAfter(log[..m], log[m].pid),
                        LatestOf(ParentTable(j.input), Lists(j.spans, j.order), log, m, log[m].pid, r),
                        log[m].line, log[m].at)
  {
    JournalPuts(j);
    LaidByRule(ParentTable(j.input), AfterConversion(j.input, j.env), j.spans, j.order, Run(j.ops).log, m, r);
  }

  // ----- the order of the placements -----

  /** Requests by the start of their first span, and the spans of each by start. */
  ghost predicate ByStart(data: seq<SpanData>, spans: map<nat, seq<nat>>, order: seq<nat>) {
    && (forall a :: 0 <= a < |order| ==> order[a] in spans && Ordered(spans[order[a]], StartKey(data)))
    && Ordered(order, FirstKey(data, spans))
  }

  lemma StartsInOrder(data: seq<SpanData>, spans: map<nat, seq<nat>>, order: seq<nat>, a: nat, b: nat, c: nat, d: nat)
    requires ByStart(data, spans, order) && a <= c < |order| && b < |spans[order[a]]| && d < |spans[order[c]]|
    ensures a == c && b <= d ==> StartKey(data)(spans[order[a]][b]) <= StartKey(data)(spans[order[c]][d])
    ensures StartKey(data)(spans[order[a]][0]) <= StartKey(data)(spans[order[c]][d])
  {
    var key := StartKey(data);
    assert Ordered(spans[order[c]], key) && key(spans[order[c]][0]) <= key(spans[order[c]][d]);
    assert FirstKey(data, spans)(order[a]) <= FirstKey(data, spans)(order[c]);
  }

  /** Positions grow with the request, and within a request with the span. */
  lemma PositionsGrow(spans: map<nat, seq<nat>>, order: seq<nat>, a: nat, b: nat, c: nat, d: nat)
    requires forall k :: 0 <= k < |order| ==> order[k] in spans
    requires a < |order| && c < |order| && b < |spans[order[a]]| && d < |spans[order[c]]|
    requires Position(spans, order, a, b) < Position(spans, order, c, d)
    ensures a < c || (a == c && b < d)
  {
    if c < a {
      ListsGrow(spans, order, c + 1, a);
      ListsStep(spans, order, c);
    }
  }

  lemma {:induction false} ListsGrow(spans: map<nat, seq<nat>>, order: seq<nat>, a: nat, c: nat)
    requires a <= c <= |order| && forall k :: 0 <= k < |order| ==> order[k] in spans
    ensures |Lists(spans, order[..a])| <= |Lists(spans, order[..c])|
  {
    if a < c {
      ListsGrow(spans, order, a, c - 1);
      ListsStep(spans, order, c - 1);
    }
  }

  lemma JournalByStart(j: Journal)
    requires Completed(j)
    ensures ByStart(AfterConversion(j.input, j.env), j.spans, j.order)
  {
    var data, roots := AfterConversion(j.input, j.env), RequestsIn(j.input);
    SameMembers(roots, j.order);
    forall a | 0 <= a < |j.order|
      ensures j.order[a] in j.spans && Ordered(j.spans[j.order[a]], StartKey(data))
    {
      assert j.order[a] in j.order;
      var k :| 0 <= k < |roots| && roots[k] == j.order[a];
      RequestLists(j, k);
    }
  }

  lemma LogStart(j: Journal, m: nat)
    requires Completed(j) && m < |Run(j.ops).log| == |Lists(j.spans, j.order)|
    ensures StartKey(AfterConversion(j.input, j.env))(Lists(j.spans, j.order)[m]) == Run(j.ops).log[m].at.start
  {
    LogEntry(j, m);
    assert PlacementOf(AfterConversion(j.input, j.env)[Lists(j.spans, j.order)[m]], Run(j.ops).log[m]);
  }

  /** Within one request later placements do not start earlier; and when request r has a placement
      before one of request q, it has a placement that does not start later than that one. */
  ghost predicate InStartOrder(g: Links, placed: seq<nat>, log: seq<Placement>, m: nat, n: nat, r: nat, q: nat)
    requires Closed(g) && m < n < |placed| == |log|
  {
    && (r == q ==> log[m].at.start <= log[n].at.start)
    && exists k: nat :: k <= n && TopOf(g, placed[k], r) && log[k].at.start <= log[n].at.start
  }

  lemma PlacedInOrder(g: Links, data: seq<SpanData>, spans: map<nat, seq<nat>>, order: seq<nat>, log: seq<Placement>,
                      m: nat, n: nat, r: nat, q: nat)
    requires Closed(g) && AreRoots(g, order) && ListsOk(g, spans, order) && ByStart(data, spans, order)
    requires m < n < |log| == |Lists(spans, order)|
    requires TopOf(g, Lists(spans, order)[m], r) && TopOf(g, Lists(spans, order)[n], q)
    requires forall k {:trigger log[k]} :: 0 <= k < |log| ==>
               StartKey(data)(Lists(spans, order)[k]) == log[k].at.start
    ensures InStartOrder(g, Lists(spans, order), log, m, n, r, q)
  {
    var placed := Lists(spans, order);
    var a, b := Locate(spans, order, m);
    var c, d := Locate(spans, order, n);
    OwnedBy(g, spans, order, a, m);
    OwnedBy(g, spans, order, c, n);
    PositionsGrow(spans, order, a, b, c, d);
    StartsInOrder(data, spans, order, a, b, c, d);
    var k := Position(spans, order, a, 0);
    OwnedBy(g, spans, order, a, k);
    SpanAt(spans, order, a, b);
    SpanAt(spans, order, c, d);
    SpanAt(spans, order, a, 0);
    assert log[k].at.start <= log[n].at.start;
  }

  lemma SpanAt(spans: map<nat, seq<nat>>, order: seq<nat>, a: nat, b: nat)
    requires a < |order| && (forall k :: 0 <= k < |order| ==> order[k] in spans) && b < |spans[order[a]]|
    ensures Position(spans, order, a, b) < |Lists(spans, order)|
    ensures Lists(spans, order)[Position(spans, order, a, b)] == spans[order[a]][b]
  {
    ListsStep(spans, order, a);
    var m := Position(spans, order, a, b);
    assert Lists(spans, order)[m] == Lists(spans, order[..a + 1])[m];
  }

  /** Every conversion places spans request by request, earliest request first, and the spans of a
      request in the order of their starts. */
  lemma LayoutInOrder(j: Journal, m: nat, n: nat, r: nat, q: nat)
    requires Completed(j) && m < n < |Run(j.ops).log| == |Lists(j.spans, j.order)|
    requires TopOf(ParentTable(j.input), Lists(j.spans, j.order)[m], r)
    requires TopOf(ParentTable(j.input), Lists(j.spans, j.order)[n], q)
    ensures InStartOrder(ParentTable(j.input), Lists(j.spans, j.order), Run(j.ops).log, m, n, r, q)
  {
    var log := Run(j.ops).log;
    JournalByStart(j);
    forall k {:trigger log[k]} | 0 <= k < |log|
      ensures StartKey(AfterConversion(j.input, j.env))(Lists(j.spans, j.order)[k]) == log[k].at.start
    {
      LogStart(j, k);
    }
    PlacedInOrder(ParentTable(j.input), AfterConversion(j.input, j.env), j.spans, j.order, log, m, n, r, q);
  }
}
