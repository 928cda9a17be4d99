/** The promise of the layout on the output of the trace converter, and when it is kept. */
module TraceLanes {
  import opened Base
  import opened SpanForest
  import opened TraceSpans
  import opened TraceLayout
  import opened TraceOutput
  import opened LaneLayout
  import opened LaneOverlap

  /** The times of a span after the trim, as the layout sees them. */
  ghost function Trimmed(input: seq<InputSpan>, i: nat): Interval
    requires i < |input|
  {
    Interval(input[i].start, input[i].end - TRIM)
  }

  /** Two records of spans directly below thread spans, on one lane of one process. */
  ghost predicate ShareLane(j: Journal, emitted: seq<nat>, m: nat, n: nat)
    requires m < |j.elems| == |emitted| && n < |j.elems|
  {
    && IsTop(j.input, emitted[m]) && IsTop(j.input, emitted[n])
    && j.elems[m].pid == j.elems[n].pid && j.elems[m].tid == j.elems[n].tid
  }

  /** If the records share a lane and have positive length, they do not overlap. */
  ghost predicate PairDisjoint(j: Journal, emitted: seq<nat>, m: nat, n: nat)
    requires m < |j.elems| == |emitted| && n < |j.elems|
  {
    ShareLane(j, emitted, m, n) ==>
      && emitted[m] < |j.input| && emitted[n] < |j.input|
      && !Clash(Trimmed(j.input, emitted[m]), Trimmed(j.input, emitted[n]))
  }

  /** The promise of the layout, on the output: spans of positive length directly below thread
      spans that share process and lane do not overlap. */
  ghost predicate OutputDisjoint(j: Journal, emitted: seq<nat>) {
    && |emitted| == |j.elems|
    && forall m: nat, n: nat :: m < |j.elems| && n < |j.elems| && m != n ==> PairDisjoint(j, emitted, m, n)
  }

  lemma EmittedTop(j: Journal, s: nat)
    requires Completed(j) && IsTop(j.input, s)
    ensures s in Emitted(j)
  {
    var g, roots := ParentTable(j.input), RequestsIn(j.input);
    var r: nat :| r in roots && TopOf(g, s, r);
    ListsMembers(g, j.spans, roots, s);
    BelowStep(g, s, s);
    PreorderAllMembers(g, Lists(j.spans, roots), 2, s);
  }

  lemma PlacedOnce(j: Journal)
    requires Completed(j)
    ensures NoDup(Lists(j.spans, j.order))
  {
    ListsNoDup(ParentTable(j.input), j.spans, j.order);
  }

  /** Placement m is that of record n: same span, process, lane and times. */
  ghost predicate Places(j: Journal, emitted: seq<nat>, placed: seq<nat>, log: seq<Placement>, m: nat, n: nat) {
    && m < |log| == |placed| && n < |j.elems| == |emitted|
    && emitted[n] == placed[m] && IsTop(j.input, emitted[n])
    && j.elems[n].pid == log[m].pid && j.elems[n].tid == log[m].line
    && emitted[n] < |j.input| && Trimmed(j.input, emitted[n]) == log[m].at
  }

  lemma RecordPlaced(j: Journal, n: nat) returns (m: nat)
    requires Completed(j) && n < |j.elems| == |Emitted(j)| && IsTop(j.input, Emitted(j)[n])
    ensures Places(j, Emitted(j), Lists(j.spans, j.order), Run(j.ops).log, m, n)
  {
    m := TopPlacement(j, n);
    LogEntry(j, m);
  }

  lemma RecordOfPlacement(j: Journal, m: nat) returns (n: nat)
    requires Completed(j) && m < |Lists(j.spans, j.order)| && IsTop(j.input, Lists(j.spans, j.order)[m])
    ensures n < |j.elems| == |Emitted(j)| && Emitted(j)[n] == Lists(j.spans, j.order)[m]
  {
    EmittedTop(j, Lists(j.spans, j.order)[m]);
    EmittedOnce(j);
    n :| 0 <= n < |Emitted(j)| && Emitted(j)[n] == Lists(j.spans, j.order)[m];
  }

  /** Each placement is that of an emitted record. */
  lemma LogEmitted(j: Journal, m: nat) returns (n: nat)
    requires Completed(j) && m < |Run(j.ops).log|
    ensures Places(j, Emitted(j), Lists(j.spans, j.order), Run(j.ops).log, m, n)
  {
    LogEntry(j, m);
    n := RecordOfPlacement(j, m);
    var k := RecordPlaced(j, n);
    PlacedOnce(j);
    assert k == m;
  }

  /** Different records have different placements, and the other way round. */
  lemma PairOfPlacements(j: Journal, emitted: seq<nat>, placed: seq<nat>, log: seq<Placement>, m: nat, n: nat,
                         x: nat, y: nat)
    requires NoDup(emitted) && NoDup(placed)
    requires Places(j, emitted, placed, log, x, m) && Places(j, emitted, placed, log, y, n)
    ensures m == n <==> x == y
    ensures ShareLane(j, emitted, m, n) <==> log[x].pid == log[y].pid && log[x].line == log[y].line
    ensures Clash(Trimmed(j.input, emitted[m]), Trimmed(j.input, emitted[n])) <==> Clash(log[x].at, log[y].at)
  {
  }

  lemma DisjointFromLog(j: Journal, m: nat, n: nat)
    requires Completed(j) && LogDisjoint(Run(j.ops).log)
    requires m < |j.elems| == |Emitted(j)| && n < |j.elems| && m != n && NoDup(Emitted(j))
    requires ShareLane(j, Emitted(j), m, n)
    ensures PairDisjoint(j, Emitted(j), m, n)
  {
    var x := RecordPlaced(j, m);
    var y := RecordPlaced(j, n);
    PlacedOnce(j);
    PairOfPlacements(j, Emitted(j), Lists(j.spans, j.order), Run(j.ops).log, m, n, x, y);
    LogPair(Run(j.ops).log, x, y);
  }

  lemma LogPair(log: seq<Placement>, x: nat, y: nat)
    requires LogDisjoint(log) && x < |log| && y < |log| && x != y
    requires log[x].pid == log[y].pid && log[x].line == log[y].line
    ensures !Clash(log[x].at, log[y].at)
  {
    assert x < y || y < x;
  }

  lemma OutputFromLog(j: Journal)
    requires Completed(j) && LogDisjoint(Run(j.ops).log)
    ensures OutputDisjoint(j, Emitted(j))
  {
    EmittedOnce(j);
    forall m: nat, n: nat | m < |j.elems| && n < |j.elems| && m != n
      ensures PairDisjoint(j, Emitted(j), m, n)
    {
      if ShareLane(j, Emitted(j), m, n) {
        DisjointFromLog(j, m, n);
      }
    }
  }

  lemma DisjointFromOutput(j: Journal, x: nat, y: nat)
    requires Completed(j) && OutputDisjoint(j, Emitted(j)) && x < y < |Run(j.ops).log|
    requires Run(j.ops).log[x].pid == Run(j.ops).log[y].pid && Run(j.ops).log[x].line == Run(j.ops).log[y].line
    ensures !Clash(Run(j.ops).log[x].at, Run(j.ops).log[y].at)
  {
    var m := LogEmitted(j, x);
    var n := LogEmitted(j, y);
    PlacedOnce(j);
    EmittedOnce(j);
    PairOfPlacements(j, Emitted(j), Lists(j.spans, j.order), Run(j.ops).log, m, n, x, y);
    assert PairDisjoint(j, Emitted(j), m, n);
  }

  lemma LogFromOutput(j: Journal)
    requires Completed(j) && OutputDisjoint(j, Emitted(j))
    ensures LogDisjoint(Run(j.ops).log)
  {
    var log := Run(j.ops).log;
    forall x, y | 0 <= x < y < |log| && log[x].pid == log[y].pid && log[x].line == log[y].line
      ensures !Clash(log[x].at, log[y].at)
    {
      DisjointFromOutput(j, x, y);
    }
  }

  /** The output keeps the promise if and only if no placement met a lane that hid an
      overlapping span from the two-neighbour check. */
  lemma LanesDisjoint(j: Journal)
    requires Completed(j)
    ensures OutputDisjoint(j, Emitted(j)) <==> NothingHidden(j.ops)
  {
    SameLaneDisjoint(j.ops);
    if LogDisjoint(Run(j.ops).log) {
      OutputFromLog(j);
    }
    if OutputDisjoint(j, Emitted(j)) {
      LogFromOutput(j);
    }
  }

  /** No trimmed span directly below a thread span has length zero. */
  ghost predicate NoZeroLength(input: seq<InputSpan>) {
    forall s: nat :: s < |input| && IsTop(input, s) ==> input[s].end - TRIM != input[s].start
  }

  lemma NonZeroLog(j: Journal)
    requires Completed(j) && NoZeroLength(j.input)
    ensures NoSkips(j.ops)
  {
    var log := Run(j.ops).log;
    forall k | 0 <= k < |log|
      ensures log[k].at.start != log[k].at.end
    {
      LogEntry(j, k);
    }
    NonZeroLogNoSkips(j.ops);
  }

  /** In particular it does when no trimmed span directly below a thread span has length zero. */
  lemma NonZeroDisjoint(j: Journal)
    requires Completed(j) && NoZeroLength(j.input)
    ensures OutputDisjoint(j, Emitted(j))
  {
    NonZeroLog(j);
    NoSkipsHideNothing(j.ops);
    LanesDisjoint(j);
  }
}
