/** Lane assignment in the trace converter: a first-fit allocator with a preferred lane
    per request and process, over interval containers that look at two neighbours only. */
module LaneLayout {
  import opened Base

  datatype Interval = Interval(start: int, end: int)

  /** Tuple order, as used by the bisect module. */
  predicate Less(a: Interval, b: Interval) {
    a.start < b.start || (a.start == b.start && a.end < b.end)
  }

  predicate Sorted(s: seq<Interval>) {
    forall i, j :: 0 <= i < j < |s| ==> !Less(s[j], s[i])
  }

  /** The stored interval a stands in the way of a new span [start, end).  Lengths may be
      negative: trimming shortens every span by 1000 ns. */
  predicate Conflicts(a: Interval, start: int, end: int) {
    if a.start < start then a.end > start else a.start < end
  }

  /** The naive check: compare with every stored interval. */
  predicate AnyConflict(s: seq<Interval>, start: int, end: int) {
    exists i :: 0 <= i < |s| && Conflicts(s[i], start, end)
  }

  /** Lane invariant: sorted starts, and each entry ends before every later entry starts. */
  predicate Chain(s: seq<Interval>) {
    forall i, j :: 0 <= i < j < |s| ==> s[i].start <= s[j].start && s[i].end <= s[j].start
  }

  // ----- the interval container -----

  /** bisect_left(s, (start, -inf)): entries before the result start earlier than `start`. */
  function BisectStart(s: seq<Interval>, start: int): (k: nat)
    ensures k <= |s|
    ensures forall i :: 0 <= i < k ==> s[i].start < start
    ensures k < |s| ==> s[k].start >= start
  {
    if s != [] && s[0].start < start then 1 + BisectStart(s[1..], start) else 0
  }

  /** bisect_left(s, x). */
  function BisectLeft(s: seq<Interval>, x: Interval): (k: nat)
    ensures k <= |s|
    ensures forall i :: 0 <= i < k ==> Less(s[i], x)
    ensures k < |s| ==> !Less(s[k], x)
  {
    if s != [] && Less(s[0], x) then 1 + BisectLeft(s[1..], x) else 0
  }

  function Overlaps(s: seq<Interval>, start: int, end: int): bool {
    var idx := BisectStart(s, start);
    || (idx > 0 && s[idx - 1].end > start)
    || (idx < |s| && s[idx].start < end)
  }

  function Insert(s: seq<Interval>, x: Interval): seq<Interval> {
    var k := BisectLeft(s, x);
    s[..k] + [x] + s[k..]
  }

  /** The halving search of the bisect module, on the key `start`. */
  method FindStart(s: seq<Interval>, start: int) returns (lo: nat)
    requires Sorted(s)
    ensures lo == BisectStart(s, start)
  {
    var hi := |s|;
    lo := 0;
    while lo < hi
      invariant lo <= hi <= |s|
      invariant forall i :: 0 <= i < lo ==> s[i].start < start
      invariant forall i :: hi <= i < |s| ==> s[i].start >= start
    {
      var mid := (lo + hi) / 2;
      if s[mid].start < start {
        assert forall i :: 0 <= i < mid ==> !Less(s[mid], s[i]);
        lo := mid + 1;
      } else {
        assert forall i :: mid < i < |s| ==> !Less(s[i], s[mid]);
        hi := mid;
      }
    }
    assert lo < |s| ==> s[lo].start >= start;
    assert lo == BisectStart(s, start);
  }

  method FindLeft(s: seq<Interval>, x: Interval) returns (lo: nat)
    requires Sorted(s)
    ensures lo == BisectLeft(s, x)
  {
    var hi := |s|;
    lo := 0;
    while lo < hi
      invariant lo <= hi <= |s|
      invariant forall i :: 0 <= i < lo ==> Less(s[i], x)
      invariant forall i :: hi <= i < |s| ==> !Less(s[i], x)
    {
      var mid := (lo + hi) / 2;
      if Less(s[mid], x) {
        assert forall i :: 0 <= i < mid ==> !Less(s[mid], s[i]);
        lo := mid + 1;
      } else {
        assert forall i :: mid < i < |s| ==> !Less(s[i], s[mid]);
        hi := mid;
      }
    }
    assert lo < |s| ==> !Less(s[lo], x);
    assert lo == BisectLeft(s, x);
  }

  /** The two-neighbour check never reports a conflict that is not there. */
  lemma OverlapIsConflict(s: seq<Interval>, start: int, end: int)
    ensures Overlaps(s, start, end) ==> AnyConflict(s, start, end)
  {
    var idx := BisectStart(s, start);
    if idx > 0 && s[idx - 1].end > start {
      assert Conflicts(s[idx - 1], start, end);
    }
    if idx < |s| && s[idx].start < end {
      assert Conflicts(s[idx], start, end);
    }
  }

  /** On a lane that satisfies the invariant, checking two neighbours is checking everything. */
  lemma NeighboursSuffice(s: seq<Interval>, start: int, end: int)
    requires Chain(s)
    ensures Overlaps(s, start, end) <==> AnyConflict(s, start, end)
  {
    OverlapIsConflict(s, start, end);
    if !Overlaps(s, start, end) {
      var idx := BisectStart(s, start);
      forall i | 0 <= i < |s|
        ensures !Conflicts(s[i], start, end)
      {
        if i < idx {
          assert i < idx - 1 ==> s[i].end <= s[idx - 1].start;
        } else {
          assert idx < i ==> s[idx].start <= s[i].start;
        }
      }
    }
  }

  lemma InsertSorted(s: seq<Interval>, x: Interval)
    requires Sorted(s)
    ensures Sorted(Insert(s, x))
  {
    var k := BisectLeft(s, x);
    forall j | k <= j < |s|
      ensures !Less(s[j], x)
    {
      assert k < j ==> !Less(s[j], s[k]);
    }
    SortedAround(s, k, x);
  }

  lemma SortedAround(s: seq<Interval>, k: nat, x: Interval)
    requires Sorted(s) && k <= |s|
    requires forall i :: 0 <= i < k ==> Less(s[i], x)
    requires forall j :: k <= j < |s| ==> !Less(s[j], x)
    ensures Sorted(s[..k] + [x] + s[k..])
  {
  }

  lemma InsertContents(s: seq<Interval>, x: Interval)
    ensures multiset(Insert(s, x)) == multiset(s) + multiset{x}
  {
    var k := BisectLeft(s, x);
    assert s == s[..k] + s[k..];
  }

  /** Inserting where the naive check finds no conflict keeps the lane invariant. */
  lemma InsertKeepsChain(s: seq<Interval>, x: Interval)
    requires Sorted(s) && Chain(s) && !AnyConflict(s, x.start, x.end)
    ensures Chain(Insert(s, x))
  {
    var k := BisectLeft(s, x);
    forall i | 0 <= i < k
      ensures s[i].start <= x.start && s[i].end <= x.start
    {
      assert !Conflicts(s[i], x.start, x.end) && Less(s[i], x);
    }
    forall j | k <= j < |s|
      ensures x.start <= s[j].start && x.end <= s[j].start
    {
      assert !Conflicts(s[j], x.start, x.end);
      assert k < j ==> !Less(s[j], s[k]);
      assert !Less(s[j], x);
    }
    ChainAround(s, k, x);
  }

  lemma ChainAround(s: seq<Interval>, k: nat, x: Interval)
    requires Chain(s) && k <= |s|
    requires forall i :: 0 <= i < k ==> s[i].start <= x.start && s[i].end <= x.start
    requires forall j :: k <= j < |s| ==> x.start <= s[j].start && x.end <= s[j].start
    ensures Chain(s[..k] + [x] + s[k..])
  {
  }

  /** For a span of length zero a conflict always destroys the invariant. */
  lemma InsertBreaksChain(s: seq<Interval>, x: Interval)
    requires Sorted(s) && x.start == x.end && AnyConflict(s, x.start, x.end)
    ensures !Chain(Insert(s, x))
  {
    var k := BisectLeft(s, x);
    var i :| 0 <= i < |s| && Conflicts(s[i], x.start, x.end);
    assert forall j :: k < j < |s| ==> !Less(s[j], s[k]);
    assert i < k;
    var t := Insert(s, x);
    assert t[i] == s[i] && t[k] == x;
  }

  // ----- the allocator -----

  /** The lanes of one process.  The source keys them 1, 2, ... in a dictionary that only
      ever gains the key len + 1; lane number l is entry l - 1 of the list. */
  type Lanes = seq<seq<Interval>>

  datatype Placement = Placement(pid: int, line: nat, at: Interval)

  /** graph: the lanes of each process.  status: the current lane of the running request in
      each process.  slots: the slot records emitted so far.  log: all placements, oldest first. */
  datatype State = State(graph: map<int, Lanes>, status: map<int, nat>, slots: seq<(int, nat)>, log: seq<Placement>)

  const EMPTY := State(map[], map[], [], [])

  function LanesOf(st: State, pid: int): Lanes {
    if pid in st.graph then st.graph[pid] else []
  }

  /** First lane from l on without overlap; one past the last lane when there is none. */
  function FirstFree(lanes: Lanes, l: nat, x: Interval): (r: nat)
    requires 1 <= l <= |lanes| + 1
    ensures l <= r <= |lanes| + 1
    ensures forall m :: l - 1 <= m < r - 1 ==> Overlaps(lanes[m], x.start, x.end)
    ensures r <= |lanes| ==> !Overlaps(lanes[r - 1], x.start, x.end)
    decreases |lanes| + 1 - l
  {
    if l > |lanes| || !Overlaps(lanes[l - 1], x.start, x.end) then l else FirstFree(lanes, l + 1, x)
  }

  /** The current lanes of the running request exist. */
  ghost predicate StatusOk(st: State) {
    forall p :: p in st.status ==> 1 <= st.status[p] <= |LanesOf(st, p)|
  }

  /** The current lane is kept; for a span of length zero without looking at it. */
  predicate Sticky(st: State, pid: int, x: Interval)
    requires StatusOk(st)
  {
    && pid in st.status
    && (x.start == x.end || !Overlaps(LanesOf(st, pid)[st.status[pid] - 1], x.start, x.end))
  }

  /** The line that __find_line returns. */
  function ChooseLine(st: State, pid: int, x: Interval): (line: nat)
    requires StatusOk(st)
    ensures 1 <= line <= |LanesOf(st, pid)| + 1
  {
    if Sticky(st, pid, x) then st.status[pid] else FirstFree(LanesOf(st, pid), 1, x)
  }

  /** The lanes of the process after its line `line` has received x. */
  function PutOn(lanes: Lanes, line: nat, x: Interval): Lanes
    requires 1 <= line <= |lanes| + 1
  {
    if line == |lanes| + 1 then lanes + [Insert([], x)] else lanes[line - 1 := Insert(lanes[line - 1], x)]
  }

  /** The span x goes on the given line, which is the next new one or exists. */
  function PlaceAt(st: State, pid: int, line: nat, x: Interval): State
    requires 1 <= line <= |LanesOf(st, pid)| + 1
  {
    State(st.graph[pid := PutOn(LanesOf(st, pid), line, x)],
          st.status[pid := line],
          if line == |LanesOf(st, pid)| + 1 then st.slots + [(pid, line)] else st.slots,
          st.log + [Placement(pid, line, x)])
  }

  /** One turn of the layout loop: find a line, insert the span there. */
  function Place(st: State, pid: int, x: Interval): State
    requires StatusOk(st)
  {
    PlaceAt(st, pid, ChooseLine(st, pid, x), x)
  }

  /** A layout run starts a fresh status for each request and places its spans in turn. */
  datatype Op = NewRequest | Put(pid: int, at: Interval)

  function Step(st: State, op: Op): (st': State)
    requires StatusOk(st)
    ensures StatusOk(st')
  {
    match op
    case NewRequest => st.(status := map[])
    case Put(pid, x) => Place(st, pid, x)
  }

  function Run(ops: seq<Op>): (st: State)
    ensures StatusOk(st)
  {
    if ops == [] then EMPTY else Step(Run(ops[..|ops| - 1]), ops[|ops| - 1])
  }

  // ----- what every run keeps -----

  /** Every lane is sorted in tuple order, whatever was placed. */
  ghost predicate AllSorted(st: State) {
    forall p, l :: 0 <= l < |LanesOf(st, p)| ==> Sorted(LanesOf(st, p)[l])
  }

  ghost predicate AllChains(st: State) {
    forall p, l :: 0 <= l < |LanesOf(st, p)| ==> Chain(LanesOf(st, p)[l])
  }

  lemma PlaceKeepsSorted(st: State, pid: int, x: Interval)
    requires StatusOk(st) && AllSorted(st)
    ensures AllSorted(Place(st, pid, x))
  {
    var st' := Place(st, pid, x);
    InsertSorted(ChosenLane(st, pid, x), x);
    forall p, l: nat | l < |LanesOf(st', p)|
      ensures Sorted(LanesOf(st', p)[l])
    {
      PlaceEffect(st, pid, x, p, l);
    }
  }

  /** The step that goes wrong: a span of length zero is put on the current lane although an
      interval there contains its position. */
  ghost predicate SkipsConflict(st: State, pid: int, x: Interval)
    requires StatusOk(st)
  {
    && pid in st.status
    && x.start == x.end
    && AnyConflict(LanesOf(st, pid)[st.status[pid] - 1], x.start, x.end)
  }

  /** The contents of a line, empty when it is the next new one. */
  function LaneAt(st: State, pid: int, line: nat): seq<Interval>
    requires 1 <= line <= |LanesOf(st, pid)| + 1
  {
    if line <= |LanesOf(st, pid)| then LanesOf(st, pid)[line - 1] else []
  }

  /** The contents of the line that a placement chooses. */
  function ChosenLane(st: State, pid: int, x: Interval): seq<Interval>
    requires StatusOk(st)
  {
    LaneAt(st, pid, ChooseLine(st, pid, x))
  }

  lemma ChosenLaneConflict(st: State, pid: int, x: Interval)
    requires StatusOk(st) && Chain(ChosenLane(st, pid, x))
    ensures AnyConflict(ChosenLane(st, pid, x), x.start, x.end) <==> SkipsConflict(st, pid, x)
  {
    NeighboursSuffice(ChosenLane(st, pid, x), x.start, x.end);
    if pid in st.status && !Sticky(st, pid, x) {
      OverlapIsConflict(LanesOf(st, pid)[st.status[pid] - 1], x.start, x.end);
    }
  }

  lemma ChosenLaneChain(st: State, pid: int, x: Interval)
    requires StatusOk(st) && Sorted(ChosenLane(st, pid, x)) && Chain(ChosenLane(st, pid, x))
    ensures Chain(Insert(ChosenLane(st, pid, x), x)) <==> !SkipsConflict(st, pid, x)
  {
    ChosenLaneConflict(st, pid, x);
    if SkipsConflict(st, pid, x) {
      InsertBreaksChain(ChosenLane(st, pid, x), x);
    } else {
      InsertKeepsChain(ChosenLane(st, pid, x), x);
    }
  }

  /** A placement changes the chosen lane and no other. */
  lemma PlaceEffect(st: State, pid: int, x: Interval, p: int, l: nat)
    requires StatusOk(st)
    ensures var st', line := Place(st, pid, x), ChooseLine(st, pid, x);
            && |LanesOf(st', p)| == (if p == pid && line == |LanesOf(st, pid)| + 1 then line else |LanesOf(st, p)|)
            && (l < |LanesOf(st', p)| ==>
                  if p == pid && l == line - 1 then LanesOf(st', p)[l] == Insert(ChosenLane(st, pid, x), x)
                  else l < |LanesOf(st, p)| && LanesOf(st', p)[l] == LanesOf(st, p)[l])
  {
  }

  /** A placement keeps the lane invariant exactly when it does not skip a conflict. */
  lemma PlaceKeepsChains(st: State, pid: int, x: Interval)
    requires StatusOk(st) && AllSorted(st) && AllChains(st)
    ensures AllChains(Place(st, pid, x)) <==> !SkipsConflict(st, pid, x)
  {
    var line, st' := ChooseLine(st, pid, x), Place(st, pid, x);
    ChosenLaneChain(st, pid, x);
    PlaceEffect(st, pid, x, pid, line - 1);
    if !SkipsConflict(st, pid, x) {
      forall p, l: nat | l < |LanesOf(st', p)|
        ensures Chain(LanesOf(st', p)[l])
      {
        PlaceEffect(st, pid, x, p, l);
      }
    }
  }

  lemma {:induction false} RunSorted(ops: seq<Op>)
    ensures AllSorted(Run(ops))
  {
    if ops != [] {
      var n := |ops| - 1;
      RunSorted(ops[..n]);
      if ops[n].Put? {
        PlaceKeepsSorted(Run(ops[..n]), ops[n].pid, ops[n].at);
      } else {
        assert forall p :: LanesOf(Run(ops), p) == LanesOf(Run(ops[..n]), p);
      }
    }
  }

  /** Operation n of the run puts a span of length zero into an occupied spot. */
  ghost predicate SkipAt(ops: seq<Op>, n: nat)
    requires n < |ops|
  {
    ops[n].Put? && SkipsConflict(Run(ops[..n]), ops[n].pid, ops[n].at)
  }

  ghost predicate NoSkips(ops: seq<Op>) {
    forall n :: 0 <= n < |ops| ==> !SkipAt(ops, n)
  }

  ghost predicate ChainsThroughout(ops: seq<Op>) {
    forall n :: 0 <= n <= |ops| ==> AllChains(Run(ops[..n]))
  }

  lemma {:induction false} NoSkipsPrefix(ops: seq<Op>, n: nat)
    requires n <= |ops| && NoSkips(ops)
    ensures NoSkips(ops[..n])
  {
    forall m | 0 <= m < n
      ensures !SkipAt(ops[..n], m)
    {
      assert ops[..n][..m] == ops[..m];
      assert !SkipAt(ops, m);
    }
  }

  lemma {:induction false} NoSkipsKeepsChains(ops: seq<Op>)
    requires NoSkips(ops)
    ensures AllChains(Run(ops))
  {
    if ops != [] {
      var n := |ops| - 1;
      NoSkipsPrefix(ops, n);
      NoSkipsKeepsChains(ops[..n]);
      RunSorted(ops[..n]);
      if ops[n].Put? {
        assert !SkipAt(ops, n);
        PlaceKeepsChains(Run(ops[..n]), ops[n].pid, ops[n].at);
      } else {
        assert forall p :: LanesOf(Run(ops), p) == LanesOf(Run(ops[..n]), p);
      }
    }
  }

  /** Over whole runs, with placements jumping between processes and requests: the lane
      invariant holds throughout exactly when no zero-length span skips a conflict. */
  lemma RunKeepsChains(ops: seq<Op>)
    ensures ChainsThroughout(ops) <==> NoSkips(ops)
  {
    if NoSkips(ops) {
      forall n | 0 <= n <= |ops|
        ensures AllChains(Run(ops[..n]))
      {
        NoSkipsPrefix(ops, n);
        NoSkipsKeepsChains(ops[..n]);
      }
    }
    if ChainsThroughout(ops) {
      forall n | 0 <= n < |ops|
        ensures !SkipAt(ops, n)
      {
        RunSorted(ops[..n]);
        assert AllChains(Run(ops[..n])) && AllChains(Run(ops[..n + 1]));
        if ops[n].Put? {
          assert ops[..n + 1][..n] == ops[..n];
          assert Run(ops[..n + 1]) == Place(Run(ops[..n]), ops[n].pid, ops[n].at);
          PlaceKeepsChains(Run(ops[..n]), ops[n].pid, ops[n].at);
        }
      }
    }
  }

  /** In particular the invariant holds when no trimmed span has length zero. */
  lemma NonZeroRunKeepsChains(ops: seq<Op>)
    requires forall n :: 0 <= n < |ops| && ops[n].Put? ==> ops[n].at.start != ops[n].at.end
    ensures ChainsThroughout(ops)
  {
    assert forall n :: 0 <= n < |ops| ==> !SkipAt(ops, n);
    RunKeepsChains(ops);
  }

  // ----- lanes and the placements they received -----

  function OnLane(log: seq<Placement>, pid: int, line: nat): seq<Interval> {
    if log == [] then []
    else
      var rest, e := OnLane(log[..|log| - 1], pid, line), log[|log| - 1];
      if e.pid == pid && e.line == line then rest + [e.at] else rest
  }

  /** The lane holds exactly the spans that were placed on it. */
  ghost predicate Holds(lane: seq<Interval>, log: seq<Placement>, pid: int, line: nat) {
    multiset(lane) == multiset(OnLane(log, pid, line))
  }

  ghost predicate Recorded(st: State) {
    && (forall p, l: nat :: l < |LanesOf(st, p)| ==> Holds(LanesOf(st, p)[l], st.log, p, l + 1))
    && (forall n :: 0 <= n < |st.log| ==> 1 <= st.log[n].line <= |LanesOf(st, st.log[n].pid)|)
  }

  lemma {:induction false} OnLaneEmpty(log: seq<Placement>, pid: int, line: nat)
    requires forall n :: 0 <= n < |log| ==> log[n].pid != pid || log[n].line != line
    ensures OnLane(log, pid, line) == []
  {
    if log != [] {
      OnLaneEmpty(log[..|log| - 1], pid, line);
    }
  }

  lemma OnLaneStep(log: seq<Placement>, e: Placement, pid: int, line: nat)
    ensures OnLane(log + [e], pid, line)
         == if e.pid == pid && e.line == line then OnLane(log, pid, line) + [e.at] else OnLane(log, pid, line)
  {
    assert (log + [e])[..|log|] == log;
  }

  lemma HoldsStep(lane: seq<Interval>, log: seq<Placement>, e: Placement, pid: int, line: nat)
    requires Holds(lane, log, pid, line)
    ensures Holds(if e.pid == pid && e.line == line then Insert(lane, e.at) else lane, log + [e], pid, line)
  {
    OnLaneStep(log, e, pid, line);
    InsertContents(lane, e.at);
  }

  lemma LaneAtRecorded(st: State, pid: int, line: nat)
    requires Recorded(st) && 1 <= line <= |LanesOf(st, pid)| + 1
    ensures Holds(LaneAt(st, pid, line), st.log, pid, line)
  {
    if line <= |LanesOf(st, pid)| {
      var l: nat := line - 1;
      assert Holds(LanesOf(st, pid)[l], st.log, pid, l + 1);
    } else {
      OnLaneEmpty(st.log, pid, line);
    }
  }

  lemma PutEffect(st: State, pid: int, line: nat, x: Interval, p: int, l: nat)
    requires 1 <= line <= |LanesOf(st, pid)| + 1 && l < |LanesOf(PlaceAt(st, pid, line, x), p)|
    ensures l <= |LanesOf(st, p)|
    ensures LanesOf(PlaceAt(st, pid, line, x), p)[l]
         == if p == pid && l + 1 == line then Insert(LaneAt(st, p, line), x) else LaneAt(st, p, l + 1)
  {
  }

  lemma LaneRecorded(st: State, pid: int, line: nat, x: Interval, p: int, l: nat, lane: seq<Interval>)
    requires 1 <= line <= |LanesOf(st, pid)| + 1 && l <= |LanesOf(st, p)|
    requires Holds(LaneAt(st, p, l + 1), st.log, p, l + 1)
    requires lane == if p == pid && l + 1 == line then Insert(LaneAt(st, p, line), x) else LaneAt(st, p, l + 1)
    ensures Holds(lane, st.log + [Placement(pid, line, x)], p, l + 1)
  {
    HoldsStep(LaneAt(st, p, l + 1), st.log, Placement(pid, line, x), p, l + 1);
  }

  lemma PlaceRecorded(st: State, pid: int, line: nat, x: Interval)
    requires Recorded(st) && 1 <= line <= |LanesOf(st, pid)| + 1
    ensures Recorded(PlaceAt(st, pid, line, x))
  {
    var st' := PlaceAt(st, pid, line, x);
    forall p, l: nat | l < |LanesOf(st', p)|
      ensures Holds(LanesOf(st', p)[l], st'.log, p, l + 1)
    {
      PutEffect(st, pid, line, x, p, l);
      LaneAtRecorded(st, p, l + 1);
      LaneRecorded(st, pid, line, x, p, l, LanesOf(st', p)[l]);
    }
    forall n | 0 <= n < |st'.log|
      ensures 1 <= st'.log[n].line <= |LanesOf(st', st'.log[n].pid)|
    {
      assert n < |st.log| ==> st'.log[n] == st.log[n];
    }
  }

  lemma {:induction false} RunRecorded(ops: seq<Op>)
    ensures Recorded(Run(ops))
  {
    if ops != [] {
      var n := |ops| - 1;
      RunRecorded(ops[..n]);
      if ops[n].Put? {
        var (st, pid, x) := (Run(ops[..n]), ops[n].pid, ops[n].at);
        PlaceRecorded(st, pid, ChooseLine(st, pid, x), x);
      } else {
        assert forall p :: LanesOf(Run(ops), p) == LanesOf(Run(ops[..n]), p);
      }
    }
  }

  lemma {:induction false} OnLanePair(log: seq<Placement>, m: nat, n: nat)
    requires m < n < |log| && log[m].pid == log[n].pid && log[m].line == log[n].line
    ensures multiset{log[m].at, log[n].at} <= multiset(OnLane(log, log[n].pid, log[n].line))
  {
    var rest := log[..|log| - 1];
    if n < |log| - 1 {
      OnLanePair(rest, m, n);
    } else {
      OnLaneMember(rest, m);
    }
  }

  lemma {:induction false} OnLaneMember(log: seq<Placement>, m: nat)
    requires m < |log|
    ensures log[m].at in OnLane(log, log[m].pid, log[m].line)
  {
    if m < |log| - 1 {
      OnLaneMember(log[..|log| - 1], m);
    }
  }

  lemma PairPositions<T>(s: seq<T>, a: T, b: T)
    requires multiset{a, b} <= multiset(s)
    ensures exists i, j :: 0 <= i < |s| && 0 <= j < |s| && i != j && s[i] == a && s[j] == b
  {
    assert a in multiset(s) by {
      assert multiset{a, b}[a] >= 1;
    }
    var i :| 0 <= i < |s| && s[i] == a;
    var rest := s[..i] + s[i + 1..];
    assert s == s[..i] + [a] + s[i + 1..];
    assert multiset(s) == multiset(rest) + multiset{a};
    assert b in multiset(rest) by {
      assert multiset{a, b}[b] == (if a == b then 2 else 1);
    }
    var k :| 0 <= k < |rest| && rest[k] == b;
    var j := if k < i then k else k + 1;
    assert s[j] == b;
  }

  /** The log records every placement of the run. */
  lemma {:induction false} RunLogsPuts(ops: seq<Op>, n: nat)
    requires n < |ops| && ops[n].Put?
    ensures exists m: nat :: m < |Run(ops).log| && Run(ops).log[m].at == ops[n].at
  {
    var last := |ops| - 1;
    if n == last {
      assert Run(ops).log[|Run(ops).log| - 1].at == ops[n].at;
    } else {
      RunLogsPuts(ops[..last], n);
      var m: nat :| m < |Run(ops[..last]).log| && Run(ops[..last]).log[m].at == ops[n].at;
      assert Run(ops).log[m] == Run(ops[..last]).log[m];
    }
  }

  lemma NonZeroLogNoSkips(ops: seq<Op>)
    requires forall m :: 0 <= m < |Run(ops).log| ==> Run(ops).log[m].at.start != Run(ops).log[m].at.end
    ensures NoSkips(ops)
  {
    forall n | 0 <= n < |ops| && ops[n].Put?
      ensures ops[n].at.start != ops[n].at.end
    {
      RunLogsPuts(ops, n);
    }
    NonZeroRunKeepsChains(ops);
    RunKeepsChains(ops);
  }

  lemma RunSnoc(ops: seq<Op>, op: Op)
    ensures Run(ops + [op]) == Step(Run(ops), op)
  {
    assert (ops + [op])[..|ops|] == ops;
  }

  // ----- lane numbers, slot records, and how many lanes are opened -----

  function SlotLines(slots: seq<(int, nat)>, pid: int): seq<nat> {
    if slots == [] then []
    else
      var rest, e := SlotLines(slots[..|slots| - 1], pid), slots[|slots| - 1];
      if e.0 == pid then rest + [e.1] else rest
  }

  function OneTo(k: nat): seq<nat> {
    seq(k, i => i + 1)
  }

  /** Each process has one slot record for each of its lanes 1, ..., k, and no others. */
  lemma {:induction false} SlotsNumberLanes(ops: seq<Op>, pid: int)
    ensures SlotLines(Run(ops).slots, pid) == OneTo(|LanesOf(Run(ops), pid)|)
  {
    if ops != [] {
      var n := |ops| - 1;
      SlotsNumberLanes(ops[..n], pid);
      if ops[n].Put? {
        var st, st' := Run(ops[..n]), Run(ops);
        PlaceEffect(st, ops[n].pid, ops[n].at, pid, 0);
        assert st'.slots != st.slots ==> st'.slots[..|st'.slots| - 1] == st.slots;
      }
    }
  }

  /** A new lane is opened only when every existing lane of the process holds an interval
      that conflicts with the span. */
  lemma OpensOnlyWhenBlocked(st: State, pid: int, x: Interval)
    requires StatusOk(st) && ChooseLine(st, pid, x) == |LanesOf(st, pid)| + 1
    ensures forall l :: 0 <= l < |LanesOf(st, pid)| ==> AnyConflict(LanesOf(st, pid)[l], x.start, x.end)
  {
    forall l | 0 <= l < |LanesOf(st, pid)|
      ensures AnyConflict(LanesOf(st, pid)[l], x.start, x.end)
    {
      OverlapIsConflict(LanesOf(st, pid)[l], x.start, x.end);
    }
  }

  /** Earlier placements of the process that conflict with x, on lanes up to `lines`. */
  ghost function Rivals(log: seq<Placement>, pid: int, x: Interval, lines: nat): set<nat> {
    set m: nat | m < |log| && log[m].pid == pid && log[m].line <= lines && Conflicts(log[m].at, x.start, x.end)
  }

  lemma {:induction false} OnLaneSource(log: seq<Placement>, pid: int, line: nat, x: Interval)
    requires AnyConflict(OnLane(log, pid, line), x.start, x.end)
    ensures exists m: nat :: m < |log| && log[m].pid == pid && log[m].line == line &&
                             Conflicts(log[m].at, x.start, x.end)
  {
    var e, rest := log[|log| - 1], log[..|log| - 1];
    if e.pid == pid && e.line == line && Conflicts(e.at, x.start, x.end) {
    } else {
      var i :| 0 <= i < |OnLane(log, pid, line)| && Conflicts(OnLane(log, pid, line)[i], x.start, x.end);
      assert OnLane(rest, pid, line)[i] == OnLane(log, pid, line)[i];
      OnLaneSource(rest, pid, line, x);
    }
  }

  lemma LaneHoldsRival(st: State, pid: int, x: Interval, line: nat)
    requires Recorded(st) && 1 <= line <= |LanesOf(st, pid)|
    requires AnyConflict(LanesOf(st, pid)[line - 1], x.start, x.end)
    ensures exists m: nat :: m < |st.log| && st.log[m].pid == pid && st.log[m].line == line
                             && Conflicts(st.log[m].at, x.start, x.end)
  {
    var lane, placed := LanesOf(st, pid)[line - 1], OnLane(st.log, pid, line);
    assert Holds(lane, st.log, pid, (line - 1) + 1);
    var i :| 0 <= i < |lane| && Conflicts(lane[i], x.start, x.end);
    assert lane[i] in multiset(lane);
    assert lane[i] in placed;
    OnLaneSource(st.log, pid, line, x);
  }

  lemma {:induction false} RivalPerLane(st: State, pid: int, x: Interval, lines: nat)
    requires Recorded(st) && lines <= |LanesOf(st, pid)|
    requires forall l :: 0 <= l < lines ==> AnyConflict(LanesOf(st, pid)[l], x.start, x.end)
    ensures |Rivals(st.log, pid, x, lines)| >= lines
  {
    if lines != 0 {
      RivalPerLane(st, pid, x, lines - 1);
      LaneHoldsRival(st, pid, x, lines);
      var m: nat :| m < |st.log| && st.log[m].pid == pid && st.log[m].line == lines &&
                    Conflicts(st.log[m].at, x.start, x.end);
      var fewer, all := Rivals(st.log, pid, x, lines - 1), Rivals(st.log, pid, x, lines);
      assert fewer + {m} <= all && m !in fewer;
      SubsetSize(fewer + {m}, all);
    }
  }

  /** Placements before number n that conflict with it on its process. */
  ghost function ConflictsBefore(log: seq<Placement>, n: nat): set<nat>
    requires n < |log|
  {
    set m: nat | m < n && log[m].pid == log[n].pid && Conflicts(log[m].at, log[n].at.start, log[n].at.end)
  }

  /** Some placement of the process met at least k - 1 earlier conflicting placements. */
  ghost predicate LanesJustified(st: State, pid: int) {
    |LanesOf(st, pid)| == 0
    || exists n: nat :: n < |st.log| && st.log[n].pid == pid && |LanesOf(st, pid)| <= 1 + |ConflictsBefore(st.log, n)|
  }

  lemma NewLaneJustified(st: State, pid: int, x: Interval)
    requires StatusOk(st) && Recorded(st) && ChooseLine(st, pid, x) == |LanesOf(st, pid)| + 1
    ensures |LanesOf(st, pid)| <= |ConflictsBefore(Place(st, pid, x).log, |st.log|)|
  {
    var k := |LanesOf(st, pid)|;
    OpensOnlyWhenBlocked(st, pid, x);
    RivalPerLane(st, pid, x, k);
    SubsetSize(Rivals(st.log, pid, x, k), ConflictsBefore(Place(st, pid, x).log, |st.log|));
  }

  lemma ConflictsBeforeFrame(log: seq<Placement>, e: Placement, n: nat)
    requires n < |log|
    ensures (log + [e])[n] == log[n] && ConflictsBefore(log + [e], n) == ConflictsBefore(log, n)
  {
  }

  lemma PlaceJustified(st: State, pid: int, x: Interval, p: int)
    requires StatusOk(st) && Recorded(st) && LanesJustified(st, p)
    ensures LanesJustified(Place(st, pid, x), p)
  {
    var st' := Place(st, pid, x);
    PlaceEffect(st, pid, x, p, 0);
    if |LanesOf(st', p)| > |LanesOf(st, p)| {
      NewLaneJustified(st, pid, x);
    } else if |LanesOf(st, p)| != 0 {
      var n: nat :| n < |st.log| && st.log[n].pid == p && |LanesOf(st, p)| <= 1 + |ConflictsBefore(st.log, n)|;
      ConflictsBeforeFrame(st.log, Placement(pid, ChooseLine(st, pid, x), x), n);
    }
  }

  /** A process never uses more lanes than one plus the number of earlier spans that conflict
      with some single span of that process. */
  lemma {:induction false} LaneCountBounded(ops: seq<Op>, pid: int)
    ensures LanesJustified(Run(ops), pid)
  {
    if ops != [] {
      var n := |ops| - 1;
      LaneCountBounded(ops[..n], pid);
      RunRecorded(ops[..n]);
      if ops[n].Put? {
        PlaceJustified(Run(ops[..n]), ops[n].pid, ops[n].at, pid);
      } else {
        assert LanesOf(Run(ops), pid) == LanesOf(Run(ops[..n]), pid);
        assert Run(ops).log == Run(ops[..n]).log;
      }
    }
  }

  // ----- the layout as the source computes it -----

  /** SpanLayoutContainer.check_overlap. */
  method CheckOverlap(s: seq<Interval>, start: int, end: int) returns (overlap: bool)
    requires Sorted(s)
    ensures overlap == Overlaps(s, start, end)
    ensures Chain(s) ==> (overlap <==> AnyConflict(s, start, end))
  {
    var idx := FindStart(s, start);
    if Chain(s) {
      NeighboursSuffice(s, start, end);
    }
    if idx > 0 {
      if s[idx - 1].end > start {
        return true;
      }
    }
    if idx < |s| {
      if s[idx].start < end {
        return true;
      }
    }
    return false;
  }

  /** The loop of __find_line over the lanes of a process. */
  method ScanLanes(lanes: Lanes, start: int, end: int) returns (line: nat)
    requires forall l :: 0 <= l < |lanes| ==> Sorted(lanes[l])
    ensures line == FirstFree(lanes, 1, Interval(start, end))
  {
    line := 1;
    while line <= |lanes|
      invariant 1 <= line <= |lanes| + 1
      invariant FirstFree(lanes, 1, Interval(start, end)) == FirstFree(lanes, line, Interval(start, end))
    {
      var overlap := CheckOverlap(lanes[line - 1], start, end);
      if !overlap {
        return;
      }
      line := line + 1;
    }
  }

  class SpanLayout {
    var graph: map<int, Lanes>
    var status: map<int, nat>
    var slots: seq<(int, nat)>
    ghost var log: seq<Placement>

    ghost function View(): State
      reads this
    {
      State(graph, status, slots, log)
    }

    ghost predicate Valid()
      reads this
    {
      StatusOk(View()) && AllSorted(View())
    }

    constructor ()
      ensures Valid() && View() == EMPTY
    {
      graph, status, slots, log := map[], map[], [], [];
    }

    /** Each request starts without current lanes. */
    method StartRequest()
      requires Valid()
      modifies this
      ensures Valid() && View() == Step(old(View()), NewRequest)
    {
      status := map[];
      assert forall p :: LanesOf(View(), p) == old(LanesOf(View(), p));
    }

    /** __find_line: picks a line and opens it when it is new. */
    method FindLine(pid: int, start: int, end: int) returns (line: nat)
      requires Valid()
      modifies this`graph, this`status, this`slots
      ensures line == ChooseLine(old(View()), pid, Interval(start, end))
      ensures status == old(status)[pid := line]
      ensures var lanes := LanesOf(old(View()), pid);
              graph == if line == |lanes| + 1 then old(graph)[pid := lanes + [[]]] else old(graph)
      ensures slots == if line == |LanesOf(old(View()), pid)| + 1 then old(slots) + [(pid, line)] else old(slots)
    {
      ghost var st := View();
      if pid in status {
        line := status[pid];
        assert line <= |LanesOf(st, pid)|;
        if start == end {
          return;
        }
        var overlap := CheckOverlap(graph[pid][line - 1], start, end);
        if !overlap {
          return;
        }
      }
      line := FindFreeLine(pid, start, end);
    }

    /** The lines of a process in turn, and a new one when none is free. */
    method FindFreeLine(pid: int, start: int, end: int) returns (line: nat)
      requires Valid()
      modifies this`graph, this`status, this`slots
      ensures line == FirstFree(LanesOf(old(View()), pid), 1, Interval(start, end))
      ensures status == old(status)[pid := line]
      ensures var lanes := LanesOf(old(View()), pid);
              graph == if line == |lanes| + 1 then old(graph)[pid := lanes + [[]]] else old(graph)
      ensures slots == if line == |LanesOf(old(View()), pid)| + 1 then old(slots) + [(pid, line)] else old(slots)
    {
      ghost var st := View();
      if pid !in graph {
        line := 1;
        graph := graph[pid := [[]]];
        status := status[pid := line];
        slots := slots + [(pid, line)];
        assert LanesOf(st, pid) + [[]] == [[]];
        return;
      }
      var lanes := graph[pid];
      assert forall l :: 0 <= l < |lanes| ==> Sorted(lanes[l]) by {
        assert lanes == LanesOf(st, pid);
      }
      line := ScanLanes(lanes, start, end);
      status := status[pid := line];
      if line > |lanes| {
        graph := graph[pid := lanes + [[]]];
        slots := slots + [(pid, line)];
      }
    }

    /** One turn of the layout loop: find a line, insert the span there. */
    method PlaceSpan(pid: int, start: int, end: int) returns (line: nat)
      requires Valid()
      modifies this
      ensures Valid() && View() == Place(old(View()), pid, Interval(start, end))
      ensures line == ChooseLine(old(View()), pid, Interval(start, end))
    {
      ghost var st := View();
      var x := Interval(start, end);
      line := FindLine(pid, start, end);
      var lane := graph[pid][line - 1];
      assert lane == ChosenLane(st, pid, x);
      assert Sorted(lane);
      var k := FindLeft(lane, x);
      graph := graph[pid := graph[pid][line - 1 := lane[..k] + [x] + lane[k..]]];
      log := log + [Placement(pid, line, x)];
      assert graph[pid] == PutOn(LanesOf(st, pid), line, x);
      assert graph == st.graph[pid := PutOn(LanesOf(st, pid), line, x)];
      assert View() == Step(st, Put(pid, x));
      PlaceKeepsSorted(st, pid, x);
    }
  }
}
