/** What the lanes are for: no two spans of positive length on one lane overlap. The allocator
    keeps that promise on some runs only; this module says exactly on which. */
module LaneOverlap {
  import opened LaneLayout

  /** Two spans of positive length that overlap. */
  predicate Clash(a: Interval, b: Interval) {
    a.start < a.end && b.start < b.end && a.start < b.end && b.start < a.end
  }

  predicate LaneDisjoint(s: seq<Interval>) {
    forall i, j :: 0 <= i < j < |s| ==> !Clash(s[i], s[j])
  }

  /** What the two-neighbour check cannot see: a positive-length entry that starts before the
      left neighbour and reaches past the start of the new span. */
  predicate Hidden(s: seq<Interval>, x: Interval) {
    && x.start < x.end
    && exists i :: 0 <= i && i + 1 < BisectStart(s, x.start) && s[i].start < s[i].end && s[i].end > x.start
  }

  // ----- one lane -----

  lemma InsertDisjoint(s: seq<Interval>, x: Interval)
    ensures LaneDisjoint(Insert(s, x)) <==> LaneDisjoint(s) && forall i :: 0 <= i < |s| ==> !Clash(s[i], x)
  {
    var k, t := BisectLeft(s, x), Insert(s, x);
    assert t[k] == x;
    assert forall i :: 0 <= i < |s| ==> s[i] == t[if i < k then i else i + 1];
    if LaneDisjoint(t) {
      forall i, j | 0 <= i < j < |s|
        ensures !Clash(s[i], s[j])
      {
        assert !Clash(t[if i < k then i else i + 1], t[if j < k then j else j + 1]);
      }
      forall i | 0 <= i < |s|
        ensures !Clash(s[i], x)
      {
        assert i < k ==> !Clash(t[i], t[k]);
        assert i >= k ==> !Clash(t[k], t[i + 1]);
      }
    }
  }

  /** After a negative check, or for a span without length, the new span clashes with an entry
      exactly when the check could not see that entry. */
  lemma ClashIffHidden(s: seq<Interval>, x: Interval)
    requires Sorted(s) && (x.start == x.end || !Overlaps(s, x.start, x.end))
    ensures (exists i :: 0 <= i < |s| && Clash(s[i], x)) <==> Hidden(s, x)
  {
    var idx := BisectStart(s, x.start);
    if Hidden(s, x) {
      var i :| 0 <= i && i + 1 < idx && s[i].start < s[i].end && s[i].end > x.start;
      assert Clash(s[i], x);
    } else {
      forall i | 0 <= i < |s|
        ensures !Clash(s[i], x)
      {
        assert idx < i ==> !Less(s[i], s[idx]);
      }
    }
  }

  /** Inserting into a lane: exactly when its positive-length spans stay disjoint. */
  lemma InsertKeepsDisjoint(s: seq<Interval>, x: Interval)
    requires Sorted(s) && (x.start == x.end || !Overlaps(s, x.start, x.end))
    ensures LaneDisjoint(Insert(s, x)) <==> LaneDisjoint(s) && !Hidden(s, x)
  {
    InsertDisjoint(s, x);
    ClashIffHidden(s, x);
  }

  // ----- all lanes -----

  ghost predicate AllDisjoint(st: State) {
    forall p, l: nat :: l < |LanesOf(st, p)| ==> LaneDisjoint(LanesOf(st, p)[l])
  }

  lemma EmptyFree(x: Interval)
    ensures !Overlaps([], x.start, x.end)
  {
  }

  lemma FirstFreeFree(lanes: Lanes, x: Interval)
    ensures var line := FirstFree(lanes, 1, x);
            line <= |lanes| ==> !Overlaps(lanes[line - 1], x.start, x.end)
  {
  }

  /** A placement is checked, unless it has no length. */
  lemma ChosenFree(st: State, pid: int, x: Interval)
    requires StatusOk(st)
    ensures x.start == x.end || !Overlaps(ChosenLane(st, pid, x), x.start, x.end)
  {
    if !Sticky(st, pid, x) {
      FirstFreeFree(LanesOf(st, pid), x);
      EmptyFree(x);
    }
  }

  lemma ChosenSorted(st: State, pid: int, x: Interval)
    requires StatusOk(st) && AllSorted(st)
    ensures Sorted(ChosenLane(st, pid, x))
  {
  }

  lemma GrownLane(lane: seq<Interval>, now: seq<Interval>, x: Interval)
    requires now == lane || now == Insert(lane, x)
    ensures LaneDisjoint(now) ==> LaneDisjoint(lane)
  {
    InsertDisjoint(lane, x);
  }

  lemma LanesKept(st: State, pid: int, line: nat, x: Interval, p: int)
    requires 1 <= line <= |LanesOf(st, pid)| + 1
    ensures |LanesOf(st, p)| <= |LanesOf(PlaceAt(st, pid, line, x), p)|
  {
  }

  /** Lanes only grow: what was on a lane before a placement is on it afterwards. */
  lemma GrownDisjoint(st: State, pid: int, line: nat, x: Interval, p: int, l: nat)
    requires 1 <= line <= |LanesOf(st, pid)| + 1 && l < |LanesOf(st, p)|
    ensures l < |LanesOf(PlaceAt(st, pid, line, x), p)|
    ensures LaneDisjoint(LanesOf(PlaceAt(st, pid, line, x), p)[l]) ==> LaneDisjoint(LanesOf(st, p)[l])
  {
    LanesKept(st, pid, line, x, p);
    PutEffect(st, pid, line, x, p, l);
    GrownLane(LanesOf(st, p)[l], LanesOf(PlaceAt(st, pid, line, x), p)[l], x);
  }

  lemma PlacedDisjoint(st: State, pid: int, line: nat, x: Interval)
    requires 1 <= line <= |LanesOf(st, pid)| + 1 && AllDisjoint(PlaceAt(st, pid, line, x))
    ensures AllDisjoint(st) && LaneDisjoint(Insert(LaneAt(st, pid, line), x))
  {
    var l: nat := line - 1;
    PutEffect(st, pid, line, x, pid, l);
    assert LaneDisjoint(LanesOf(PlaceAt(st, pid, line, x), pid)[l]);
    forall p, k: nat | k < |LanesOf(st, p)|
      ensures LaneDisjoint(LanesOf(st, p)[k])
    {
      GrownDisjoint(st, pid, line, x, p, k);
    }
  }

  lemma PlaceStaysDisjoint(st: State, pid: int, line: nat, x: Interval)
    requires 1 <= line <= |LanesOf(st, pid)| + 1
    requires AllDisjoint(st) && LaneDisjoint(Insert(LaneAt(st, pid, line), x))
    ensures AllDisjoint(PlaceAt(st, pid, line, x))
  {
    forall p, l: nat | l < |LanesOf(PlaceAt(st, pid, line, x), p)|
      ensures LaneDisjoint(LanesOf(PlaceAt(st, pid, line, x), p)[l])
    {
      PutEffect(st, pid, line, x, p, l);
    }
  }

  lemma PlaceDisjoint(st: State, pid: int, line: nat, x: Interval)
    requires 1 <= line <= |LanesOf(st, pid)| + 1
    ensures AllDisjoint(PlaceAt(st, pid, line, x)) <==>
              AllDisjoint(st) && LaneDisjoint(Insert(LaneAt(st, pid, line), x))
  {
    if AllDisjoint(PlaceAt(st, pid, line, x)) {
      PlacedDisjoint(st, pid, line, x);
    }
    if AllDisjoint(st) && LaneDisjoint(Insert(LaneAt(st, pid, line), x)) {
      PlaceStaysDisjoint(st, pid, line, x);
    }
  }

  /** One placement keeps the promise exactly when the chosen lane hides nothing from it. */
  lemma PlaceKeepsDisjoint(st: State, pid: int, x: Interval)
    requires StatusOk(st) && AllSorted(st)
    ensures AllDisjoint(Place(st, pid, x)) <==> AllDisjoint(st) && !Hidden(ChosenLane(st, pid, x), x)
  {
    PlaceDisjoint(st, pid, ChooseLine(st, pid, x), x);
    ChosenFree(st, pid, x);
    ChosenSorted(st, pid, x);
    InsertKeepsDisjoint(ChosenLane(st, pid, x), x);
  }

  // ----- whole runs -----

  /** The operation puts a span on a lane that hides an overlapping span from it. */
  ghost predicate Hides(st: State, op: Op)
    requires StatusOk(st)
  {
    op.Put? && Hidden(ChosenLane(st, op.pid, op.at), op.at)
  }

  /** For each operation of a run, whether it does so in the state that it meets. */
  ghost function HiddenFrom(ops: seq<Op>): (r: seq<bool>)
    ensures |r| == |ops|
  {
    if ops == [] then []
    else HiddenFrom(ops[..|ops| - 1]) + [Hides(Run(ops[..|ops| - 1]), ops[|ops| - 1])]
  }

  ghost predicate NothingHidden(ops: seq<Op>) {
    forall n :: 0 <= n < |ops| ==> !HiddenFrom(ops)[n]
  }

  lemma {:induction false} HiddenFromMeans(ops: seq<Op>, n: nat)
    requires n < |ops|
    ensures HiddenFrom(ops)[n] <==> Hides(Run(ops[..n]), ops[n])
  {
    if n < |ops| - 1 {
      HiddenFromMeans(ops[..|ops| - 1], n);
      assert ops[..|ops| - 1][..n] == ops[..n];
    }
  }

  lemma HiddenPrefix(ops: seq<Op>)
    requires ops != []
    ensures NothingHidden(ops) <==>
              NothingHidden(ops[..|ops| - 1]) && !Hides(Run(ops[..|ops| - 1]), ops[|ops| - 1])
  {
    var flags, front := HiddenFrom(ops), HiddenFrom(ops[..|ops| - 1]);
    assert flags[|ops| - 1] <==> Hides(Run(ops[..|ops| - 1]), ops[|ops| - 1]);
    assert forall n :: 0 <= n < |front| ==> flags[n] == front[n];
  }

  lemma StepDisjoint(ops: seq<Op>)
    requires ops != []
    ensures var st := Run(ops[..|ops| - 1]);
            AllDisjoint(Run(ops)) <==> AllDisjoint(st) && !Hides(st, ops[|ops| - 1])
  {
    var st, op := Run(ops[..|ops| - 1]), ops[|ops| - 1];
    if op.Put? {
      RunSorted(ops[..|ops| - 1]);
      PlaceKeepsDisjoint(st, op.pid, op.at);
    } else {
      assert forall p :: LanesOf(Run(ops), p) == LanesOf(st, p);
    }
  }

  lemma {:induction false} RunDisjoint(ops: seq<Op>)
    ensures AllDisjoint(Run(ops)) <==> NothingHidden(ops)
  {
    if ops != [] {
      RunDisjoint(ops[..|ops| - 1]);
      StepDisjoint(ops);
      HiddenPrefix(ops);
    }
  }

  // ----- the placements -----

  /** No two placements on one lane of one process clash. */
  ghost predicate LogDisjoint(log: seq<Placement>) {
    forall m, n :: 0 <= m < n < |log| && log[m].pid == log[n].pid && log[m].line == log[n].line ==>
      !Clash(log[m].at, log[n].at)
  }

  lemma LaneToLog(lane: seq<Interval>, log: seq<Placement>, m: nat, n: nat)
    requires m < n < |log| && log[m].pid == log[n].pid && log[m].line == log[n].line
    requires Holds(lane, log, log[n].pid, log[n].line) && LaneDisjoint(lane)
    ensures !Clash(log[m].at, log[n].at)
  {
    OnLanePair(log, m, n);
    PairPositions(lane, log[m].at, log[n].at);
    var i, j :| 0 <= i < |lane| && 0 <= j < |lane| && i != j && lane[i] == log[m].at && lane[j] == log[n].at;
    assert i < j || j < i;
  }

  lemma LaneOfPlacement(st: State, n: nat) returns (lane: seq<Interval>)
    requires Recorded(st) && AllDisjoint(st) && n < |st.log|
    ensures Holds(lane, st.log, st.log[n].pid, st.log[n].line) && LaneDisjoint(lane)
  {
    var p, l: nat := st.log[n].pid, st.log[n].line - 1;
    lane := LanesOf(st, p)[l];
    assert Holds(lane, st.log, p, l + 1);
  }

  lemma LanesToLog(st: State, m: nat, n: nat)
    requires Recorded(st) && AllDisjoint(st) && m < n < |st.log|
    requires st.log[m].pid == st.log[n].pid && st.log[m].line == st.log[n].line
    ensures !Clash(st.log[m].at, st.log[n].at)
  {
    var lane := LaneOfPlacement(st, n);
    LaneToLog(lane, st.log, m, n);
  }

  /** Two entries of a lane are two placements. */
  lemma {:induction false} OnLaneSources(log: seq<Placement>, pid: int, line: nat, i: nat, j: nat) returns (m: nat,
                                         n: nat)
    requires i < j < |OnLane(log, pid, line)|
    ensures m < n < |log|
    ensures log[m].pid == log[n].pid == pid && log[m].line == log[n].line == line
    ensures log[m].at == OnLane(log, pid, line)[i] && log[n].at == OnLane(log, pid, line)[j]
  {
    var k, placed := |log| - 1, OnLane(log[..|log| - 1], pid, line);
    if j < |placed| {
      m, n := OnLaneSources(log[..k], pid, line, i, j);
    } else {
      n := k;
      m := OnLaneSource1(log[..k], pid, line, i);
    }
  }

  lemma {:induction false} OnLaneSource1(log: seq<Placement>, pid: int, line: nat, i: nat) returns (m: nat)
    requires i < |OnLane(log, pid, line)|
    ensures m < |log| && log[m].pid == pid && log[m].line == line && log[m].at == OnLane(log, pid, line)[i]
  {
    var k := |log| - 1;
    if i < |OnLane(log[..k], pid, line)| {
      m := OnLaneSource1(log[..k], pid, line, i);
    } else {
      m := k;
    }
  }

  lemma PairIn<T>(s: seq<T>, i: nat, j: nat)
    requires i < j < |s|
    ensures multiset{s[i], s[j]} <= multiset(s)
  {
    assert s == s[..i] + [s[i]] + s[i + 1..j] + [s[j]] + s[j + 1..];
  }

  lemma LogToLanes(st: State, p: int, l: nat)
    requires Recorded(st) && LogDisjoint(st.log) && l < |LanesOf(st, p)|
    ensures LaneDisjoint(LanesOf(st, p)[l])
  {
    var lane, placed := LanesOf(st, p)[l], OnLane(st.log, p, l + 1);
    assert Holds(lane, st.log, p, l + 1);
    forall i, j | 0 <= i < j < |lane|
      ensures !Clash(lane[i], lane[j])
    {
      PairIn(lane, i, j);
      PairPositions(placed, lane[i], lane[j]);
      var a, b :| 0 <= a < |placed| && 0 <= b < |placed| && a != b && placed[a] == lane[i] && placed[b] == lane[j];
      var m, n := OnLaneSources(st.log, p, l + 1, if a < b then a else b, if a < b then b else a);
      assert !Clash(st.log[m].at, st.log[n].at);
    }
  }

  /** The promise, exactly: in a run of the layout no two placements of positive length on one
      lane of one process overlap if and only if no placement met a lane that hid an
      overlapping span from the check. */
  lemma SameLaneDisjoint(ops: seq<Op>)
    ensures LogDisjoint(Run(ops).log) <==> NothingHidden(ops)
  {
    var st := Run(ops);
    RunRecorded(ops);
    RunDisjoint(ops);
    if AllDisjoint(st) {
      forall m, n | 0 <= m < n < |st.log| && st.log[m].pid == st.log[n].pid && st.log[m].line == st.log[n].line
        ensures !Clash(st.log[m].at, st.log[n].at)
      {
        LanesToLog(st, m, n);
      }
    }
    if LogDisjoint(st.log) {
      forall p, l: nat | l < |LanesOf(st, p)|
        ensures LaneDisjoint(LanesOf(st, p)[l])
      {
        LogToLanes(st, p, l);
      }
    }
  }

  lemma ChainHidesNothing(s: seq<Interval>, x: Interval)
    requires Chain(s)
    ensures !Hidden(s, x)
  {
    var idx := BisectStart(s, x.start);
    assert forall i :: 0 <= i && i + 1 < idx ==> s[i].end <= s[idx - 1].start;
  }

  lemma ChainsHideNothing(st: State, op: Op)
    requires StatusOk(st) && AllChains(st)
    ensures !Hides(st, op)
  {
    if op.Put? {
      ChainHidesNothing(ChosenLane(st, op.pid, op.at), op.at);
    }
  }

  /** Only a skipped conflict can hide a span: runs without one keep the promise. */
  lemma NoSkipsHideNothing(ops: seq<Op>)
    requires NoSkips(ops)
    ensures NothingHidden(ops)
  {
    RunKeepsChains(ops);
    forall n: nat | n < |ops|
      ensures !HiddenFrom(ops)[n]
    {
      HiddenFromMeans(ops, n);
      assert AllChains(Run(ops[..n]));
      ChainsHideNothing(Run(ops[..n]), ops[n]);
    }
  }

  /** A skipped conflict need not do harm: [5, 5] inside [0, 10) hides nothing by itself. */
  lemma HarmlessSkip()
    ensures var ops := [Put(1, Interval(0, 10))] + [Put(1, Interval(5, 5))];
            !NoSkips(ops) && NothingHidden(ops)
  {
    var a, b := Interval(0, 10), Interval(5, 5);
    var ops := [Put(1, a)] + [Put(1, b)];
    assert ops[..1] == [Put(1, a)] && ops[..0] == [];
    RunSnoc([], Put(1, a));
    assert [] + [Put(1, a)] == [Put(1, a)];
    var st := Run(ops[..1]);
    assert Insert([], a) == [a];
    assert LanesOf(st, 1) == [[a]] && st.status[1] == 1;
    assert Conflicts([a][0], 5, 5);
    assert SkipAt(ops, 1);
    HiddenFromMeans(ops, 0);
    HiddenFromMeans(ops, 1);
  }

  // ----- the promise fails -----

  const LONG := Interval(0, 10)
  const POINT := Interval(5, 5)
  const SHORT := Interval(7, 8)

  /** One lane of one process, with the given placements in order. */
  function OneLane(pid: int, lane: seq<Interval>, log: seq<Placement>): State {
    State(map[pid := [lane]], map[pid := 1], [(pid, 1)], log)
  }

  lemma InsertFirst(x: Interval)
    ensures Insert([], x) == [x]
  {
  }

  lemma PutFirst(x: Interval)
    ensures PutOn([], 1, x) == [[x]]
  {
    InsertFirst(x);
  }

  lemma FirstLine(pid: int, x: Interval)
    ensures LanesOf(EMPTY, pid) == [] && ChooseLine(EMPTY, pid, x) == 1
  {
  }

  /** The first placement of all opens lane 1. */
  lemma PlaceFirst(pid: int, x: Interval)
    ensures Place(EMPTY, pid, x) == OneLane(pid, [x], [Placement(pid, 1, x)])
  {
    FirstLine(pid, x);
    PutFirst(x);
  }

  /** Placing on the one lane there is. */
  lemma PlaceOnOnly(pid: int, lane: seq<Interval>, log: seq<Placement>, x: Interval)
    requires x.start == x.end || !Overlaps(lane, x.start, x.end)
    ensures StatusOk(OneLane(pid, lane, log))
    ensures Place(OneLane(pid, lane, log), pid, x) == OneLane(pid, Insert(lane, x), log + [Placement(pid, 1, x)])
  {
    assert PutOn([lane], 1, x) == [Insert(lane, x)];
    assert map[pid := [lane]][pid := [Insert(lane, x)]] == map[pid := [Insert(lane, x)]];
    assert map[pid := 1][pid := 1] == map[pid := 1];
  }

  /** The current lane takes the point without a check. */
  lemma PointFits()
    ensures Insert([LONG], POINT) == [LONG, POINT]
  {
    assert BisectLeft([LONG], POINT) == 1;
  }

  /** Then the point is the left neighbour, and the long span behind it is not looked at. */
  lemma ShortFits()
    ensures !Overlaps([LONG, POINT], SHORT.start, SHORT.end)
    ensures Insert([LONG, POINT], SHORT) == [LONG, POINT, SHORT]
  {
    assert [LONG, POINT][1..] == [POINT];
    assert BisectStart([POINT], 7) == 1 && BisectStart([LONG, POINT], 7) == 2;
    assert BisectLeft([POINT], SHORT) == 1 && BisectLeft([LONG, POINT], SHORT) == 2;
  }

  function LongOps(pid: int): seq<Op> {
    [NewRequest] + [Put(pid, LONG)]
  }

  lemma RunLong(pid: int)
    ensures Run(LongOps(pid)) == OneLane(pid, [LONG], [Placement(pid, 1, LONG)])
  {
    RunSnoc([], NewRequest);
    assert [] + [NewRequest] == [NewRequest];
    RunSnoc([NewRequest], Put(pid, LONG));
    PlaceFirst(pid, LONG);
  }

  lemma RunPoint(pid: int)
    ensures Run(LongOps(pid) + [Put(pid, POINT)])
         == OneLane(pid, [LONG, POINT], [Placement(pid, 1, LONG)] + [Placement(pid, 1, POINT)])
  {
    RunLong(pid);
    RunSnoc(LongOps(pid), Put(pid, POINT));
    PlaceOnOnly(pid, [LONG], [Placement(pid, 1, LONG)], POINT);
    PointFits();
  }

  /** A span of length zero at 5 is accepted inside [0, 10) and then hides it from the
      two-neighbour check of [7, 8), in any process. */
  lemma ZeroLengthSpanBreaksLane(pid: int)
    ensures var ops := LongOps(pid) + [Put(pid, POINT)] + [Put(pid, SHORT)];
            && Run(ops).log == [Placement(pid, 1, LONG), Placement(pid, 1, POINT), Placement(pid, 1, SHORT)]
            && !LogDisjoint(Run(ops).log)
  {
    var log := [Placement(pid, 1, LONG)] + [Placement(pid, 1, POINT)];
    RunPoint(pid);
    RunSnoc(LongOps(pid) + [Put(pid, POINT)], Put(pid, SHORT));
    ShortFits();
    PlaceOnOnly(pid, [LONG, POINT], log, SHORT);
    var all := log + [Placement(pid, 1, SHORT)];
    assert Clash(all[0].at, all[2].at);
  }
}
