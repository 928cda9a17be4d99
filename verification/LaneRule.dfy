/** Which line a span gets, in terms of the placements made so far: a request stays on the line it
    used last in a process, and moves to the first free line when that one is occupied. */
module LaneRule {
  import opened Base
  import opened LaneLayout

  /** The line of the last placement in the process since the last request began. */
  function CurrentLine(ops: seq<Op>, pid: int): Option<nat> {
    if ops == [] then None
    else
      match ops[|ops| - 1]
      case NewRequest => None
      case Put(p, _) =>
        var log := Run(ops).log;
        if p == pid && log != [] then Some(log[|log| - 1].line) else CurrentLine(ops[..|ops| - 1], pid)
  }

  /** The line exists and the two-neighbour check finds nothing on it. */
  predicate FreeLine(lanes: Lanes, line: nat, x: Interval) {
    1 <= line <= |lanes| && !Overlaps(lanes[line - 1], x.start, x.end)
  }

  /** The least free line, or one new line when no line is free. */
  ghost predicate LeastFree(lanes: Lanes, line: nat, x: Interval) {
    && 1 <= line <= |lanes| + 1
    && (forall l: nat :: 1 <= l < line ==> !FreeLine(lanes, l, x))
    && (line <= |lanes| ==> FreeLine(lanes, line, x))
  }

  /** The request keeps its line for a span of length zero and for one that finds it free. */
  ghost predicate Keeps(lanes: Lanes, current: Option<nat>, x: Interval) {
    current.Some? && (x.start == x.end || FreeLine(lanes, current.value, x))
  }

  ghost predicate FollowsRule(lanes: Lanes, current: Option<nat>, line: nat, x: Interval) {
    if Keeps(lanes, current, x) then line == current.value else LeastFree(lanes, line, x)
  }

  lemma RunOne(ops: seq<Op>, op: Op)
    ensures Run(ops + [op]) == Step(Run(ops), op)
  {
    assert (ops + [op])[..|ops|] == ops;
  }

  /** The status entry of a process. */
  function Status(st: State, pid: int): Option<nat> {
    if pid in st.status then Some(st.status[pid]) else None
  }

  lemma StatusOne(st: State, op: Op, pid: int)
    requires StatusOk(st)
    ensures Status(Step(st, op), pid)
         == match op
            case NewRequest => None
            case Put(p, x) => if p == pid then Some(ChooseLine(st, p, x)) else Status(st, pid)
  {
  }

  /** What the last operation does to the current line and to the status alike. */
  function After(op: Op, line: nat, before: Option<nat>, pid: int): Option<nat> {
    match op
    case NewRequest => None
    case Put(p, _) => if p == pid then Some(line) else before
  }

  /** The line that the last operation chose, if it is a placement. */
  function LastLine(ops: seq<Op>): nat
    requires ops != []
  {
    var op := ops[|ops| - 1];
    if op.Put? then ChooseLine(Run(ops[..|ops| - 1]), op.pid, op.at) else 0
  }

  lemma CurrentLast(ops: seq<Op>, pid: int)
    requires ops != []
    ensures CurrentLine(ops, pid)
         == After(ops[|ops| - 1], LastLine(ops), CurrentLine(ops[..|ops| - 1], pid), pid)
  {
  }

  lemma StatusLast(ops: seq<Op>, pid: int)
    requires ops != []
    ensures Status(Run(ops), pid)
         == After(ops[|ops| - 1], LastLine(ops), Status(Run(ops[..|ops| - 1]), pid), pid)
  {
    StatusOne(Run(ops[..|ops| - 1]), ops[|ops| - 1], pid);
  }

  /** The recorded status is the current line. */
  lemma {:induction false} StatusIsCurrent(ops: seq<Op>, pid: int)
    ensures Status(Run(ops), pid) == CurrentLine(ops, pid)
  {
    if ops != [] {
      StatusIsCurrent(ops[..|ops| - 1], pid);
      CurrentLast(ops, pid);
      StatusLast(ops, pid);
    }
  }

  lemma FirstFreeLeast(lanes: Lanes, x: Interval)
    ensures LeastFree(lanes, FirstFree(lanes, 1, x), x)
  {
  }

  lemma ChosenByRule(st: State, pid: int, x: Interval, current: Option<nat>)
    requires StatusOk(st)
    requires current == Status(st, pid)
    ensures FollowsRule(LanesOf(st, pid), current, ChooseLine(st, pid, x), x)
  {
    if pid in st.status {
      assert 1 <= st.status[pid] <= |LanesOf(st, pid)|;
    }
    FirstFreeLeast(LanesOf(st, pid), x);
  }

  /** Every placement of every run: the log grows by that placement, on the line that the rule
      names. */
  lemma PlacedByRule(ops: seq<Op>, pid: int, x: Interval) returns (line: nat)
    ensures Run(ops + [Put(pid, x)]).log == Run(ops).log + [Placement(pid, line, x)]
    ensures FollowsRule(LanesOf(Run(ops), pid), CurrentLine(ops, pid), line, x)
  {
    RunOne(ops, Put(pid, x));
    StatusIsCurrent(ops, pid);
    line := ChooseLine(Run(ops), pid, x);
    ChosenByRule(Run(ops), pid, x, CurrentLine(ops, pid));
  }

  // ----- from the log alone -----

  /** The lanes of a process after the placements in a log. */
  function LanesAfter(log: seq<Placement>, pid: int): Lanes {
    if log == [] then []
    else
      var rest, e := LanesAfter(log[..|log| - 1], pid), log[|log| - 1];
      if e.pid == pid && 1 <= e.line <= |rest| + 1 then PutOn(rest, e.line, e.at) else rest
  }

  lemma LanesAfterOne(log: seq<Placement>, e: Placement, pid: int)
    ensures LanesAfter(log + [e], pid)
         == var rest := LanesAfter(log, pid);
            if e.pid == pid && 1 <= e.line <= |rest| + 1 then PutOn(rest, e.line, e.at) else rest
  {
    assert (log + [e])[..|log|] == log;
  }

  lemma {:induction false} LanesFromLog(ops: seq<Op>, pid: int)
    ensures LanesOf(Run(ops), pid) == LanesAfter(Run(ops).log, pid)
  {
    if ops != [] {
      var n := |ops| - 1;
      LanesFromLog(ops[..n], pid);
      if ops[n].Put? {
        var st := Run(ops[..n]);
        LanesAfterOne(st.log, Placement(ops[n].pid, ChooseLine(st, ops[n].pid, ops[n].at), ops[n].at), pid);
      }
    }
  }

  /** The line of the latest placement from number lo on that went into the process. */
  function LastIn(log: seq<Placement>, lo: nat, pid: int): Option<nat> {
    if |log| <= lo then None
    else if log[|log| - 1].pid == pid then Some(log[|log| - 1].line)
    else LastIn(log[..|log| - 1], lo, pid)
  }

  lemma LastInOne(log: seq<Placement>, e: Placement, lo: nat, pid: int)
    requires lo <= |log|
    ensures LastIn(log + [e], lo, pid) == if e.pid == pid then Some(e.line) else LastIn(log, lo, pid)
  {
    assert (log + [e])[..|log|] == log;
  }

  /** The number of placements. */
  function Puts(ops: seq<Op>): nat {
    if ops == [] then 0 else Puts(ops[..|ops| - 1]) + if ops[|ops| - 1].Put? then 1 else 0
  }

  /** The number of placements before the running request. */
  function Earlier(ops: seq<Op>): (n: nat)
    ensures n <= Puts(ops)
  {
    if ops == [] then 0
    else if ops[|ops| - 1].Put? then Earlier(ops[..|ops| - 1])
    else Puts(ops[..|ops| - 1])
  }

  lemma {:induction false} LogSize(ops: seq<Op>)
    ensures |Run(ops).log| == Puts(ops)
  {
    if ops != [] {
      LogSize(ops[..|ops| - 1]);
    }
  }

  /** The current line is that of the running request's latest placement in the process. */
  lemma {:induction false} CurrentIsLast(ops: seq<Op>, pid: int)
    ensures CurrentLine(ops, pid) == LastIn(Run(ops).log, Earlier(ops), pid)
  {
    if ops != [] {
      var n := |ops| - 1;
      CurrentIsLast(ops[..n], pid);
      LogSize(ops[..n]);
      if ops[n].Put? {
        var st := Run(ops[..n]);
        LastInOne(st.log, Placement(ops[n].pid, ChooseLine(st, ops[n].pid, ops[n].at), ops[n].at), Earlier(ops), pid);
      }
    }
  }

  /** The last entry of the log follows the rule, where the running request began after lo entries. */
  ghost predicate LastByRule(log: seq<Placement>, lo: nat) {
    && log != []
    && var e, before := log[|log| - 1], log[..|log| - 1];
       FollowsRule(LanesAfter(before, e.pid), LastIn(before, lo, e.pid), e.line, e.at)
  }

  lemma LastPlaced(ops: seq<Op>, pid: int, x: Interval)
    ensures LastByRule(Run(ops + [Put(pid, x)]).log, Earlier(ops))
  {
    var line := PlacedByRule(ops, pid, x);
    CurrentIsLast(ops, pid);
    LanesFromLog(ops, pid);
    var log := Run(ops).log;
    assert (log + [Placement(pid, line, x)])[..|log|] == log;
  }

  lemma PutsOne(ops: seq<Op>, n: nat)
    requires n < |ops| && ops[n].Put?
    ensures Puts(ops[..n + 1]) == Puts(ops[..n]) + 1
    ensures ops[..n] + [Put(ops[n].pid, ops[n].at)] == ops[..n + 1]
  {
    assert ops[..n + 1][..n] == ops[..n];
  }

  lemma LogStep(ops: seq<Op>)
    requires ops != []
    ensures Run(ops[..|ops| - 1]).log <= Run(ops).log
  {
  }

  /** The log of the first n operations is a prefix of the log. */
  lemma {:induction false} LogPrefix(ops: seq<Op>, n: nat)
    requires n <= |ops|
    ensures Run(ops[..n]).log <= Run(ops).log
  {
    if n == |ops| {
      assert ops[..n] == ops;
    } else {
      var less := ops[..|ops| - 1];
      LogPrefix(less, n);
      assert less[..n] == ops[..n];
      LogStep(ops);
    }
  }

  lemma LogAt(ops: seq<Op>, n: nat)
    requires n <= |ops|
    ensures Puts(ops[..n]) <= |Run(ops).log|
    ensures Run(ops[..n]).log == Run(ops).log[..Puts(ops[..n])]
  {
    LogPrefix(ops, n);
    LogSize(ops[..n]);
  }

  /** Every entry of the log of a run follows the rule. */
  lemma LogByRule(ops: seq<Op>, n: nat)
    requires n < |ops| && ops[n].Put?
    ensures Puts(ops[..n]) < |Run(ops).log|
    ensures LastByRule(Run(ops).log[..Puts(ops[..n]) + 1], Earlier(ops[..n]))
  {
    PutsOne(ops, n);
    LogAt(ops, n + 1);
    LastPlaced(ops[..n], ops[n].pid, ops[n].at);
  }
}
