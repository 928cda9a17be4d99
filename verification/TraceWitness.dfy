/** A trace whose conversion breaks the promise of the layout: three spans under one thread span
    whose ends are 1010, 1005 and 1008, so that the second has length zero after the trim. */
module TraceWitness {
  import opened Base
  import opened Chains
  import opened SpanForest
  import opened Sorting
  import opened TraceSpans
  import opened TraceConverter
  import opened TraceLayout
  import opened TraceOutput
  import opened TraceLanes
  import opened LaneLayout
  import opened LaneOverlap

  const REQUEST := InputSpan("0", "", "request", map["module" := "sglang::request", "rid" := "7"], 0, 2000)
  const THREAD := InputSpan("1", "0", "thread", map["pid" := "1", "host_id" := "h", "thread_label" := "t"], 0, 2000)

  const WITNESS := [
    REQUEST,
    THREAD,
    InputSpan("2", "1", "long", map[], 0, 1010),
    InputSpan("3", "1", "point", map[], 5, 1005),
    InputSpan("4", "1", "short", map[], 7, 1008)]

  const LINKS: Links := [None, Some(0), Some(1), Some(1), Some(1)]

  // ----- its forest -----

  lemma Attributes()
    ensures IsRequest(REQUEST.attributes) && !IsRequest(THREAD.attributes)
    ensures "rid" in REQUEST.attributes && ThreadAttributes(Loaded(THREAD))
    ensures forall i :: 1 <= i < 5 ==> !IsRequest(WITNESS[i].attributes)
  {
    assert "module"[0] != "pid"[0] && "module"[0] != "host_id"[0] && "module"[0] != "thread_label"[0];
  }

  lemma Ids(keys: seq<Key>)
    requires keys == Keys(WITNESS)
    ensures LastWithId(keys, "0") == Some(0) && LastWithId(keys, "1") == Some(1)
  {
    LastWithIdMeans(keys, "0");
    LastWithIdMeans(keys, "1");
    assert keys[0].id == "0" && keys[1].id == "1" && keys[2].id == "2" && keys[3].id == "3" && keys[4].id == "4";
    assert "0"[0] != "1"[0] && "0"[0] != "2"[0] && "0"[0] != "3"[0] && "0"[0] != "4"[0];
    assert "1"[0] != "2"[0] && "1"[0] != "3"[0] && "1"[0] != "4"[0];
  }

  lemma WitnessLinks()
    ensures ParentTable(WITNESS) == LINKS
  {
    var keys := Keys(WITNESS);
    Attributes();
    Ids(keys);
    forall k | 0 <= k < 5
      ensures ParentOf(keys, k) == LINKS[k]
    {
      assert keys[k] == Key(WITNESS[k].spanId, WITNESS[k].parentSpanId, IsRequest(WITNESS[k].attributes));
    }
  }

  lemma WitnessRequests()
    ensures RequestsIn(WITNESS) == [0]
  {
    var keys := Keys(WITNESS);
    Attributes();
    assert keys[0].request && !keys[1].request && !keys[2].request && !keys[3].request && !keys[4].request;
    assert Roots(keys, 0) == [];
    assert Roots(keys, 1) == [0];
    assert Roots(keys, 2) == [0];
    assert Roots(keys, 3) == [0];
    assert Roots(keys, 4) == [0];
  }

  lemma KidsOfRequest()
    ensures Kids(LINKS, 0, 5) == [1]
  {
    assert Kids(LINKS, 0, 1) == [];
    assert Kids(LINKS, 0, 2) == [1];
    assert Kids(LINKS, 0, 3) == [1];
    assert Kids(LINKS, 0, 4) == [1];
  }

  lemma KidsOfThread()
    ensures Kids(LINKS, 1, 5) == [2, 3, 4]
  {
    assert Kids(LINKS, 1, 1) == [];
    assert Kids(LINKS, 1, 2) == [];
    assert Kids(LINKS, 1, 3) == [2];
    assert Kids(LINKS, 1, 4) == [2, 3];
  }

  lemma WitnessKids()
    ensures KidsOf(LINKS, Kids(LINKS, 0, 5)) == [2, 3, 4]
  {
    KidsOfRequest();
    KidsOfThread();
    assert [1][..0] == [];
    assert KidsOf(LINKS, [1]) == KidsOf(LINKS, []) + Kids(LINKS, 1, 5);
  }

  /** It is a legal input of the converter. */
  lemma WitnessOk()
    ensures InputOk(WITNESS)
  {
    WitnessLinks();
    WitnessRequests();
    Attributes();
    assert TopOf(LINKS, 2, 0);
  }

  // ----- its layout -----

  /** A converted span as the layout sees it. */
  lemma ConvertedPut(was: seq<SpanData>, i: nat, d: SpanData, name: string, root: SpanData, env: Env)
    requires i < |was| && was[i] == ConvertData(d, name, JobFor(root, Loaded(THREAD), env))
    ensures was[i].start == d.start
    ensures PutFor(was, i) == Put(env.parse("1"), Interval(d.start, d.end - TRIM))
  {
    assert Get(THREAD.attributes, "pid") == "1" by {
      assert "pid"[0] != "host_id"[0] && "pid"[0] != "thread_label"[0];
    }
  }

  lemma WitnessListed(spans: map<nat, seq<nat>>, i: nat)
    requires ListsOk(LINKS, spans, [0]) && 2 <= i <= 4
    ensures i in BelowSets(LINKS, Lists(spans, [0]))
    ensures UnderThread(LINKS, i) && ThreadOf(LINKS, i) == 1
  {
    assert TopOf(LINKS, i, 0) && 0 in [0];
    ListsMembers(LINKS, spans, [0], i);
    BelowStep(LINKS, i, i);
    BelowSetsMembers(LINKS, Lists(spans, [0]), i);
    BelowTopUnderThread(LINKS, i, 1, 0, i);
  }

  lemma WitnessOrder(j: Journal)
    requires Completed(j) && j.input == WITNESS
    ensures Closed(LINKS) && ListsOk(LINKS, j.spans, [0]) && multiset(j.order) == multiset([0])
  {
    WitnessLinks();
    WitnessRequests();
    RequestOrder(j);
  }

  lemma WitnessSorted(j: Journal)
    requires Completed(j) && j.input == WITNESS
    ensures 0 in j.spans && SortedCopy([2, 3, 4], j.spans[0], StartKey(AfterConversion(WITNESS, j.env)))
  {
    WitnessLinks();
    WitnessRequests();
    WitnessKids();
    RequestLists(j, 0);
  }

  lemma WitnessAfter(env: Env, spans: map<nat, seq<nat>>, i: nat)
    requires ListsOk(LINKS, spans, [0]) && 2 <= i <= 4
    ensures UnderThread(LINKS, i) && ThreadOf(LINKS, i) == 1 && ParentTable(WITNESS) == LINKS
    ensures AfterConversion(WITNESS, env)[i] == ConvertedData(LoadedData(WITNESS), NamesOf(WITNESS), LINKS, env, i)
  {
    WitnessLinks();
    WitnessRequests();
    WitnessListed(spans, i);
    AfterConversionAt(WITNESS, env, spans, i);
  }

  lemma WitnessData(env: Env, spans: map<nat, seq<nat>>, i: nat)
    requires ListsOk(LINKS, spans, [0]) && 2 <= i <= 4
    ensures var was, pid := AfterConversion(WITNESS, env), env.parse("1");
            was[i].start == WITNESS[i].start && PutFor(was, i) == Put(pid, Trimmed(WITNESS, i))
  {
    WitnessAfter(env, spans, i);
    var data := LoadedData(WITNESS);
    assert data[i] == Loaded(WITNESS[i]) && data[1] == Loaded(THREAD);
    ConvertedPut(AfterConversion(WITNESS, env), i, data[i], NamesOf(WITNESS)[i], data[RootOf(LINKS, i)], env);
  }

  /** The fields of the three spans before the layout. */
  lemma WitnessConverted(j: Journal, i: nat)
    requires Completed(j) && j.input == WITNESS && 2 <= i <= 4
    ensures var was, pid := AfterConversion(WITNESS, j.env), j.env.parse("1");
            was[i].start == WITNESS[i].start && PutFor(was, i) == Put(pid, Trimmed(WITNESS, i))
  {
    WitnessOrder(j);
    WitnessData(j.env, j.spans, i);
  }

  /** Three elements with ascending keys are sorted already. */
  lemma SortedAlready(ys: seq<nat>, key: nat -> int)
    requires SortedCopy([2, 3, 4], ys, key) && key(2) < key(3) < key(4)
    ensures ys == [2, 3, 4]
  {
    SameMembers([2, 3, 4], ys);
    assert |multiset(ys)| == |ys| && |multiset([2, 3, 4])| == |[2, 3, 4]|;
    assert ys[0] in ys && ys[1] in ys && ys[2] in ys;
  }

  lemma OneRequest(order: seq<nat>)
    requires multiset(order) == multiset([0])
    ensures order == [0]
  {
    assert |multiset(order)| == |order| && |multiset([0])| == |[0]|;
    assert order[0] in multiset(order);
  }

  lemma WitnessLists(j: Journal)
    requires Completed(j) && j.input == WITNESS
    ensures j.order == [0] && 0 in j.spans && j.spans[0] == [2, 3, 4]
  {
    WitnessOrder(j);
    WitnessSorted(j);
    OneRequest(j.order);
    WitnessData(j.env, j.spans, 2);
    WitnessData(j.env, j.spans, 3);
    WitnessData(j.env, j.spans, 4);
    SortedAlready(j.spans[0], StartKey(AfterConversion(WITNESS, j.env)));
  }

  lemma RequestOfThree(was: seq<SpanData>)
    ensures RequestOps(was, [2, 3, 4]) == [NewRequest] + [PutFor(was, 2)] + [PutFor(was, 3)] + [PutFor(was, 4)]
  {
    assert [2, 3, 4][..2] == [2, 3] && [2, 3][..1] == [2] && [2][..0] == [];
    assert RequestOps(was, [2]) == [NewRequest] + [PutFor(was, 2)];
    assert RequestOps(was, [2, 3]) == [NewRequest] + [PutFor(was, 2)] + [PutFor(was, 3)];
  }

  lemma WitnessOps(j: Journal)
    requires Completed(j) && j.input == WITNESS
    ensures var pid := j.env.parse("1");
            j.ops == LongOps(pid) + [Put(pid, POINT)] + [Put(pid, SHORT)]
  {
    var was := AfterConversion(WITNESS, j.env);
    WitnessLists(j);
    RequestOfThree(was);
    WitnessConverted(j, 2);
    WitnessConverted(j, 3);
    WitnessConverted(j, 4);
    assert [0][..0] == [] && LayoutOps(was, j.spans, []) == [];
    assert LayoutOps(was, j.spans, [0]) == [] + RequestOps(was, j.spans[0]);
  }

  /** Whatever pid the attribute parses to, the output breaks the promise. */
  lemma WitnessOverlaps(j: Journal)
    requires Completed(j) && j.input == WITNESS
    ensures !OutputDisjoint(j, Emitted(j))
  {
    WitnessOps(j);
    ZeroLengthSpanBreaksLane(j.env.parse("1"));
    SameLaneDisjoint(j.ops);
    LanesDisjoint(j);
  }

  /** The conversion of this trace, with its overlapping output. */
  method ConvertWitness(env: Env) returns (elems: seq<PerfettoSpan>, slots: seq<(int, nat)>, ghost j: Journal)
    ensures j.input == WITNESS && j.elems == elems && Completed(j)
    ensures IsOutput(WITNESS, env, elems, slots) && !OutputDisjoint(j, Emitted(j))
  {
    WitnessOk();
    elems, slots, j := ConvertTrace(WITNESS, env);
    WitnessOverlaps(j);
  }
}
