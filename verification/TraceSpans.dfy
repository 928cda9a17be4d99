/** The trace converter's span dictionaries and the passes that rewrite them in place.

    The converter never copies a span: every list it builds refers to the dictionaries
    of the input list.  Here a span is named by its position in that list, and the
    `Trace` object holds the mutable part of all dictionaries. */
module TraceSpans {
  import opened Base
  import opened Chains
  import opened SpanForest

  /** A span as loaded.  `parentSpanId` is "" when the field is absent. */
  datatype InputSpan = InputSpan(
    spanId: string,
    parentSpanId: string,
    name: string,
    attributes: map<string, string>,
    start: int,
    end: int)

  /** One complete ("X") record of the Perfetto output. */
  datatype PerfettoSpan = PerfettoSpan(name: string, ts: real, dur: real, pid: int, tid: nat, args: map<string, string>)

  /** The fields of a span that the passes rewrite. */
  datatype SpanData = SpanData(
    attributes: map<string, string>,
    hostId: Option<string>,
    pid: Option<int>,
    start: int,
    end: int,
    perfetto: Option<PerfettoSpan>)

  predicate IsRequest(attributes: map<string, string>) {
    "module" in attributes && attributes["module"] == "sglang::request"
  }

  function Keys(input: seq<InputSpan>): (keys: seq<Key>)
    ensures |keys| == |input|
    ensures forall i {:trigger keys[i]} :: 0 <= i < |input| ==>
      keys[i] == Key(input[i].spanId, input[i].parentSpanId, IsRequest(input[i].attributes))
  {
    seq(|input|, i requires 0 <= i < |input| =>
      Key(input[i].spanId, input[i].parentSpanId, IsRequest(input[i].attributes)))
  }

  function Loaded(s: InputSpan): SpanData {
    SpanData(s.attributes, None, None, s.start, s.end, None)
  }

  // ----- rewriting whole subtrees -----

  /** The arguments that generate_perfetto_span passes down a subtree. */
  datatype Job = Job(rid: string, bootstrapRoom: string, pid: int, hostId: string, baseline: int)

  const TRIM := 1000

  function Put(m: map<string, string>, key: string, value: string): map<string, string> {
    if value == "" then m else m[key := value]
  }

  /** What converting one span makes of its fields. */
  function ConvertData(d: SpanData, name: string, job: Job): SpanData {
    var attributes := Put(Put(d.attributes, "bootstrap_room", job.bootstrapRoom), "rid", job.rid);
    var end := d.end - TRIM;
    SpanData(attributes,
             if job.hostId == "" then d.hostId else Some(job.hostId),
             Some(job.pid),
             d.start,
             end,
             Some(PerfettoSpan(name, (d.start - job.baseline) as real / 1000.0, (end - d.start) as real / 1000.0,
                               job.pid, 0, attributes)))
  }

  function WithTid(d: SpanData, line: nat): SpanData
    requires d.perfetto.Some?
  {
    d.(perfetto := Some(d.perfetto.value.(tid := line)))
  }

  /** The two rewrites that the recursive passes apply to every span of a subtree. */
  datatype Edit = Convert(job: Job) | SetTid(line: nat)

  ghost function Apply(e: Edit, d: SpanData, name: string): SpanData {
    match e
    case Convert(job) => ConvertData(d, name, job)
    case SetTid(line) => if d.perfetto.Some? then WithTid(d, line) else d
  }

  /** The fields of all spans, after applying e to those numbered in S. */
  ghost function EditAt(was: seq<SpanData>, names: seq<string>, S: set<nat>, e: Edit): (now: seq<SpanData>)
    requires |was| == |names|
    ensures |now| == |was|
    ensures forall i {:trigger now[i]} :: 0 <= i < |was| ==>
              now[i] == if i in S then Apply(e, was[i], names[i]) else was[i]
  {
    seq(|was|, i requires 0 <= i < |was| => if i in S then Apply(e, was[i], names[i]) else was[i])
  }

  lemma EditUnion(was: seq<SpanData>, names: seq<string>, S: set<nat>, T: set<nat>, e: Edit)
    requires |was| == |names| && S !! T
    ensures EditAt(EditAt(was, names, S, e), names, T, e) == EditAt(was, names, S + T, e)
  {
  }

  /** The fields of all spans when a pass has covered p and its first k children. */
  ghost function Partly(was: seq<SpanData>, names: seq<string>, g: Links, p: nat, k: nat, e: Edit): seq<SpanData>
    requires Closed(g) && |g| == |names| == |was| && p < |g| && k <= NumKids(g, p)
  {
    EditAt(was, names, Walked(g, p, k), e)
  }

  ghost function Wholly(was: seq<SpanData>, names: seq<string>, g: Links, p: nat, e: Edit): seq<SpanData>
    requires Closed(g) && |g| == |names| == |was|
  {
    EditAt(was, names, BelowSet(g, p), e)
  }

  lemma PartlyEnds(was: seq<SpanData>, names: seq<string>, g: Links, p: nat, e: Edit)
    requires Closed(g) && |g| == |names| == |was| && p < |g|
    ensures Partly(was, names, g, p, 0, e) == was[p := Apply(e, was[p], names[p])]
    ensures Partly(was, names, g, p, NumKids(g, p), e) == Wholly(was, names, g, p, e)
  {
    WalkedEnds(g, p);
  }

  lemma PartlyStep(was: seq<SpanData>, names: seq<string>, g: Links, p: nat, d: nat, k: nat, e: Edit)
    requires Closed(g) && |g| == |names| == |was| && p < |g| && Grounded(g, p, d)
    requires k < NumKids(g, p)
    ensures Wholly(Partly(was, names, g, p, k, e), names, g, Kid(g, p, k), e) == Partly(was, names, g, p, k + 1, e)
    ensures Grounded(g, Kid(g, p, k), d + 1) && Deeper(g, d + 1) < Deeper(g, d)
  {
    WalkedStep(g, p, d, k);
    EditUnion(was, names, Walked(g, p, k), BelowSet(g, Kid(g, p, k)), e);
  }

  /** Every span in S carries a Perfetto record. */
  ghost predicate AllRecorded(data: seq<SpanData>, S: set<nat>) {
    forall i :: i in S ==> i < |data| && data[i].perfetto.Some?
  }

  lemma TopRecorded(data: seq<SpanData>, g: Links, p: nat)
    requires Closed(g) && p < |g| && AllRecorded(data, BelowSet(g, p))
    ensures p < |data| && data[p].perfetto.Some?
  {
    BelowStep(g, p, p);
    assert p in BelowSet(g, p);
  }

  lemma KidRecorded(was: seq<SpanData>, names: seq<string>, g: Links, p: nat, d: nat, k: nat, line: nat)
    requires Closed(g) && |g| == |names| == |was| && p < |g| && Grounded(g, p, d)
    requires k < NumKids(g, p) && AllRecorded(was, BelowSet(g, p))
    ensures AllRecorded(Partly(was, names, g, p, k, SetTid(line)), BelowSet(g, Kid(g, p, k)))
  {
    WalkedStep(g, p, d, k);
  }

  class Trace {
    const keys: seq<Key>
    const names: seq<string>
    var data: seq<SpanData>
    var child: seq<seq<nat>>
    var spans: map<nat, seq<nat>>  // for each root, the spans directly below its thread spans
    ghost const parents: Links  // the parent table that the ids describe

    ghost predicate Sized() {
      Closed(parents) && |names| == |parents| == |keys|
    }

    /** The child lists are those of the parent table. */
    ghost predicate Linked()
      reads this`child
    {
      && Sized()
      && |child| == |parents|
      && forall p :: 0 <= p < |child| ==> child[p] == Kids(parents, p, |parents|)
    }

    /** Span p is reached from a span without parent by d child edges. */
    ghost predicate InForest(p: nat, d: nat)
      reads this`child
    {
      Linked() && p < |parents| && Grounded(parents, p, d)
    }

    constructor (input: seq<InputSpan>)
      ensures Sized() && |names| == |input| == |data|
      ensures keys == Keys(input) && parents == ParentLinks(keys)
      ensures forall i :: 0 <= i < |input| ==> names[i] == input[i].name && data[i] == Loaded(input[i])
      ensures |child| == |input| && (forall i :: 0 <= i < |input| ==> child[i] == []) && spans == map[]
    {
      keys := Keys(input);
      parents := ParentLinks(Keys(input));
      names := seq(|input|, i requires 0 <= i < |input| => input[i].name);
      data := seq(|input|, i requires 0 <= i < |input| => Loaded(input[i]));
      child := seq(|input|, i => []);
      spans := map[];
    }

    /** The dictionary from span id to span; a later span replaces an earlier one. */
    method IndexById() returns (spanIdMap: map<string, nat>)
      ensures forall id :: id in spanIdMap <==> LastWithId(keys, id).Some?
      ensures forall id :: id in spanIdMap ==> LastWithId(keys, id) == Some(spanIdMap[id])
    {
      spanIdMap := map[];
      for k := 0 to |keys|
        invariant forall id :: id in spanIdMap <==> LastWithId(keys[..k], id).Some?
        invariant forall id :: id in spanIdMap ==> LastWithId(keys[..k], id) == Some(spanIdMap[id])
      {
        assert keys[..k + 1][..k] == keys[..k];
        spanIdMap := spanIdMap[keys[k].id := k];
      }
      assert keys[..|keys|] == keys;
    }

    /** build_otel_span_tree: child lists and root list from the ids alone. */
    method BuildOtelSpanTree() returns (roots: seq<nat>)
      requires Sized() && parents == ParentLinks(keys)
      modifies this`child
      ensures Linked()
      ensures roots == Roots(keys, |keys|)
    {
      var spanIdMap := IndexById();
      child := seq(|keys|, i => []);
      roots := [];
      for k := 0 to |keys|
        invariant |child| == |keys|
        invariant forall p :: 0 <= p < |keys| ==> child[p] == Kids(parents, p, k)
        invariant roots == Roots(keys, k)
      {
        assert parents[k] == ParentOf(keys, k);
        if keys[k].request {
          roots := roots + [k];
        } else if keys[k].parent in spanIdMap {
          var parent := spanIdMap[keys[k].parent];
          child := child[parent := child[parent] + [k]];
        }
      }
    }

    /** __convert_to_perfetto_span: every span of the subtree is converted once, and no other. */
    method ConvertToPerfettoSpan(p: nat, job: Job, ghost d: nat)
      requires InForest(p, d) && |data| == |names|
      modifies this`data
      ensures data == Wholly(old(data), names, parents, p, Convert(job))
      decreases Deeper(parents, d), 1
    {
      ghost var was := data;
      data := data[p := ConvertData(data[p], names[p], job)];
      PartlyEnds(was, names, parents, p, Convert(job));
      for k := 0 to |child[p]|
        invariant data == Partly(was, names, parents, p, k, Convert(job))
      {
        ConvertChild(p, job, d, k, was);
      }
    }

    /** The recursive call for child number k of p. */
    method ConvertChild(p: nat, job: Job, ghost d: nat, k: nat, ghost was: seq<SpanData>)
      requires InForest(p, d) && |was| == |names| && k < |child[p]|
      requires data == Partly(was, names, parents, p, k, Convert(job))
      modifies this`data
      ensures data == Partly(was, names, parents, p, k + 1, Convert(job))
      decreases Deeper(parents, d), 0
    {
      PartlyStep(was, names, parents, p, d, k, Convert(job));
      ConvertToPerfettoSpan(child[p][k], job, d + 1);
    }

    /** __set_span_tid: the whole subtree moves to one lane. */
    method SetSpanTid(p: nat, line: nat, ghost d: nat)
      requires InForest(p, d) && |data| == |names| && AllRecorded(data, BelowSet(parents, p))
      modifies this`data
      ensures data == Wholly(old(data), names, parents, p, SetTid(line))
      decreases Deeper(parents, d), 2
    {
      ghost var was := data;
      TopRecorded(was, parents, p);
      data := data[p := WithTid(data[p], line)];
      PartlyEnds(was, names, parents, p, SetTid(line));
      SetChildrenTid(p, line, d, was);
    }

    /** The loop over the children. */
    method SetChildrenTid(p: nat, line: nat, ghost d: nat, ghost was: seq<SpanData>)
      requires InForest(p, d) && |was| == |names| && AllRecorded(was, BelowSet(parents, p))
      requires data == Partly(was, names, parents, p, 0, SetTid(line))
      modifies this`data
      ensures data == Partly(was, names, parents, p, |child[p]|, SetTid(line))
      decreases Deeper(parents, d), 1
    {
      for k := 0 to |child[p]|
        invariant data == Partly(was, names, parents, p, k, SetTid(line))
      {
        SetChildTid(p, line, d, k, was);
      }
    }

    /** The recursive call for child number k of p. */
    method SetChildTid(p: nat, line: nat, ghost d: nat, k: nat, ghost was: seq<SpanData>)
      requires InForest(p, d) && |was| == |names| && k < |child[p]|
      requires AllRecorded(was, BelowSet(parents, p)) && data == Partly(was, names, parents, p, k, SetTid(line))
      modifies this`data
      ensures data == Partly(was, names, parents, p, k + 1, SetTid(line))
      decreases Deeper(parents, d), 0
    {
      PartlyStep(was, names, parents, p, d, k, SetTid(line));
      KidRecorded(was, names, parents, p, d, k, line);
      SetSpanTid(child[p][k], line, d + 1);
    }
  }
}
