/** The conversion pass of the trace converter: every span below a thread span, for its own request. */
module TraceConverter {
  import opened Base
  import opened Chains
  import opened SpanForest
  import opened TraceSpans

  // ----- generate_perfetto_span -----

  /** What a caller supplies: how int() reads a pid attribute, and the time origin. */
  datatype Env = Env(parse: string -> int, baseline: int)

  function Get(m: map<string, string>, key: string): string {
    if key in m then m[key] else ""
  }

  function JobFor(root: SpanData, thread: SpanData, env: Env): Job {
    Job(Get(root.attributes, "rid"), Get(root.attributes, "bootstrap_room"),
        env.parse(Get(thread.attributes, "pid")), Get(thread.attributes, "host_id"), env.baseline)
  }

  /** x lies strictly below a thread span. */
  ghost predicate UnderThread(g: Links, x: nat)
    requires Closed(g)
  {
    x < |g| && exists d: nat :: d >= 2 && Grounded(g, x, d)
  }

  ghost function RootOf(g: Links, x: nat): (r: nat)
    requires Closed(g) && UnderThread(g, x)
    ensures r < |g|
  {
    FollowGrounded(g, x, DepthOf(g, x), DepthOf(g, x));
    Follow(g, x, DepthOf(g, x)).value
  }

  ghost function ThreadOf(g: Links, x: nat): (r: nat)
    requires Closed(g) && UnderThread(g, x)
    ensures r < |g|
  {
    var d: nat :| d >= 2 && Grounded(g, x, d);
    GroundedUnique(g, x, d, DepthOf(g, x));
    FollowGrounded(g, x, DepthOf(g, x), DepthOf(g, x) - 1);
    Follow(g, x, DepthOf(g, x) - 1).value
  }

  /** The converted fields of a span: the job is that of its own request and thread. */
  ghost function ConvertedData(was: seq<SpanData>, names: seq<string>, g: Links, env: Env, i: nat): SpanData
    requires Closed(g) && |was| == |names| == |g| && UnderThread(g, i)
  {
    ConvertData(was[i], names[i], JobFor(was[RootOf(g, i)], was[ThreadOf(g, i)], env))
  }

  /** The fields of all spans after those in S have been converted, each for its own request. */
  ghost function ConvertEach(was: seq<SpanData>, names: seq<string>, g: Links, env: Env,
                             S: set<nat>): (now: seq<SpanData>)
    requires Closed(g) && |was| == |names| == |g|
    requires forall i :: i in S ==> UnderThread(g, i)
    ensures |now| == |was|
    ensures forall i {:trigger now[i]} :: 0 <= i < |was| ==>
      now[i] == if i in S then ConvertedData(was, names, g, env, i) else was[i]
  {
    seq(|was|, i requires 0 <= i < |was| => if i in S then ConvertedData(was, names, g, env, i) else was[i])
  }

  lemma BelowTopUnderThread(g: Links, top: nat, thread: nat, root: nat, i: nat)
    requires Closed(g) && top < |g| && thread < |g| && root < |g|
    requires g[top] == Some(thread) && g[thread] == Some(root) && g[root].None?
    requires i in BelowSet(g, top)
    ensures UnderThread(g, i) && ThreadOf(g, i) == thread && RootOf(g, i) == root
  {
    OwnersOf(g, i, top, thread, root);
    assert Grounded(g, i, DepthOf(g, i));
  }

  lemma ConvertEachStep(was: seq<SpanData>, names: seq<string>, g: Links, env: Env, S: set<nat>, top: nat,
                        thread: nat, root: nat)
    requires Closed(g) && |was| == |names| == |g|
    requires top < |g| && thread < |g| && root < |g|
    requires g[top] == Some(thread) && g[thread] == Some(root) && g[root].None?
    requires forall i :: i in S ==> UnderThread(g, i)
    requires S !! BelowSet(g, top)
    ensures forall i :: i in S + BelowSet(g, top) ==> UnderThread(g, i)
    ensures EditAt(ConvertEach(was, names, g, env, S), names, BelowSet(g, top),
                   Convert(JobFor(was[root], was[thread], env)))
         == ConvertEach(was, names, g, env, S + BelowSet(g, top))
  {
    forall i: nat | i in BelowSet(g, top)
      ensures UnderThread(g, i) && ThreadOf(g, i) == thread && RootOf(g, i) == root
    {
      BelowTopUnderThread(g, top, thread, root, i);
    }
  }

  lemma DepthTwoUnderThread(g: Links, tops: seq<nat>)
    requires Closed(g) && AtDepth(g, tops, 2)
    ensures forall i :: i in BelowSets(g, tops) ==> UnderThread(g, i)
  {
    forall i: nat | i in BelowSets(g, tops)
      ensures UnderThread(g, i)
    {
      BelowSetsMembers(g, tops, i);
      var c: nat :| c in tops && Below(g, i, c);
      var k: nat :| Follow(g, i, k) == Some(c);
      GroundedVia(g, i, k, 2);
    }
  }

  /** The fields of all spans after the spans `tops` and everything below them have been converted. */
  ghost function ConvertTops(was: seq<SpanData>, names: seq<string>, g: Links, env: Env,
                             tops: seq<nat>): (now: seq<SpanData>)
    requires Closed(g) && |was| == |names| == |g| && AtDepth(g, tops, 2)
    ensures |now| == |was|
  {
    DepthTwoUnderThread(g, tops);
    ConvertEach(was, names, g, env, BelowSets(g, tops))
  }

  lemma ConvertTopsStep(was: seq<SpanData>, names: seq<string>, g: Links, env: Env, done: seq<nat>, top: nat,
                        thread: nat, root: nat)
    requires Closed(g) && |was| == |names| == |g|
    requires top < |g| && thread < |g| && root < |g|
    requires g[top] == Some(thread) && g[thread] == Some(root) && g[root].None?
    requires NoDup(done + [top]) && AtDepth(g, done, 2)
    ensures AtDepth(g, done + [top], 2)
    ensures EditAt(ConvertTops(was, names, g, env, done), names, BelowSet(g, top),
                   Convert(JobFor(was[root], was[thread], env)))
         == ConvertTops(was, names, g, env, done + [top])
  {
    assert Grounded(g, top, 2) by {
      assert Grounded(g, root, 0);
      assert Grounded(g, thread, 1);
    }
    var all := done + [top];
    assert all[..|done|] == done && all[..|all|] == all;
    BelowSetsFresh(g, all, |done|, 2);
    BelowSetsStep(g, all, |done|);
    DepthTwoUnderThread(g, done);
    ConvertEachStep(was, names, g, env, BelowSets(g, done), top, thread, root);
  }

  lemma AppendStep<T>(a: seq<T>, b: seq<T>, k: nat)
    requires k < |b|
    ensures a + b[..k + 1] == (a + b[..k]) + [b[k]]
    ensures a + b[..k + 1] <= a + b
  {
  }

  lemma AppendEnds<T>(a: seq<T>, b: seq<T>)
    ensures a + b[..0] == a && a + b[..|b|] == a + b
  {
  }

  lemma AppendAssoc<T>(a: seq<T>, b: seq<T>, c: seq<T>)
    ensures a + (b + c) == (a + b) + c
  {
  }

  lemma AppendPrefix<T>(a: seq<T>, b: seq<T>, c: seq<T>)
    requires b <= c
    ensures a + b <= a + c
  {
  }

  lemma MapPutTwice<K, V>(m: map<K, V>, k: K, v: V, w: V)
    ensures m[k := v][k := w] == m[k := w]
  {
  }

  lemma PrefixNoDup<T>(a: seq<T>, b: seq<T>)
    requires a <= b && NoDup(b)
    ensures NoDup(a)
  {
    forall i, j | 0 <= i < j < |a|
      ensures a[i] != a[j]
    {
      assert a[i] == b[i] && a[j] == b[j];
    }
  }

  /** The innermost loop body: one span below a thread span, with its subtree. */
  method ConvertTop(t: Trace, root: nat, thread: nat, top: nat, job: Job, ghost env: Env, ghost was: seq<SpanData>,
                    ghost done: seq<nat>, ghost all: seq<nat>)
    requires t.Linked() && |was| == |t.parents| && root < |t.parents| && thread < |t.parents| && top < |t.parents|
    requires t.parents[top] == Some(thread) && t.parents[thread] == Some(root) && t.parents[root].None?
    requires job == JobFor(was[root], was[thread], env)
    requires NoDup(all) && done + [top] <= all && AtDepth(t.parents, done, 2)
    requires t.data == ConvertTops(was, t.names, t.parents, env, done)
    requires root in t.spans
    modifies t`data, t`spans
    ensures AtDepth(t.parents, done + [top], 2)
    ensures t.data == ConvertTops(was, t.names, t.parents, env, done + [top])
    ensures t.spans == old(t.spans)[root := old(t.spans)[root] + [top]]
  {
    PrefixNoDup(done + [top], all);
    ConvertTopsStep(was, t.names, t.parents, env, done, top, thread, root);
    t.ConvertToPerfettoSpan(top, job, 2);
    t.spans := t.spans[root := t.spans[root] + [top]];
  }

  /** All spans below one thread span. */
  method ConvertThread(t: Trace, root: nat, thread: nat, job: Job, ghost env: Env, ghost was: seq<SpanData>,
                       ghost done: seq<nat>, ghost all: seq<nat>)
    requires t.Linked() && |was| == |t.parents| && root < |t.parents| && thread < |t.parents|
    requires t.parents[thread] == Some(root) && t.parents[root].None?
    requires job == JobFor(was[root], was[thread], env)
    requires NoDup(all) && done + t.child[thread] <= all && AtDepth(t.parents, done, 2)
    requires t.data == ConvertTops(was, t.names, t.parents, env, done)
    requires root in t.spans
    modifies t`data, t`spans
    ensures AtDepth(t.parents, done + t.child[thread], 2)
    ensures t.data == ConvertTops(was, t.names, t.parents, env, done + t.child[thread])
    ensures t.spans == old(t.spans)[root := old(t.spans)[root] + t.child[thread]]
  {
    var ks := t.child[thread];
    ghost var before := t.spans;
    AppendEnds(done, ks);
    AppendEnds(before[root], ks);
    for k := 0 to |ks|
      invariant AtDepth(t.parents, done + ks[..k], 2)
      invariant t.data == ConvertTops(was, t.names, t.parents, env, done + ks[..k])
      invariant root in t.spans && t.spans == before[root := before[root] + ks[..k]]
    {
      assert ks[k] in ks;
      AppendStep(done, ks, k);
      AppendStep(before[root], ks, k);
      ConvertTop(t, root, thread, ks[k], job, env, was, done + ks[..k], all);
    }
  }

  /** Requests and thread spans themselves are not rewritten. */
  lemma ShallowUnchanged(was: seq<SpanData>, names: seq<string>, g: Links, env: Env, tops: seq<nat>, i: nat, d: nat)
    requires Closed(g) && |was| == |names| == |g| && AtDepth(g, tops, 2)
    requires i < |g| && Grounded(g, i, d) && d < 2
    ensures ConvertTops(was, names, g, env, tops)[i] == was[i]
  {
    DepthTwoUnderThread(g, tops);
    if i in BelowSets(g, tops) {
      var e: nat :| e >= 2 && Grounded(g, i, e);
      GroundedUnique(g, i, d, e);
      assert false;
    }
  }

  lemma KidsOfStep(g: Links, ps: seq<nat>, k: nat)
    requires k < |ps|
    ensures KidsOf(g, ps[..k + 1]) == KidsOf(g, ps[..k]) + Kids(g, ps[k], |g|)
    ensures KidsOf(g, ps[..k + 1]) <= KidsOf(g, ps)
  {
    assert ps[..k + 1][..k] == ps[..k];
    assert ps == ps[..k + 1] + ps[k + 1..];
    KidsOfConcat(g, ps[..k + 1], ps[k + 1..]);
  }

  ghost function TopsUpTo(g: Links, done: seq<nat>, ps: seq<nat>, k: nat): seq<nat>
    requires k <= |ps|
  {
    done + KidsOf(g, ps[..k])
  }

  lemma TopsUpToEnds(g: Links, done: seq<nat>, ps: seq<nat>)
    ensures TopsUpTo(g, done, ps, 0) == done
    ensures TopsUpTo(g, done, ps, |ps|) == done + KidsOf(g, ps)
  {
    assert ps[..|ps|] == ps;
  }

  lemma TopsUpToStep(g: Links, done: seq<nat>, ps: seq<nat>, k: nat)
    requires k < |ps|
    ensures TopsUpTo(g, done, ps, k + 1) == TopsUpTo(g, done, ps, k) + Kids(g, ps[k], |g|)
    ensures TopsUpTo(g, done, ps, k + 1) <= done + KidsOf(g, ps)
  {
    KidsOfStep(g, ps, k);
    AppendAssoc(done, KidsOf(g, ps[..k]), Kids(g, ps[k], |g|));
    AppendPrefix(done, KidsOf(g, ps[..k + 1]), KidsOf(g, ps));
  }

  /** The attributes that the source reads without a default. */
  predicate RootAttributes(d: SpanData) {
    "rid" in d.attributes
  }

  predicate ThreadAttributes(d: SpanData) {
    "pid" in d.attributes && "host_id" in d.attributes && "thread_label" in d.attributes
  }

  /** The attributes that the conversion of a request reads without a default. */
  ghost predicate RequestAttributes(was: seq<SpanData>, root: nat, threads: seq<nat>) {
    && root < |was| && RootAttributes(was[root])
    && forall k :: 0 <= k < |threads| ==> threads[k] < |was| && ThreadAttributes(was[threads[k]])
  }

  /** The spans below the thread spans of a request come next, after those in `done`. */
  ghost predicate RequestNext(t: Trace, root: nat, was: seq<SpanData>, done: seq<nat>, all: seq<nat>)
    reads t`child
  {
    && t.Linked() && |was| == |t.parents| && root < |t.parents| && t.parents[root].None?
    && NoDup(all) && done + KidsOf(t.parents, t.child[root]) <= all
  }

  /** The state of the conversion when the first k thread spans of a request are done. */
  ghost predicate RequestDone(t: Trace, root: nat, k: nat, env: Env, was: seq<SpanData>, done: seq<nat>,
                              all: seq<nat>, before: map<nat, seq<nat>>)
    reads t
  {
    && RequestNext(t, root, was, done, all) && k <= |t.child[root]|
    && AtDepth(t.parents, TopsUpTo(t.parents, done, t.child[root], k), 2)
    && t.data == ConvertTops(was, t.names, t.parents, env, TopsUpTo(t.parents, done, t.child[root], k))
    && t.spans == before[root := KidsOf(t.parents, t.child[root][..k])]
  }

  /** One turn of the loop over the thread spans of a request. */
  method ConvertNextThread(t: Trace, root: nat, k: nat, env: Env, ghost was: seq<SpanData>, ghost done: seq<nat>,
                           ghost all: seq<nat>, ghost before: map<nat, seq<nat>>)
    requires RequestDone(t, root, k, env, was, done, all, before) && k < |t.child[root]|
    modifies t`data, t`spans
    ensures RequestDone(t, root, k + 1, env, was, done, all, before)
  {
    var threads := t.child[root];
    ghost var g := t.parents;
    var thread := threads[k];
    assert thread in threads;
    ghost var sofar := TopsUpTo(g, done, threads, k);
    TopsUpToStep(g, done, threads, k);
    KidsOfStep(g, threads, k);
    ShallowUnchanged(was, t.names, g, env, sofar, root, 0);
    ShallowUnchanged(was, t.names, g, env, sofar, thread, 1);
    ConvertThread(t, root, thread, JobFor(t.data[root], t.data[thread], env), env, was, sofar, all);
    MapPutTwice(before, root, KidsOf(g, threads[..k]), KidsOf(g, threads[..k + 1]));
  }

  lemma RequestStarts(t: Trace, root: nat, env: Env, was: seq<SpanData>, done: seq<nat>, all: seq<nat>,
                      before: map<nat, seq<nat>>)
    requires RequestNext(t, root, was, done, all) && AtDepth(t.parents, done, 2)
    requires t.data == ConvertTops(was, t.names, t.parents, env, done) && t.spans == before[root := []]
    ensures RequestDone(t, root, 0, env, was, done, all, before)
  {
    TopsUpToEnds(t.parents, done, t.child[root]);
    assert t.child[root][..0] == [];
  }

  lemma RequestEnds(t: Trace, root: nat, k: nat, env: Env, was: seq<SpanData>, done: seq<nat>, all: seq<nat>,
                    before: map<nat, seq<nat>>)
    requires RequestDone(t, root, k, env, was, done, all, before) && k == |t.child[root]|
    ensures AtDepth(t.parents, done + KidsOf(t.parents, t.child[root]), 2)
    ensures t.data == ConvertTops(was, t.names, t.parents, env, done + KidsOf(t.parents, t.child[root]))
    ensures t.spans == before[root := KidsOf(t.parents, t.child[root])]
  {
    TopsUpToEnds(t.parents, done, t.child[root]);
    assert t.child[root][..|t.child[root]|] == t.child[root];
  }

  /** The loop over the thread spans of one request. */
  method ConvertRequest(t: Trace, root: nat, env: Env, ghost was: seq<SpanData>, ghost done: seq<nat>,
                        ghost all: seq<nat>)
    requires RequestNext(t, root, was, done, all) && AtDepth(t.parents, done, 2)
    requires t.data == ConvertTops(was, t.names, t.parents, env, done)
    requires RequestAttributes(was, root, t.child[root])
    modifies t`data, t`spans
    ensures AtDepth(t.parents, done + KidsOf(t.parents, t.child[root]), 2)
    ensures t.data == ConvertTops(was, t.names, t.parents, env, done + KidsOf(t.parents, t.child[root]))
    ensures t.spans == old(t.spans)[root := KidsOf(t.parents, t.child[root])]
  {
    ghost var before := t.spans;
    t.spans := t.spans[root := []];
    RequestStarts(t, root, env, was, done, all, before);
    var n := |t.child[root]|;
    for k := 0 to n
      invariant RequestDone(t, root, k, env, was, done, all, before)
    {
      ConvertNextThread(t, root, k, env, was, done, all, before);
    }
    RequestEnds(t, root, n, env, was, done, all, before);
  }

  /** The spans directly below the thread spans of the given requests, in input order per list. */
  ghost function Tops(g: Links, roots: seq<nat>): seq<nat> {
    KidsOf(g, KidsOf(g, roots))
  }

  lemma TopsStep(g: Links, roots: seq<nat>, k: nat)
    requires k < |roots|
    ensures Tops(g, roots[..k + 1]) == Tops(g, roots[..k]) + KidsOf(g, Kids(g, roots[k], |g|))
    ensures Tops(g, roots[..k + 1]) <= Tops(g, roots)
  {
    KidsOfStep(g, roots, k);
    KidsOfConcat(g, KidsOf(g, roots[..k]), Kids(g, roots[k], |g|));
    KidsOfPrefix(g, KidsOf(g, roots[..k + 1]), KidsOf(g, roots));
  }

  lemma KidsOfPrefix(g: Links, a: seq<nat>, b: seq<nat>)
    requires a <= b
    ensures KidsOf(g, a) <= KidsOf(g, b)
  {
    assert b == a + b[|a|..];
    KidsOfConcat(g, a, b[|a|..]);
  }

  ghost predicate AreRoots(g: Links, roots: seq<nat>) {
    NoDup(roots) && forall k :: 0 <= k < |roots| ==> roots[k] < |g| && g[roots[k]].None?
  }

  lemma TopsNoDup(g: Links, roots: seq<nat>)
    requires Closed(g) && AreRoots(g, roots)
    ensures NoDup(Tops(g, roots)) && AtDepth(g, Tops(g, roots), 2)
  {
    assert AtDepth(g, roots, 0);
    KidsOfNoDup(g, roots);
    KidsOfAtDepth(g, roots, 0);
    KidsOfNoDup(g, KidsOf(g, roots));
    KidsOfAtDepth(g, KidsOf(g, roots), 1);
  }

  ghost predicate HasAttributes(t: Trace, roots: seq<nat>)
    reads t
  {
    && t.Linked() && |t.data| == |t.parents| && AreRoots(t.parents, roots)
    && forall k :: 0 <= k < |roots| ==> RequestAttributes(t.data, roots[k], t.child[roots[k]])
  }

  /** The first n requests list the spans directly below their thread spans. */
  ghost predicate SpanLists(g: Links, spans: map<nat, seq<nat>>, roots: seq<nat>, n: nat)
    requires n <= |roots|
  {
    forall k :: 0 <= k < n ==> roots[k] in spans && spans[roots[k]] == KidsOf(g, Kids(g, roots[k], |g|))
  }

  lemma SpanListsStep(g: Links, spans: map<nat, seq<nat>>, roots: seq<nat>, k: nat)
    requires k < |roots| && SpanLists(g, spans, roots, k)
    ensures SpanLists(g, spans[roots[k] := KidsOf(g, Kids(g, roots[k], |g|))], roots, k + 1)
  {
  }

  /** The state of the conversion when the first k requests are done. */
  ghost predicate RequestsDone(t: Trace, roots: seq<nat>, k: nat, env: Env, was: seq<SpanData>)
    requires t.Linked() && |was| == |t.parents| && k <= |roots|
    reads t
  {
    && AtDepth(t.parents, Tops(t.parents, roots[..k]), 2)
    && t.data == ConvertTops(was, t.names, t.parents, env, Tops(t.parents, roots[..k]))
    && SpanLists(t.parents, t.spans, roots, k)
  }

  /** One turn of the loop over the requests. */
  method ConvertNextRequest(t: Trace, roots: seq<nat>, k: nat, env: Env, ghost was: seq<SpanData>)
    requires t.Linked() && |was| == |t.parents| && k < |roots| && AreRoots(t.parents, roots)
    requires NoDup(Tops(t.parents, roots)) && RequestsDone(t, roots, k, env, was)
    requires RequestAttributes(was, roots[k], t.child[roots[k]])
    modifies t`data, t`spans
    ensures RequestsDone(t, roots, k + 1, env, was)
  {
    TopsStep(t.parents, roots, k);
    SpanListsStep(t.parents, t.spans, roots, k);
    ConvertRequest(t, roots[k], env, was, Tops(t.parents, roots[..k]), Tops(t.parents, roots));
  }

  /** generate_perfetto_span for engine spans: every span below a thread span is converted once,
      with the pid of its own thread span and the rid of its own request; no other changes. */
  method GeneratePerfettoSpan(t: Trace, roots: seq<nat>, env: Env)
    requires HasAttributes(t, roots)
    modifies t`data, t`spans
    ensures AtDepth(t.parents, Tops(t.parents, roots), 2)
    ensures t.data == ConvertTops(old(t.data), t.names, t.parents, env, Tops(t.parents, roots))
    ensures SpanLists(t.parents, t.spans, roots, |roots|)
  {
    ghost var g, was := t.parents, t.data;
    TopsNoDup(g, roots);
    assert ConvertTops(was, t.names, g, env, []) == was;
    for k := 0 to |roots|
      invariant RequestsDone(t, roots, k, env, was)
    {
      ConvertNextRequest(t, roots, k, env, was);
    }
    assert roots[..|roots|] == roots;
  }
}
