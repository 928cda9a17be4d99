/** What the load generator promises, for every interleaving and with requests that may fail. */
module WorkloadTheorems {
  import opened Base
  import opened Queueing
  import opened WorkloadModel
  import opened WorkloadPlaces
  import opened WorkloadInvariant
  import opened WorkloadBarrier
  import opened WorkloadProgress

  /** A run: any order of sender, task and handler steps. */
  ghost predicate Behaviour(cfg: Config, states: seq<State>, events: seq<Event>) {
    && ConfigOk(cfg)
    && |states| == |events| + 1
    && Init(cfg, states[0])
    && forall n {:trigger events[n]} :: 0 <= n < |events| ==>
         Sized(cfg, states[n]) && Enabled(cfg, states[n], events[n]) && states[n + 1] == Step(cfg, states[n], events[n])
  }

  /** The invariant holds in every state of every run. */
  lemma {:induction false} Always(cfg: Config, states: seq<State>, events: seq<Event>, n: nat)
    requires Behaviour(cfg, states, events) && n < |states|
    ensures Inv(cfg, states[n])
  {
    if n == 0 {
      InitInv(cfg, states[0]);
    } else {
      Always(cfg, states, events, n - 1);
      StepInv(cfg, states[n - 1], events[n - 1]);
      assert states[n - 1 + 1] == Step(cfg, states[n - 1], events[n - 1]);
    }
  }

  // ----- at most one outstanding request per client -----

  /** The owners of all outstanding requests, queue by queue. */
  ghost function Outstanding(s: State): seq<nat> {
    var q := QueuesOf(s);
    q.ready + q.inFlight + q.responses + q.held + q.answered + q.buffered
  }

  lemma DisjointQueues(a: seq<nat>, b: seq<nat>, place: seq<Place>, ps: set<Place>, p: Place)
    requires forall i :: 0 <= i < |a| ==> a[i] < |place| && place[a[i]] in ps
    requires Located(b, place, p) && p !in ps && NoDup(a)
    ensures NoDup(a + b)
    ensures forall i :: 0 <= i < |a + b| ==> (a + b)[i] < |place| && place[(a + b)[i]] in ps + {p}
  {
    forall x | x in a
      ensures x !in b
    {
      var i :| 0 <= i < |a| && a[i] == x;
      assert place[x] != p;
    }
    NoDupConcat(a, b);
  }

  lemma QueuesNoDup(q: Queues, place: seq<Place>)
    requires AllLocated(q, place)
    ensures NoDup(q.ready + q.inFlight + q.responses + q.held + q.answered + q.buffered)
  {
    DisjointQueues(q.ready, q.inFlight, place, {InReady}, InFlight);
    var a := q.ready + q.inFlight;
    DisjointQueues(a, q.responses, place, {InReady} + {InFlight}, InResponses);
    var b := a + q.responses;
    DisjointQueues(b, q.held, place, {InReady} + {InFlight} + {InResponses}, Held);
    var c := b + q.held;
    DisjointQueues(c, q.answered, place, {InReady} + {InFlight} + {InResponses} + {Held}, Answered);
    var ps := {InReady} + {InFlight} + {InResponses} + {Held};
    DisjointQueues(c + q.answered, q.buffered, place, ps + {Answered}, Buffered);
  }

  /** No client has two outstanding requests, in one queue or in two. */
  lemma OneOutstanding(cfg: Config, states: seq<State>, events: seq<Event>, n: nat)
    requires Behaviour(cfg, states, events) && n < |states|
    ensures NoDup(Outstanding(states[n]))
  {
    Always(cfg, states, events, n);
    QueuesNoDup(QueuesOf(states[n]), states[n].place);
  }

  /** A request carries its client's current history from the moment it is built until its
      response is handled: the history is never changed under a pending payload, although the
      payload shares the list. */
  lemma PendingPayloadsCurrent(cfg: Config, states: seq<State>, events: seq<Event>, n: nat)
    requires Behaviour(cfg, states, events) && n < |states|
    ensures Fresh(states[n].ready, states[n].clients)
    ensures Fresh(states[n].inFlight, states[n].clients)
    ensures Fresh(Unreleased(states[n]), states[n].clients)
    ensures FreshReplies(states[n].responses, states[n].clients)
    ensures states[n].handler.Holding? ==> FreshReply(states[n].handler.response, states[n].clients)
  {
    Always(cfg, states, events, n);
  }

  /** Each prompt that was sent and answered extends the prompt sent before it followed by its
      output, strictly when sub-questions are not empty; and no client is asked more often than
      it has rounds. */
  lemma PromptsExtend(cfg: Config, states: seq<State>, events: seq<Event>, n: nat, c: nat, k: nat)
    requires Behaviour(cfg, states, events) && n < |states| && c < |cfg.total|
    requires c < |states[n].turns| && k + 1 < |states[n].turns[c]|
    ensures |states[n].turns[c]| <= cfg.total[c]
    ensures var t, u := states[n].turns[c][k], states[n].turns[c][k + 1];
            t.prompt + t.output <= u.prompt && (cfg.nonEmpty ==> t.prompt + t.output < u.prompt)
  {
    Always(cfg, states, events, n);
    var s := states[n];
    assert TurnsFit(cfg, s.turns[c], s.clients[c], s.place[c]);
    assert RoundFits(s.place[c], s.clients[c].round, cfg.total[c]);
    assert Continues(cfg, s.turns[c][k], s.turns[c][k + 1].prompt);
  }

  /** A request in flight extends the latest answered prompt of its client and its output. */
  lemma SentPromptExtends(cfg: Config, states: seq<State>, events: seq<Event>, n: nat, i: nat)
    requires Behaviour(cfg, states, events) && n < |states| && i < |states[n].inFlight|
    ensures
      var s, req := states[n], states[n].inFlight[i];
      && req.client < |s.turns|
      && (s.turns[req.client] != [] ==>
            Continues(cfg, s.turns[req.client][|s.turns[req.client]| - 1], req.prompt))
  {
    Always(cfg, states, events, n);
    var s := states[n];
    var c := s.inFlight[i].client;
    PlaceOfHead(ReqIds(s.inFlight), s.place, InFlight, i, c);
    assert TurnsFit(cfg, s.turns[c], s.clients[c], InFlight);
  }

  /** No client is answered more often than it has rounds, and the handler never runs out of
      sub-questions or of per-round metrics. */
  lemma HandlerNeverCrashes(cfg: Config, states: seq<State>, events: seq<Event>, n: nat)
    requires Behaviour(cfg, states, events) && n < |states|
    ensures !states[n].handler.Crashed?
    ensures forall c :: 0 <= c < |cfg.total| ==> c < |states[n].turns| && |states[n].turns[c]| <= cfg.total[c]
  {
    Always(cfg, states, events, n);
    var s := states[n];
    forall c | 0 <= c < |cfg.total|
      ensures |s.turns[c]| <= cfg.total[c]
    {
      assert TurnsFit(cfg, s.turns[c], s.clients[c], s.place[c]);
      assert RoundFits(s.place[c], s.clients[c].round, cfg.total[c]);
    }
  }

  /** Parallelism: between 0 and max_parallel requests are sent and not completed. */
  lemma ParallelismBounded(cfg: Config, states: seq<State>, events: seq<Event>, n: nat)
    requires Behaviour(cfg, states, events) && n < |states|
    ensures 0 <= states[n].sent - states[n].completed <= cfg.maxParallel
  {
    Always(cfg, states, events, n);
  }

  // ----- the barrier -----

  /** The client's request has been handed to the sender side. */
  predicate Launched(p: Place) {
    p == InReady || p == InFlight || p == InResponses || p == Held
  }

  /** Barrier safety: while any request of round r + 1 is past the barrier, every client with
      more than r rounds has had r + 1 responses processed successfully. */
  lemma BarrierSafety(cfg: Config, states: seq<State>, events: seq<Event>, n: nat, c: nat, d: nat, r: nat)
    requires Behaviour(cfg, states, events) && n < |states| && cfg.barrier
    requires c < |cfg.total| && d < |cfg.total| && cfg.total[d] > r
    requires Sized(cfg, states[n]) && Launched(states[n].place[c]) && states[n].clients[c].round == r + 1
    ensures |states[n].turns[d]| >= r + 1
  {
    Always(cfg, states, events, n);
    var s := states[n];
    assert Level(s.barrierRound, s.handler.Releasing?, s.place[c], s.clients[c].round, cfg.total[c]);
    assert Level(s.barrierRound, s.handler.Releasing?, s.place[d], s.clients[d].round, cfg.total[d]);
    assert TurnsFit(cfg, s.turns[d], s.clients[d], s.place[d]);
  }

  /** Every request past the barrier belongs to the current round. */
  lemma OneRoundAtATime(cfg: Config, states: seq<State>, events: seq<Event>, n: nat, c: nat)
    requires Behaviour(cfg, states, events) && n < |states| && cfg.barrier
    requires c < |cfg.total| && Sized(cfg, states[n]) && Launched(states[n].place[c])
    ensures states[n].clients[c].round == states[n].barrierRound + (if states[n].handler.Releasing? then 1 else 0)
  {
    Always(cfg, states, events, n);
    var s := states[n];
    assert Level(s.barrierRound, s.handler.Releasing?, s.place[c], s.clients[c].round, cfg.total[c]);
  }

  /** Once a request has failed, the barrier stands at its round. */
  lemma FailureBlocksBarrier(cfg: Config, states: seq<State>, events: seq<Event>, n: nat, c: nat)
    requires Behaviour(cfg, states, events) && n < |states| && cfg.barrier
    requires c < |cfg.total| && Sized(cfg, states[n]) && states[n].place[c] == Failed
    ensures states[n].barrierRound == states[n].clients[c].round && !states[n].handler.Releasing?
  {
    Always(cfg, states, events, n);
    var s := states[n];
    assert Level(s.barrierRound, s.handler.Releasing?, s.place[c], s.clients[c].round, cfg.total[c]);
  }

  /** No step touches a client whose request failed. */
  lemma FailedStays(cfg: Config, s: State, s': State, mover: Option<nat>, c: nat)
    requires Effect(cfg, s, s', mover) && c < |s.place| && s.place[c] == Failed
    ensures c < |s'.place| == |s'.clients| == |s.clients|
    ensures s'.place[c] == Failed && s'.clients[c] == s.clients[c]
  {
  }

  lemma RunEffect(cfg: Config, states: seq<State>, events: seq<Event>, n: nat) returns (mover: Option<nat>)
    requires Behaviour(cfg, states, events) && n < |events|
    ensures Effect(cfg, states[n], states[n + 1], mover)
  {
    Always(cfg, states, events, n);
    mover := Mover(cfg, states[n], events[n]);
    StepMoves(cfg, states[n], events[n]);
  }

  lemma {:induction false} FailedForGood(cfg: Config, states: seq<State>, events: seq<Event>, n: nat, m: nat, c: nat)
    requires Behaviour(cfg, states, events) && n <= m < |states|
    requires c < |states[n].place| == |states[n].clients| && states[n].place[c] == Failed
    ensures c < |states[m].place| == |states[m].clients|
    ensures states[m].place[c] == Failed && states[m].clients[c] == states[n].clients[c]
  {
    if n < m {
      FailedForGood(cfg, states, events, n, m - 1, c);
      var mover := RunEffect(cfg, states, events, m - 1);
      FailedStays(cfg, states[m - 1], states[m - 1 + 1], mover, c);
    }
  }

  /** A failed request blocks the barrier for good: from then on its client keeps its round, and
      the barrier stays at that round in every later state of the run. */
  lemma FailureBlocksForGood(cfg: Config, states: seq<State>, events: seq<Event>, n: nat, m: nat, c: nat)
    requires Behaviour(cfg, states, events) && n <= m < |states| && cfg.barrier
    requires c < |cfg.total| && Sized(cfg, states[n]) && states[n].place[c] == Failed
    ensures c < |states[m].place| == |states[m].clients| && states[m].place[c] == Failed
    ensures states[m].clients[c] == states[n].clients[c]
    ensures states[m].barrierRound == states[n].barrierRound == states[m].clients[c].round
  {
    FailedForGood(cfg, states, events, n, m, c);
    RunSized(cfg, states, events, m);
    FailureBlocksBarrier(cfg, states, events, n, c);
    FailureBlocksBarrier(cfg, states, events, m, c);
  }

  lemma RunSized(cfg: Config, states: seq<State>, events: seq<Event>, n: nat)
    requires Behaviour(cfg, states, events) && n < |states|
    ensures Sized(cfg, states[n])
  {
    Always(cfg, states, events, n);
  }

  // ----- totals -----

  function AsInts(s: seq<nat>): (r: seq<int>)
    ensures |r| == |s| && forall i {:trigger r[i]} :: 0 <= i < |s| ==> r[i] == s[i]
  {
    seq(|s|, i requires 0 <= i < |s| => s[i])
  }

  /** total_requests. */
  function TotalRequests(cfg: Config): int {
    Sum(AsInts(cfg.total))
  }

  function Column(total: seq<nat>, r: nat): seq<nat> {
    seq(r, k requires 0 <= k => ClientsAbove(total, k))
  }

  lemma {:induction false} ColumnSum(total: seq<nat>, t: nat, r: nat)
    requires t <= r
    ensures Sum(AsInts(Column(total + [t], r))) == Sum(AsInts(Column(total, r))) + t
    decreases r
  {
    if r != 0 {
      var x, y := AsInts(Column(total + [t], r)), AsInts(Column(total, r));
      assert (total + [t])[..|total|] == total;
      assert x[..r - 1] == AsInts(Column(total + [t], r - 1)) && y[..r - 1] == AsInts(Column(total, r - 1));
      if t < r {
        ColumnSum(total, t, r - 1);
      } else {
        ColumnSum(total, t - 1, r - 1);
        ColumnAbove(total, t, r - 1);
      }
    }
  }

  lemma ColumnAbove(total: seq<nat>, t: nat, r: nat)
    requires r < t
    ensures Column(total + [t], r) == Column(total + [t - 1], r)
  {
    assert (total + [t])[..|total|] == total && (total + [t - 1])[..|total|] == total;
  }

  /** The clients per round add up to the number of requests. */
  lemma {:induction false} PerRoundSum(total: seq<nat>, r: nat)
    requires forall c :: 0 <= c < |total| ==> total[c] <= r
    ensures Sum(AsInts(Column(total, r))) == Sum(AsInts(total))
  {
    if total == [] {
      ZeroColumn(r);
    } else {
      var n := |total| - 1;
      PerRoundSum(total[..n], r);
      assert total == total[..n] + [total[n]];
      ColumnSum(total[..n], total[n], r);
      assert AsInts(total)[..n] == AsInts(total[..n]);
    }
  }

  lemma ZeroColumn(r: nat)
    ensures Sum(AsInts(Column([], r))) == 0
  {
    SumZero(AsInts(Column([], r)));
  }

  lemma ClientsPerRoundSum(cfg: Config)
    requires ConfigOk(cfg)
    ensures Sum(AsInts(ClientsPerRound(cfg))) == TotalRequests(cfg)
  {
    PerRoundSum(cfg.total, cfg.maxRounds);
    assert ClientsPerRound(cfg) == Column(cfg.total, cfg.maxRounds);
  }

  /** Without failures the barrier never strands a request: when nothing is left to do, every
      client is finished, the buffer is empty, and exactly total_requests were sent. */
  lemma QuiescentMeansDone(cfg: Config, states: seq<State>, events: seq<Event>, n: nat)
    requires Behaviour(cfg, states, events) && n < |states|
    requires Quiescent(states[n]) && states[n].failures == 0
    ensures states[n].sent == states[n].completed == TotalRequests(cfg)
    ensures states[n].buffer == []
    ensures forall c :: 0 <= c < |cfg.total| ==> c < |states[n].turns| && |states[n].turns[c]| == cfg.total[c]
  {
    Always(cfg, states, events, n);
    var s := states[n];
    NothingBuffered(cfg, s);
    forall c | 0 <= c < |cfg.total|
      ensures s.clients[c].round == cfg.total[c] && |s.turns[c]| == cfg.total[c]
    {
      OnlyFinished(s, c);
      assert RoundFits(s.place[c], s.clients[c].round, cfg.total[c]);
      assert TurnsFit(cfg, s.turns[c], s.clients[c], s.place[c]);
    }
    assert Rounds(s.clients) == AsInts(cfg.total);
  }

  /** The barrier is waiting for this client, whose request failed. */
  ghost predicate BlocksBarrier(cfg: Config, s: State, c: nat)
    requires Sized(cfg, s)
  {
    c < |cfg.total| && cfg.total[c] > s.barrierRound && s.place[c] == Failed && s.clients[c].round == s.barrierRound
  }

  /** Where a client can be when nothing is left to do. */
  lemma RestPlace(s: State, c: nat)
    requires PlacesOk(s) && Quiescent(s) && c < |s.place|
    ensures s.place[c] == Finished || s.place[c] == Failed || s.place[c] == Buffered
    ensures s.buffer == [] ==> s.place[c] != Buffered
  {
  }

  lemma BufferBlocked(cfg: Config, s: State)
    requires Inv(cfg, s) && Quiescent(s) && s.buffer != []
    ensures exists c: nat :: BlocksBarrier(cfg, s, c)
  {
    var b, c := s.barrierRound, s.buffer[0].client;
    assert ReqIds(Unreleased(s))[0] == c;
    assert Level(b, false, s.place[c], s.clients[c].round, cfg.total[c]);
    assert c in Participants(cfg, b);
    if forall d: nat :: !BlocksBarrier(cfg, s, d) {
      forall d: nat | d in Participants(cfg, b)
        ensures d in Counted(cfg, s)
      {
        RestPlace(s, d);
        assert Level(b, false, s.place[d], s.clients[d].round, cfg.total[d]);
        assert !BlocksBarrier(cfg, s, d);
      }
      SubsetSize(Participants(cfg, b), Counted(cfg, s));
      assert false;
    }
  }

  /** Rest with failures: everything sent is completed. Without the barrier every client is
      finished or failed. With it, a client is finished, failed in the barrier round, or has its
      next request held back; and requests are held back only because a participant of the
      barrier round failed. */
  lemma RestWithFailures(cfg: Config, states: seq<State>, events: seq<Event>, n: nat, c: nat)
    requires Behaviour(cfg, states, events) && n < |states| && Quiescent(states[n]) && c < |cfg.total|
    ensures Sized(cfg, states[n]) && states[n].sent == states[n].completed
    ensures !cfg.barrier ==> states[n].place[c] == Finished || states[n].place[c] == Failed
    ensures cfg.barrier ==>
              var (p, round, b) := (states[n].place[c], states[n].clients[c].round, states[n].barrierRound);
              || (p == Finished && round == cfg.total[c])
              || (p == Failed && round == b)
              || (p == Buffered && round == b + 1)
    ensures states[n].buffer != [] ==> exists d: nat :: BlocksBarrier(cfg, states[n], d)
  {
    Always(cfg, states, events, n);
    var s := states[n];
    RestPlace(s, c);
    if cfg.barrier {
      assert Level(s.barrierRound, false, s.place[c], s.clients[c].round, cfg.total[c]);
    }
    if s.buffer != [] {
      BufferBlocked(cfg, s);
    }
  }

  lemma OnlyFinished(s: State, c: nat)
    requires PlacesOk(s) && Quiescent(s) && s.buffer == [] && c < |s.place| && s.place[c] != Failed
    ensures s.place[c] == Finished
  {
  }

  lemma NothingBuffered(cfg: Config, s: State)
    requires Inv(cfg, s) && Quiescent(s) && s.failures == 0
    ensures s.buffer == []
  {
    if s.buffer != [] {
      BufferBlocked(cfg, s);
      assert false;
    }
  }

  // ----- every run comes to rest -----

  function Steps(events: seq<Event>): nat {
    if events == [] then 0 else Steps(events[..|events| - 1]) + if Idles(events[|events| - 1]) then 0 else 1
  }

  lemma {:induction false} RunReleasesBelow(cfg: Config, states: seq<State>, events: seq<Event>, n: nat)
    requires Behaviour(cfg, states, events) && n < |states|
    ensures ReleasesBelow(cfg, states[n])
  {
    if n > 0 {
      RunReleasesBelow(cfg, states, events, n - 1);
      StepReleasesBelow(cfg, states[n - 1], events[n - 1]);
      assert states[n - 1 + 1] == Step(cfg, states[n - 1], events[n - 1]);
    }
  }

  lemma RunStepWorks(cfg: Config, states: seq<State>, events: seq<Event>, n: nat)
    requires Behaviour(cfg, states, events) && n < |events|
    ensures |states[n].clients| == |states[n].place| == |cfg.total|
    ensures |states[n + 1].clients| == |states[n + 1].place| == |cfg.total|
    ensures WorkLeft(cfg, states[n + 1]) + (if Idles(events[n]) then 0 else 1) <= WorkLeft(cfg, states[n])
  {
    Always(cfg, states, events, n);
    RunReleasesBelow(cfg, states, events, n);
    StepWorks(cfg, states[n], events[n]);
  }

  lemma {:induction false} StepsAndWork(cfg: Config, states: seq<State>, events: seq<Event>, n: nat)
    requires Behaviour(cfg, states, events) && n < |states|
    ensures |states[0].clients| == |states[0].place| == |states[n].clients| == |states[n].place| == |cfg.total|
    ensures WorkLeft(cfg, states[n]) + Steps(events[..n]) <= WorkLeft(cfg, states[0])
  {
    RunSized(cfg, states, events, n);
    if n > 0 {
      StepsAndWork(cfg, states, events, n - 1);
      RunStepWorks(cfg, states, events, n - 1);
      assert events[..n][..n - 1] == events[..n - 1];
    }
  }

  lemma {:induction false} FirstWorks(total: seq<nat>, works: seq<int>)
    requires |works| == |total| && forall c :: 0 <= c < |total| ==> works[c] <= 6 * total[c]
    ensures Sum(works) <= 6 * Sum(AsInts(total))
  {
    if total != [] {
      var n := |total| - 1;
      FirstWorks(total[..n], works[..n]);
      assert AsInts(total)[..n] == AsInts(total[..n]);
    }
  }

  /** Every run takes at most six steps for each request, plus one for each round, not counting
      looks at the limit and at an empty queue. */
  lemma StepsBounded(cfg: Config, states: seq<State>, events: seq<Event>)
    requires Behaviour(cfg, states, events)
    ensures Steps(events) <= 6 * TotalRequests(cfg) + cfg.maxRounds
  {
    var n := |events|;
    StepsAndWork(cfg, states, events, n);
    Always(cfg, states, events, n);
    WorkNonNegative(cfg, states[n]);
    FirstWorks(cfg.total, Works(cfg, states[0]));
    assert events[..n] == events;
  }

  /** Before a run is at rest, a step that does work is enabled, at once or after a look at the
      limit. With StepsBounded, every run that goes on while it can comes to rest. */
  lemma NeverStuck(cfg: Config, states: seq<State>, events: seq<Event>, n: nat)
    requires Behaviour(cfg, states, events) && n < |states| && cfg.maxParallel >= 1
    requires Sized(cfg, states[n]) && !Quiescent(states[n])
    ensures
      || (exists e :: !Idles(e) && Enabled(cfg, states[n], e))
      || (Enabled(cfg, states[n], Check) && exists e :: !Idles(e) && Enabled(cfg, Step(cfg, states[n], Check), e))
  {
    Always(cfg, states, events, n);
    WorkIsEnabled(cfg, states[n]);
  }
}
