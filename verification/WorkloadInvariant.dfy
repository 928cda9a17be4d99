/** What every step of the load generator keeps: rounds, payloads, counters, the sub-question
    pool, the chain of prompts, and the round barrier. */
module WorkloadInvariant {
  import opened Base
  import opened Queueing
  import opened WorkloadModel
  import opened WorkloadPlaces

  // ----- rounds -----

  ghost predicate RoundFits(p: Place, round: nat, total: nat) {
    match p
    case Answered => 1 <= round <= total
    case Finished => round == total
    case _ => round < total
  }

  ghost predicate RoundsOk(cfg: Config, s: State)
    requires Sized(cfg, s)
  {
    forall c :: 0 <= c < |s.clients| ==> RoundFits(s.place[c], s.clients[c].round, cfg.total[c])
  }

  // ----- payloads: a history does not change while a request built from it is pending -----

  ghost predicate Fresh(q: seq<Request>, clients: seq<Client>) {
    forall i :: 0 <= i < |q| ==> q[i].client < |clients| && q[i].prompt == clients[q[i].client].history
  }

  ghost predicate FreshReply(r: Response, clients: seq<Client>) {
    r.client < |clients| && r.prompt == clients[r.client].history
  }

  ghost predicate FreshReplies(q: seq<Response>, clients: seq<Client>) {
    forall i :: 0 <= i < |q| ==> FreshReply(q[i], clients)
  }

  ghost predicate PayloadsOk(s: State) {
    && Fresh(s.ready, s.clients) && Fresh(s.inFlight, s.clients) && Fresh(Unreleased(s), s.clients)
    && FreshReplies(s.responses, s.clients)
    && (s.handler.Holding? ==> FreshReply(s.handler.response, s.clients))
  }

  // ----- counters -----

  function Rounds(clients: seq<Client>): (r: seq<int>)
    ensures |r| == |clients| && forall c {:trigger r[c]} :: 0 <= c < |clients| ==> r[c] == clients[c].round
  {
    seq(|clients|, c requires 0 <= c < |clients| => clients[c].round)
  }

  ghost predicate CountersOk(cfg: Config, s: State) {
    && s.sent == s.completed + |s.inFlight| + |s.responses| + |HeldIds(s)|
    && s.sent - s.completed <= cfg.maxParallel
    && (s.passed ==> s.sent - s.completed < cfg.maxParallel)
    && s.completed == Sum(Rounds(s.clients)) + s.failures
    && (forall c :: 0 <= c < |s.place| && s.place[c] == Failed ==> s.failures > 0)
  }

  // ----- sub-questions -----

  /** Sub-questions that a client will still need. */
  function Left(round: nat, total: nat): nat {
    if round + 1 < total then total - round - 1 else 0
  }

  function LeftAll(cfg: Config, clients: seq<Client>): (r: seq<int>)
    requires |clients| == |cfg.total|
    ensures |r| == |clients|
    ensures forall c {:trigger r[c]} :: 0 <= c < |clients| ==> r[c] == Left(clients[c].round, cfg.total[c])
  {
    seq(|clients|, c requires 0 <= c < |clients| => Left(clients[c].round, cfg.total[c]))
  }

  /** One more while the handler is about to build a client's next request. */
  function Pending(cfg: Config, s: State): nat
    requires |s.clients| == |cfg.total|
  {
    if s.handler.Requeueing? && s.handler.client < |s.clients| &&
       s.clients[s.handler.client].round < cfg.total[s.handler.client]
    then 1 else 0
  }

  ghost predicate PoolOk(cfg: Config, s: State)
    requires |s.clients| == |cfg.total|
  {
    && Sum(LeftAll(cfg, s.clients)) + Pending(cfg, s) <= |s.pool|
    && (cfg.nonEmpty ==> forall i :: 0 <= i < |s.pool| ==> s.pool[i] != [])
  }

  // ----- prompts -----

  /** The prompt continues the turn: earlier prompt, its output, then a sub-question. */
  ghost predicate Continues(cfg: Config, t: Turn, prompt: seq<Item>) {
    t.prompt + t.output <= prompt && (cfg.nonEmpty ==> t.prompt + t.output < prompt)
  }

  ghost predicate TurnsFit(cfg: Config, turns: seq<Turn>, cl: Client, p: Place) {
    && |turns| == cl.round
    && (forall k :: 0 <= k < |turns| - 1 ==> Continues(cfg, turns[k], turns[k + 1].prompt))
    && (p == Answered || p == Finished ==>
          turns != [] && cl.history == turns[|turns| - 1].prompt + turns[|turns| - 1].output)
    && (p != Answered && p != Finished && turns != [] ==> Continues(cfg, turns[|turns| - 1], cl.history))
  }

  ghost predicate TurnsOk(cfg: Config, s: State)
    requires Sized(cfg, s)
  {
    forall c :: 0 <= c < |s.clients| ==> TurnsFit(cfg, s.turns[c], s.clients[c], s.place[c])
  }

  // ----- the steps keep them -----

  /** Everything but the places. */
  ghost predicate Core(cfg: Config, s: State) {
    && ConfigOk(cfg) && Sized(cfg, s) && !s.handler.Crashed?
    && RoundsOk(cfg, s) && PayloadsOk(s) && CountersOk(cfg, s) && PoolOk(cfg, s) && TurnsOk(cfg, s)
  }

  lemma {:induction false} SumNonNegative(s: seq<int>)
    requires forall i :: 0 <= i < |s| ==> s[i] >= 0
    ensures Sum(s) >= 0
  {
    if s != [] {
      SumNonNegative(s[..|s| - 1]);
    }
  }

  lemma QueueRemove(q: seq<Request>, clients: seq<Client>, n: nat, i: nat)
    requires i < |q|
    ensures ReqBelow(q, n) ==> ReqBelow(RemoveAt(q, i), n)
    ensures Fresh(q, clients) ==> Fresh(RemoveAt(q, i), clients)
  {
    var r := RemoveAt(q, i);
    assert forall k :: 0 <= k < |r| ==> r[k] == if k < i then q[k] else q[k + 1];
  }

  lemma PopCore(cfg: Config, s: State, i: nat)
    requires Core(cfg, s) && s.passed && i < |s.ready| && s.place[s.ready[i].client] == InReady
    ensures Core(cfg, DoPop(s, i))
  {
    var s' := DoPop(s, i);
    QueueRemove(s.ready, s.clients, |cfg.total|, i);
    assert Fresh(s'.inFlight, s'.clients);
    assert Unreleased(s') == Unreleased(s);
  }

  lemma FinishPayloads(cfg: Config, s: State, k: nat, success: bool, output: seq<Item>)
    requires Sized(cfg, s) && PayloadsOk(s) && k < |s.inFlight|
    ensures PayloadsOk(DoFinish(s, k, success, output))
  {
    var s' := DoFinish(s, k, success, output);
    QueueRemove(s.inFlight, s.clients, |cfg.total|, k);
    assert Unreleased(s') == Unreleased(s);
  }

  lemma FinishRounds(cfg: Config, s: State, k: nat, success: bool, output: seq<Item>)
    requires Sized(cfg, s) && k < |s.inFlight| && s.place[s.inFlight[k].client] == InFlight
    requires RoundsOk(cfg, s) && TurnsOk(cfg, s)
    ensures var s' := DoFinish(s, k, success, output); Sized(cfg, s') && RoundsOk(cfg, s') && TurnsOk(cfg, s')
  {
    var c := s.inFlight[k].client;
    QueueRemove(s.inFlight, s.clients, |cfg.total|, k);
    assert RoundFits(InFlight, s.clients[c].round, cfg.total[c]);
    assert TurnsFit(cfg, s.turns[c], s.clients[c], InFlight);
  }

  lemma FinishCore(cfg: Config, s: State, k: nat, success: bool, output: seq<Item>)
    requires Core(cfg, s) && k < |s.inFlight| && s.place[s.inFlight[k].client] == InFlight
    ensures Core(cfg, DoFinish(s, k, success, output))
  {
    FinishPayloads(cfg, s, k, success, output);
    FinishRounds(cfg, s, k, success, output);
  }

  lemma GetCore(cfg: Config, s: State)
    requires Core(cfg, s) && s.handler.Waiting? && s.responses != [] && s.place[s.responses[0].client] == InResponses
    ensures Core(cfg, DoGet(s))
  {
    var s' := DoGet(s);
    assert Unreleased(s') == Unreleased(s);
  }

  /** Changing the record of a client without a queued request leaves the payloads alone. */
  lemma FreshOther(q: seq<Request>, clients: seq<Client>, c: nat, cl: Client)
    requires Fresh(q, clients) && c < |clients| && forall i :: 0 <= i < |q| ==> q[i].client != c
    ensures Fresh(q, clients[c := cl])
  {
  }

  lemma FreshRepliesOther(q: seq<Response>, clients: seq<Client>, c: nat, cl: Client)
    requires FreshReplies(q, clients) && c < |clients| && forall i :: 0 <= i < |q| ==> q[i].client != c
    ensures FreshReplies(q, clients[c := cl])
  {
    forall i | 0 <= i < |q|
      ensures FreshReply(q[i], clients[c := cl])
    {
      assert FreshReply(q[i], clients);
    }
  }

  /** The queues do not mention client c. */
  ghost predicate Absent(s: State, c: nat) {
    && (forall i :: 0 <= i < |s.ready| ==> s.ready[i].client != c)
    && (forall i :: 0 <= i < |s.inFlight| ==> s.inFlight[i].client != c)
    && (forall i :: 0 <= i < |Unreleased(s)| ==> Unreleased(s)[i].client != c)
    && (forall i :: 0 <= i < |s.responses| ==> s.responses[i].client != c)
  }

  lemma HandleCrash(cfg: Config, s: State)
    requires Core(cfg, s) && s.handler.Holding? && s.place[s.handler.response.client] == Held
    ensures !DoHandle(cfg, s).handler.Crashed?
  {
    var c := s.handler.response.client;
    assert RoundFits(s.place[c], s.clients[c].round, cfg.total[c]);
  }

  /** The handler holds the response of a client that is mid-round. */
  ghost predicate HoldsLive(cfg: Config, s: State) {
    && Sized(cfg, s) && s.handler.Holding?
    && s.place[s.handler.response.client] == Held
    && s.clients[s.handler.response.client].round < cfg.total[s.handler.response.client]
    && !DoHandle(cfg, s).handler.Crashed?
  }

  lemma HandleCounters(cfg: Config, s: State)
    requires HoldsLive(cfg, s) && CountersOk(cfg, s)
    ensures CountersOk(cfg, DoHandle(cfg, s))
  {
    var c, s' := s.handler.response.client, DoHandle(cfg, s);
    if s.handler.response.success {
      SumUpdate(Rounds(s.clients), c, s.clients[c].round + 1);
      assert Rounds(s'.clients) == Rounds(s.clients)[c := s.clients[c].round + 1];
    }
  }

  lemma HandlePool(cfg: Config, s: State)
    requires HoldsLive(cfg, s) && PoolOk(cfg, s)
    ensures PoolOk(cfg, DoHandle(cfg, s))
  {
    var c, s' := s.handler.response.client, DoHandle(cfg, s);
    if s.handler.response.success {
      var left := Left(s.clients[c].round + 1, cfg.total[c]);
      SumUpdate(LeftAll(cfg, s.clients), c, left);
      assert LeftAll(cfg, s'.clients) == LeftAll(cfg, s.clients)[c := left];
    }
  }

  lemma HandleRounds(cfg: Config, s: State)
    requires HoldsLive(cfg, s) && RoundsOk(cfg, s)
    ensures Sized(cfg, DoHandle(cfg, s)) && RoundsOk(cfg, DoHandle(cfg, s))
  {
  }

  lemma HandleTurns(cfg: Config, s: State)
    requires HoldsLive(cfg, s) && TurnsOk(cfg, s) && FreshReply(s.handler.response, s.clients)
    ensures Sized(cfg, DoHandle(cfg, s)) && TurnsOk(cfg, DoHandle(cfg, s))
  {
    var c, s' := s.handler.response.client, DoHandle(cfg, s);
    assert TurnsFit(cfg, s.turns[c], s.clients[c], Held);
    assert TurnsFit(cfg, s'.turns[c], s'.clients[c], s'.place[c]);
  }

  lemma HandlePayloads(cfg: Config, s: State)
    requires HoldsLive(cfg, s) && PayloadsOk(s) && Absent(s, s.handler.response.client)
    ensures PayloadsOk(DoHandle(cfg, s))
  {
    var c, s' := s.handler.response.client, DoHandle(cfg, s);
    assert Unreleased(s') == Unreleased(s);
    assert s'.clients == s.clients[c := s'.clients[c]];
    FreshOther(s.ready, s.clients, c, s'.clients[c]);
    FreshOther(s.inFlight, s.clients, c, s'.clients[c]);
    FreshOther(Unreleased(s), s.clients, c, s'.clients[c]);
    FreshRepliesOther(s.responses, s.clients, c, s'.clients[c]);
  }

  lemma HandleCore(cfg: Config, s: State)
    requires Core(cfg, s) && s.handler.Holding? && s.place[s.handler.response.client] == Held
    requires Absent(s, s.handler.response.client)
    ensures Core(cfg, DoHandle(cfg, s))
  {
    HandleCrash(cfg, s);
    HandleCounters(cfg, s);
    HandlePool(cfg, s);
    HandleRounds(cfg, s);
    HandleTurns(cfg, s);
    HandlePayloads(cfg, s);
  }

  // ----- building the next request -----

  ghost predicate RequeueLive(cfg: Config, s: State) {
    && Sized(cfg, s) && s.handler.Requeueing?
    && s.place[s.handler.client] == Answered
    && s.clients[s.handler.client].round <= cfg.total[s.handler.client]
    && !DoRequeue(cfg, s).handler.Crashed?
  }

  lemma RequeueCrash(cfg: Config, s: State)
    requires Core(cfg, s) && s.handler.Requeueing?
    ensures !DoRequeue(cfg, s).handler.Crashed?
  {
    SumNonNegative(LeftAll(cfg, s.clients));
  }

  /** What DoRequeue leaves alone, and what it does to the client. */
  lemma RequeueFrame(cfg: Config, s: State)
    requires RequeueLive(cfg, s)
    ensures var s', c := DoRequeue(cfg, s), s.handler.client;
            && s'.inFlight == s.inFlight && s'.responses == s.responses && s'.turns == s.turns
            && s'.sent == s.sent && s'.completed == s.completed && s'.failures == s.failures && s'.passed == s.passed
            && (s'.handler.Waiting? || (s'.handler == Releasing(0) && cfg.barrier))
            && |s'.clients| == |s.clients| && |s'.place| == |s.place|
            && s'.clients == s.clients[c := s'.clients[c]]
            && s'.clients[c].round == s.clients[c].round
            && s'.place == s.place[c := s'.place[c]]
            && Unreleased(s') == s'.buffer && Unreleased(s) == s.buffer
  {
  }

  lemma RequeueSizes(cfg: Config, s: State)
    requires RequeueLive(cfg, s)
    ensures Sized(cfg, DoRequeue(cfg, s))
  {
  }

  lemma RequeueCounters(cfg: Config, s: State)
    requires RequeueLive(cfg, s) && CountersOk(cfg, s)
    ensures CountersOk(cfg, DoRequeue(cfg, s))
  {
    RequeueFrame(cfg, s);
    assert Rounds(DoRequeue(cfg, s).clients) == Rounds(s.clients);
  }

  lemma RequeuePool(cfg: Config, s: State)
    requires RequeueLive(cfg, s) && PoolOk(cfg, s)
    ensures |DoRequeue(cfg, s).clients| == |cfg.total| && PoolOk(cfg, DoRequeue(cfg, s))
  {
    RequeueFrame(cfg, s);
    assert LeftAll(cfg, DoRequeue(cfg, s).clients) == LeftAll(cfg, s.clients);
  }

  lemma RequeueRounds(cfg: Config, s: State)
    requires RequeueLive(cfg, s) && RoundsOk(cfg, s)
    ensures Sized(cfg, DoRequeue(cfg, s)) && RoundsOk(cfg, DoRequeue(cfg, s))
  {
    RequeueSizes(cfg, s);
    RequeueFrame(cfg, s);
  }

  lemma RequeueTurns(cfg: Config, s: State)
    requires RequeueLive(cfg, s) && TurnsOk(cfg, s) && PoolOk(cfg, s)
    ensures Sized(cfg, DoRequeue(cfg, s)) && TurnsOk(cfg, DoRequeue(cfg, s))
  {
    RequeueSizes(cfg, s);
    RequeueFrame(cfg, s);
    var c, s' := s.handler.client, DoRequeue(cfg, s);
    assert TurnsFit(cfg, s.turns[c], s.clients[c], Answered);
    assert TurnsFit(cfg, s'.turns[c], s'.clients[c], s'.place[c]);
  }

  lemma RequeuePayloads(cfg: Config, s: State)
    requires RequeueLive(cfg, s) && PayloadsOk(s) && Absent(s, s.handler.client)
    ensures PayloadsOk(DoRequeue(cfg, s))
  {
    RequeueFrame(cfg, s);
    var c, s' := s.handler.client, DoRequeue(cfg, s);
    FreshOther(s.ready, s.clients, c, s'.clients[c]);
    FreshOther(s.inFlight, s.clients, c, s'.clients[c]);
    FreshOther(s.buffer, s.clients, c, s'.clients[c]);
    FreshRepliesOther(s.responses, s.clients, c, s'.clients[c]);
  }

  lemma RequeueCore(cfg: Config, s: State)
    requires Core(cfg, s) && s.handler.Requeueing? && s.place[s.handler.client] == Answered
    requires Absent(s, s.handler.client)
    ensures Core(cfg, DoRequeue(cfg, s))
  {
    RequeueCrash(cfg, s);
    assert RoundFits(Answered, s.clients[s.handler.client].round, cfg.total[s.handler.client]);
    RequeueCounters(cfg, s);
    RequeuePool(cfg, s);
    RequeueRounds(cfg, s);
    RequeueTurns(cfg, s);
    RequeuePayloads(cfg, s);
  }

  lemma ReleasePayloads(cfg: Config, s: State)
    requires Sized(cfg, s) && s.handler.Releasing? && PayloadsOk(s)
    ensures PayloadsOk(DoRelease(s))
  {
    var i, s' := s.handler.next, DoRelease(s);
    if i < |s.buffer| {
      assert Unreleased(s)[0] == s.buffer[i];
      assert Unreleased(s') == Unreleased(s)[1..];
    }
  }

  lemma ReleaseRounds(cfg: Config, s: State)
    requires Sized(cfg, s) && s.handler.Releasing? && RoundsOk(cfg, s) && TurnsOk(cfg, s)
    requires s.handler.next < |s.buffer| ==> s.place[s.buffer[s.handler.next].client] == Buffered
    ensures Sized(cfg, DoRelease(s)) && RoundsOk(cfg, DoRelease(s)) && TurnsOk(cfg, DoRelease(s))
  {
    var i := s.handler.next;
    if i < |s.buffer| {
      var c := s.buffer[i].client;
      assert RoundFits(Buffered, s.clients[c].round, cfg.total[c]);
      assert TurnsFit(cfg, s.turns[c], s.clients[c], Buffered);
    }
  }

  lemma ReleaseCore(cfg: Config, s: State)
    requires Core(cfg, s) && s.handler.Releasing?
    requires s.handler.next < |s.buffer| ==> s.place[s.buffer[s.handler.next].client] == Buffered
    ensures Core(cfg, DoRelease(s))
  {
    ReleasePayloads(cfg, s);
    ReleaseRounds(cfg, s);
  }
}
