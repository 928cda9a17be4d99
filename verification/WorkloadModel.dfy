/** The multi-round load generator: a sender loop, requests in flight and a response handler
    that share counters, a ready queue, per-client histories and an optional round barrier.

    Each step below makes at most one access to state that another thread also uses, so the
    runs of `Step` cover every interleaving of the sender, the tasks and the handler. */
module WorkloadModel {
  import opened Queueing

  /** A history entry: a token id (native API) or a chat message (OpenAI API). */
  datatype Item = Token(id: int) | User(text: string) | Assistant(text: string)

  /** total: rounds of each client.  nonEmpty: all sampled sub-questions are non-empty. */
  datatype Config = Config(total: seq<nat>, maxRounds: nat, maxParallel: nat, barrier: bool, nonEmpty: bool)

  predicate ConfigOk(cfg: Config) {
    forall c :: 0 <= c < |cfg.total| ==> 1 <= cfg.total[c] <= cfg.maxRounds
  }

  datatype Request = Request(client: nat, prompt: seq<Item>)

  /** What a task delivers; prompt is what its request asked, for the record of turns. */
  datatype Response = Response(client: nat, prompt: seq<Item>, success: bool, output: seq<Item>)

  datatype Client = Client(round: nat, history: seq<Item>)

  /** One answered request: what was asked and what came back. */
  datatype Turn = Turn(prompt: seq<Item>, output: seq<Item>)

  /** Where the one request of a client is; Finished and Failed clients have none. */
  datatype Place = InReady | InFlight | InResponses | Held | Answered | Buffered | Finished | Failed

  /** The response handler's position in its loop. */
  datatype Handler =
    | Waiting
    | Holding(response: Response)
    | Requeueing(client: nat)
    | Releasing(next: nat)
    | Crashed

  datatype State = State(
    ready: seq<Request>,
    passed: bool,
    inFlight: seq<Request>,
    responses: seq<Response>,
    handler: Handler,
    buffer: seq<Request>,
    sent: nat,
    completed: nat,
    failures: nat,
    pool: seq<seq<Item>>,
    clients: seq<Client>,
    barrierRound: nat,
    barrierCount: nat,
    place: seq<Place>,
    turns: seq<seq<Turn>>)

  /** The number of clients with more than r rounds. */
  function ClientsAbove(total: seq<nat>, r: nat): nat {
    if total == [] then 0
    else ClientsAbove(total[..|total| - 1], r) + (if total[|total| - 1] > r then 1 else 0)
  }

  /** clients_per_round. */
  function ClientsPerRound(cfg: Config): (r: seq<nat>)
    ensures |r| == cfg.maxRounds && forall k :: 0 <= k < |r| ==> r[k] == ClientsAbove(cfg.total, k)
  {
    seq(cfg.maxRounds, k requires 0 <= k => ClientsAbove(cfg.total, k))
  }

  function Pad(t: nat): nat {
    if t >= 1 then t - 1 else 0
  }

  /** The number of sub-questions to sample: one for each round after a client's first. */
  function SubQuestions(total: seq<nat>): nat {
    if total == [] then 0 else SubQuestions(total[..|total| - 1]) + Pad(total[|total| - 1])
  }

  ghost predicate Init(cfg: Config, s: State) {
    && |s.clients| == |cfg.total| == |s.ready| == |s.place| == |s.turns|
    && (forall c :: 0 <= c < |cfg.total| ==>
          && s.ready[c].client == c && s.ready[c].prompt == s.clients[c].history
          && s.clients[c].round == 0 && s.place[c] == InReady && s.turns[c] == [])
    && s.inFlight == [] && s.responses == [] && s.buffer == [] && s.handler == Waiting && !s.passed
    && s.sent == 0 && s.completed == 0 && s.failures == 0 && s.barrierRound == 0 && s.barrierCount == 0
    && |s.pool| >= SubQuestions(cfg.total)
    && (cfg.nonEmpty ==> forall i :: 0 <= i < |s.pool| ==> s.pool[i] != [])
  }

  // ----- the steps -----

  datatype Event =
    | Check                                                  // sender: sent - completed < max_parallel
    | PopNone                                                // sender: the ready queue is empty
    | Pop(i: nat)                                            // sender: take a request and start its task
    | Finish(k: nat, success: bool, output: seq<Item>)       // a task puts its response
    | Get                                                    // handler: take the next response
    | Handle                                                 // handler: record the response
    | Requeue                                                // handler: build the next request, count the barrier
    | Release                                                // handler: move one buffered request, or end the release

  ghost predicate ReqBelow(q: seq<Request>, n: nat) {
    forall i :: 0 <= i < |q| ==> q[i].client < n
  }

  ghost predicate RespBelow(q: seq<Response>, n: nat) {
    forall i :: 0 <= i < |q| ==> q[i].client < n
  }

  /** Every client id held by a queue is a client. */
  ghost predicate Sized(cfg: Config, s: State) {
    && |s.clients| == |cfg.total| == |s.place| == |s.turns|
    && ReqBelow(s.ready, |cfg.total|)
    && ReqBelow(s.inFlight, |cfg.total|)
    && RespBelow(s.responses, |cfg.total|)
    && ReqBelow(s.buffer, |cfg.total|)
    && (s.handler.Holding? ==> s.handler.response.client < |cfg.total|)
    && (s.handler.Requeueing? ==> s.handler.client < |cfg.total|)
    && (s.handler.Releasing? ==> s.handler.next <= |s.buffer|)
  }

  predicate Enabled(cfg: Config, s: State, e: Event) {
    match e
    case Check => !s.passed && s.sent - s.completed < cfg.maxParallel
    case PopNone => s.passed && s.ready == []
    case Pop(i) => s.passed && i < |s.ready|
    case Finish(k, _, _) => k < |s.inFlight|
    case Get => s.handler.Waiting? && s.responses != []
    case Handle => s.handler.Holding?
    case Requeue => s.handler.Requeueing?
    case Release => s.handler.Releasing?
  }

  function DoPop(s: State, i: nat): State
    requires i < |s.ready| && s.ready[i].client < |s.place|
  {
    s.(ready := RemoveAt(s.ready, i),
       passed := false,
       inFlight := s.inFlight + [s.ready[i]],
       sent := s.sent + 1,
       place := s.place[s.ready[i].client := InFlight])
  }

  function DoFinish(s: State, k: nat, success: bool, output: seq<Item>): State
    requires k < |s.inFlight| && s.inFlight[k].client < |s.place|
  {
    var req := s.inFlight[k];
    s.(inFlight := RemoveAt(s.inFlight, k),
       responses := s.responses + [Response(req.client, req.prompt, success, output)],
       place := s.place[req.client := InResponses])
  }

  function DoGet(s: State): State
    requires s.responses != [] && s.responses[0].client < |s.place|
  {
    s.(handler := Holding(s.responses[0]),
       responses := s.responses[1..],
       place := s.place[s.responses[0].client := Held])
  }

  /** A failed response only counts; a successful one extends the history and the round.
      The per-round metrics of round current_round must exist. */
  function DoHandle(cfg: Config, s: State): State
    requires s.handler.Holding? && s.handler.response.client < |s.clients| == |s.place| == |s.turns|
  {
    var r := s.handler.response;
    var c := r.client;
    var cl := s.clients[c];
    if !r.success then
      s.(handler := Waiting, completed := s.completed + 1, failures := s.failures + 1, place := s.place[c := Failed])
    else if cfg.barrier && cl.round >= cfg.maxRounds then s.(handler := Crashed)
    else
      s.(handler := Requeueing(c),
         completed := s.completed + 1,
         clients := s.clients[c := Client(cl.round + 1, cl.history + r.output)],
         place := s.place[c := Answered],
         turns := s.turns[c := s.turns[c] + [Turn(r.prompt, r.output)]])
  }

  /** The next request of the client, if it has a round left: pops a sub-question. */
  function NextRequest(cfg: Config, s: State, c: nat): State
    requires c < |s.clients| == |s.place| == |cfg.total|
  {
    var cl := s.clients[c];
    if cl.round >= cfg.total[c] then s.(place := s.place[c := Finished])
    else if s.pool == [] then s.(handler := Crashed)
    else
      var history := cl.history + s.pool[|s.pool| - 1];
      var req := Request(c, history);
      var s1 := s.(pool := s.pool[..|s.pool| - 1], clients := s.clients[c := Client(cl.round, history)]);
      if cfg.barrier then s1.(buffer := s.buffer + [req], place := s.place[c := Buffered])
      else s1.(ready := s.ready + [req], place := s.place[c := InReady])
  }

  /** The barrier counts every successful response while rounds remain. */
  function CountBarrier(cfg: Config, s: State): State {
    if s.handler.Crashed? then s
    else if cfg.barrier && s.barrierRound < cfg.maxRounds then
      var n := s.barrierCount + 1;
      s.(barrierCount := n,
         handler := if n == ClientsPerRound(cfg)[s.barrierRound] then Releasing(0) else Waiting)
    else s.(handler := Waiting)
  }

  function DoRequeue(cfg: Config, s: State): State
    requires s.handler.Requeueing? && s.handler.client < |s.clients| == |s.place| == |cfg.total|
  {
    CountBarrier(cfg, NextRequest(cfg, s, s.handler.client))
  }

  function DoRelease(s: State): State
    requires s.handler.Releasing? && s.handler.next <= |s.buffer|
    requires s.handler.next < |s.buffer| ==> s.buffer[s.handler.next].client < |s.place|
  {
    var i := s.handler.next;
    if i < |s.buffer| then
      s.(ready := s.ready + [s.buffer[i]],
         handler := Releasing(i + 1),
         place := s.place[s.buffer[i].client := InReady])
    else
      s.(buffer := [], handler := Waiting, barrierRound := s.barrierRound + 1, barrierCount := 0)
  }

  function Step(cfg: Config, s: State, e: Event): State
    requires Sized(cfg, s) && Enabled(cfg, s, e)
  {
    match e
    case Check => s.(passed := true)
    case PopNone => s.(passed := false)
    case Pop(i) => DoPop(s, i)
    case Finish(k, success, output) => DoFinish(s, k, success, output)
    case Get => DoGet(s)
    case Handle => DoHandle(cfg, s)
    case Requeue => DoRequeue(cfg, s)
    case Release => DoRelease(s)
  }
}
