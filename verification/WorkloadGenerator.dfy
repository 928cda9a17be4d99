/** The load generator as an object: the fields that its threads share, and one method per
    atomic piece of the sender loop, the request tasks and the response handler. */
module WorkloadGenerator {
  import opened Base
  import opened Queueing
  import opened WorkloadModel
  import opened WorkloadBarrier

  /** The command line's round arguments, 0 meaning "not given": the least and the greatest
      number of rounds per client. */
  function ResolveRounds(minRounds: int, maxRounds: int, numRounds: int): (r: Outcome<(nat, nat)>)
    ensures r.Ok? <==> if minRounds == 0 && maxRounds == 0 then numRounds >= 1
                       else minRounds >= 0 && maxRounds >= 0 &&
                            (minRounds == 0 || maxRounds == 0 || minRounds <= maxRounds)
    ensures r.Ok? ==> 1 <= r.value.0 <= r.value.1
    ensures r.Ok? && minRounds != 0 ==> r.value.0 == minRounds
    ensures r.Ok? && maxRounds != 0 ==> r.value.1 == maxRounds
    ensures r.Ok? && (minRounds == 0 || maxRounds == 0) ==> r.value.0 == r.value.1
    ensures r.Ok? && minRounds == 0 && maxRounds == 0 ==> r.value.0 == numRounds
  {
    var (lo, hi) :=
      if minRounds == 0 && maxRounds == 0 then (numRounds, numRounds)
      else if minRounds == 0 then (maxRounds, maxRounds)
      else if maxRounds == 0 then (minRounds, minRounds)
      else (minRounds, maxRounds);
    if lo < 1 then Raised("ValueError") else if lo > hi then Raised("ValueError") else Ok((lo, hi))
  }

  /** Round counts drawn between the resolved bounds are a legal configuration. */
  lemma ResolvedRoundsOk(cfg: Config, minRounds: int, maxRounds: int, numRounds: int)
    requires ResolveRounds(minRounds, maxRounds, numRounds).Ok?
    requires var (lo, hi) := ResolveRounds(minRounds, maxRounds, numRounds).value;
             cfg.maxRounds == hi && forall c :: 0 <= c < |cfg.total| ==> lo <= cfg.total[c] <= hi
    ensures ConfigOk(cfg)
  {
    var (lo, hi) := ResolveRounds(minRounds, maxRounds, numRounds).value;
    assert 1 <= lo;
  }

  class Generator {
    const cfg: Config
    var readyQueue: seq<Request>
    var sentRequests: nat
    var completedRequests: nat
    var clientRecords: seq<Client>
    var subQuestionInputs: seq<seq<Item>>
    var responseQueue: seq<Response>
    var tasks: seq<Request>
    // locals of the response handler and the sender loop
    var handler: Handler
    var nextRoundReqs: seq<Request>
    var currentBarrierRound: nat
    var barrierRoundCompleted: nat
    var passed: bool
    // bookkeeping for the specification
    ghost var failures: nat
    ghost var place: seq<Place>
    ghost var turns: seq<seq<Turn>>

    ghost function View(): State
      reads this
    {
      State(readyQueue, passed, tasks, responseQueue, handler, nextRoundReqs, sentRequests, completedRequests, failures,
            subQuestionInputs, clientRecords, currentBarrierRound, barrierRoundCompleted, place, turns)
    }

    /** What holds in every reachable state. */
    ghost predicate Valid()
      reads this
    {
      Inv(cfg, View())
    }

    /** One request per client, built from the client's first prompt. */
    constructor (cfg: Config, inputs: seq<seq<Item>>, subQuestions: seq<seq<Item>>)
      requires ConfigOk(cfg) && |inputs| == |cfg.total| && |subQuestions| >= SubQuestions(cfg.total)
      requires cfg.nonEmpty ==> forall i :: 0 <= i < |subQuestions| ==> subQuestions[i] != []
      ensures this.cfg == cfg && Init(cfg, View()) && Valid()
    {
      this.cfg := cfg;
      readyQueue := seq(|inputs|, i requires 0 <= i < |inputs| => Request(i, inputs[i]));
      clientRecords := seq(|inputs|, i requires 0 <= i < |inputs| => Client(0, inputs[i]));
      place := seq(|inputs|, i => InReady);
      turns := seq(|inputs|, i => []);
      sentRequests, completedRequests, failures := 0, 0, 0;
      subQuestionInputs := subQuestions;
      responseQueue, tasks, nextRoundReqs := [], [], [];
      handler, passed := Waiting, false;
      currentBarrierRound, barrierRoundCompleted := 0, 0;
      new;
      InitInv(cfg, View());
    }

    /** Sender: the guard of the loop body. */
    method CheckParallelism() returns (go: bool)
      requires Sized(cfg, View()) && !passed
      modifies this`passed
      ensures go == (old(sentRequests) - old(completedRequests) < cfg.maxParallel)
      ensures View() == old(View()).(passed := go)
    {
      if sentRequests - completedRequests < cfg.maxParallel {
        passed := true;
        return true;
      }
      return false;
    }

    /** Sender: pop a request by the queue's policy and start its task.  `choice` is the index
        that the random policy draws; the fifo policy takes 0. */
    method SendNext(choice: nat)
      requires Sized(cfg, View()) && passed && (readyQueue != [] ==> choice < |readyQueue|)
      modifies this
      ensures View() == if old(readyQueue) == [] then old(View()).(passed := false) else DoPop(old(View()), choice)
    {
      passed := false;
      if readyQueue == [] {
        return;
      }
      var req := readyQueue[choice];
      readyQueue := RemoveAt(readyQueue, choice);
      tasks := tasks + [req];
      sentRequests := sentRequests + 1;
      place := place[req.client := InFlight];
    }

    /** handle_request: a task ends with a response or an exception; either way one response
        is queued. */
    method FinishTask(k: nat, success: bool, output: seq<Item>)
      requires Sized(cfg, View()) && k < |tasks|
      modifies this
      ensures View() == DoFinish(old(View()), k, success, output)
    {
      var req := tasks[k];
      tasks := RemoveAt(tasks, k);
      responseQueue := responseQueue + [Response(req.client, req.prompt, success, output)];
      place := place[req.client := InResponses];
    }

    /** Handler: response_queue.get(). */
    method GetResponse()
      requires Sized(cfg, View()) && handler.Waiting? && responseQueue != []
      modifies this
      ensures View() == DoGet(old(View()))
    {
      handler := Holding(responseQueue[0]);
      place := place[responseQueue[0].client := Held];
      responseQueue := responseQueue[1..];
    }

    /** Handler: count a failed response, or record a successful one. */
    method HandleResponse()
      requires Sized(cfg, View()) && handler.Holding? && !DoHandle(cfg, View()).handler.Crashed?
      modifies this
      ensures View() == DoHandle(cfg, old(View()))
    {
      if handler.response.success {
        RecordAnswer();
      } else {
        completedRequests := completedRequests + 1;
        place := place[handler.response.client := Failed];
        handler := Waiting;
        failures := failures + 1;
      }
    }

    /** A successful response extends the history and the round of its client. */
    method RecordAnswer()
      requires Sized(cfg, View()) && handler.Holding? && !DoHandle(cfg, View()).handler.Crashed?
      requires handler.response.success
      modifies this`turns, this`place, this`clientRecords, this`completedRequests, this`handler
      ensures View() == DoHandle(cfg, old(View()))
    {
      var response := handler.response;
      var c := response.client;
      var cl := clientRecords[c];
      turns := turns[c := turns[c] + [Turn(response.prompt, response.output)]];
      place := place[c := Answered];
      clientRecords := clientRecords[c := Client(cl.round + 1, cl.history + response.output)];
      completedRequests := completedRequests + 1;
      handler := Requeueing(c);
    }

    /** The client's next request, if it has a round left. */
    method BuildNextRequest(c: nat)
      requires Sized(cfg, View()) && c < |cfg.total|
      requires clientRecords[c].round < cfg.total[c] ==> subQuestionInputs != []
      modifies this`subQuestionInputs, this`clientRecords, this`nextRoundReqs, this`readyQueue, this`place
      ensures View() == NextRequest(cfg, old(View()), c)
    {
      if clientRecords[c].round < cfg.total[c] {
        var subQ := subQuestionInputs[|subQuestionInputs| - 1];
        subQuestionInputs := subQuestionInputs[..|subQuestionInputs| - 1];
        clientRecords := clientRecords[c := Client(clientRecords[c].round, clientRecords[c].history + subQ)];
        var newReq := Request(c, clientRecords[c].history);
        if cfg.barrier {
          nextRoundReqs := nextRoundReqs + [newReq];
          place := place[c := Buffered];
        } else {
          readyQueue := readyQueue + [newReq];
          place := place[c := InReady];
        }
      } else {
        place := place[c := Finished];
      }
    }

    /** The barrier logic at the end of the handler's loop body. */
    method CountResponse()
      requires !handler.Crashed?
      modifies this`barrierRoundCompleted, this`handler
      ensures View() == CountBarrier(cfg, old(View()))
    {
      handler := Waiting;
      if cfg.barrier && currentBarrierRound < cfg.maxRounds {
        barrierRoundCompleted := barrierRoundCompleted + 1;
        var expected := ClientsPerRound(cfg)[currentBarrierRound];
        if barrierRoundCompleted == expected {
          handler := Releasing(0);
        }
      }
    }

    /** Handler: the client's next request, then the barrier count. */
    method RequeueClient()
      requires Sized(cfg, View()) && handler.Requeueing? && !DoRequeue(cfg, View()).handler.Crashed?
      modifies this
      ensures View() == DoRequeue(cfg, old(View()))
    {
      BuildNextRequest(handler.client);
      CountResponse();
    }

    /** Handler: one turn of the loop that moves the buffered requests, or its end. */
    method ReleaseNext()
      requires Sized(cfg, View()) && handler.Releasing?
      modifies this
      ensures View() == DoRelease(old(View()))
    {
      var i := handler.next;
      if i < |nextRoundReqs| {
        readyQueue := readyQueue + [nextRoundReqs[i]];
        place := place[nextRoundReqs[i].client := InReady];
        handler := Releasing(i + 1);
      } else {
        nextRoundReqs := [];
        currentBarrierRound := currentBarrierRound + 1;
        barrierRoundCompleted := 0;
        handler := Waiting;
      }
    }

    /** One turn of whichever thread the scheduler picks: any enabled step is carried out by the
        methods above, never crashes the handler, and keeps the object valid. */
    method TakeTurn(e: Event)
      requires Valid() && Enabled(cfg, View(), e)
      modifies this
      ensures Valid() && View() == Step(cfg, old(View()), e)
    {
      StepInv(cfg, View(), e);
      match e
      case Check => var go := CheckParallelism();
      case PopNone => SendNext(0);
      case Pop(i) => SendNext(i);
      case Finish(k, success, output) => FinishTask(k, success, output);
      case Get => GetResponse();
      case Handle => HandleResponse();
      case Requeue => RequeueClient();
      case Release => ReleaseNext();
    }
  }
}
