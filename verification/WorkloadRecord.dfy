/** What the load generator records, in terms of what happened: turns, failures and histories
    follow from the responses that the tasks delivered and the sub-questions that were drawn. */
module WorkloadRecord {
  import opened Base
  import opened WorkloadModel
  import opened WorkloadInvariant
  import opened WorkloadBarrier
  import opened WorkloadTheorems

  /** What the tasks have delivered in the first n steps, oldest first. */
  ghost function Delivered(states: seq<State>, events: seq<Event>, n: nat): seq<Response>
    requires n <= |events| < |states|
  {
    if n == 0 then []
    else
      var before, e := Delivered(states, events, n - 1), events[n - 1];
      if e.Finish? && e.k < |states[n - 1].inFlight| then
        var req := states[n - 1].inFlight[e.k];
        before + [Response(req.client, req.prompt, e.success, e.output)]
      else before
  }

  /** The number of responses handled in the first n steps. */
  function Handled(events: seq<Event>, n: nat): nat
    requires n <= |events|
  {
    if n == 0 then 0 else Handled(events, n - 1) + if events[n - 1].Handle? then 1 else 0
  }

  /** The successful responses of a client, as turns. */
  function TurnsOf(rs: seq<Response>, c: nat): seq<Turn> {
    if rs == [] then []
    else
      var r := rs[|rs| - 1];
      TurnsOf(rs[..|rs| - 1], c) + if r.success && r.client == c then [Turn(r.prompt, r.output)] else []
  }

  function FailuresIn(rs: seq<Response>): nat {
    if rs == [] then 0 else FailuresIn(rs[..|rs| - 1]) + if rs[|rs| - 1].success then 0 else 1
  }

  lemma TurnsOfOne(rs: seq<Response>, r: Response, c: nat)
    ensures TurnsOf(rs + [r], c)
         == TurnsOf(rs, c) + if r.success && r.client == c then [Turn(r.prompt, r.output)] else []
    ensures FailuresIn(rs + [r]) == FailuresIn(rs) + if r.success then 0 else 1
  {
    assert (rs + [r])[..|rs|] == rs;
  }

  // ----- the responses on their way -----

  /** The response in the handler's hands and those in the queue. */
  ghost function OnTheWay(s: State): seq<Response> {
    (if s.handler.Holding? then [s.handler.response] else []) + s.responses
  }

  /** `done` are the responses handled so far. */
  ghost predicate Recorded(s: State, done: seq<Response>) {
    && s.completed == |done| && s.failures == FailuresIn(done)
    && (forall c :: 0 <= c < |s.turns| ==> s.turns[c] == TurnsOf(done, c))
    && (s.handler.Requeueing? ==> done != [] && done[|done| - 1].success && done[|done| - 1].client == s.handler.client)
  }

  lemma HandleRecords(cfg: Config, s: State, done: seq<Response>)
    requires Sized(cfg, s) && s.handler.Holding? && Recorded(s, done) && !DoHandle(cfg, s).handler.Crashed?
    ensures Recorded(DoHandle(cfg, s), done + [s.handler.response])
  {
    var s', r := DoHandle(cfg, s), s.handler.response;
    forall c | 0 <= c < |s'.turns|
      ensures s'.turns[c] == TurnsOf(done + [r], c)
    {
      TurnsOfOne(done, r, c);
    }
    TurnsOfOne(done, r, 0);
  }

  lemma RequeueRecords(cfg: Config, s: State, done: seq<Response>)
    requires Sized(cfg, s) && s.handler.Requeueing? && Recorded(s, done)
    ensures Recorded(DoRequeue(cfg, s), done) && OnTheWay(DoRequeue(cfg, s)) == OnTheWay(s)
  {
  }

  lemma ReleaseRecords(cfg: Config, s: State, done: seq<Response>)
    requires Sized(cfg, s) && s.handler.Releasing? && Recorded(s, done)
    ensures Recorded(DoRelease(s), done) && OnTheWay(DoRelease(s)) == OnTheWay(s)
  {
  }

  /** Delivered responses wait in order: what is handled, what is on the way, nothing else. */
  ghost predicate InOrder(s: State, delivered: seq<Response>, h: nat) {
    h <= |delivered| && OnTheWay(s) == delivered[h..] && Recorded(s, delivered[..h])
  }

  lemma FinishInOrder(cfg: Config, s: State, k: nat, success: bool, output: seq<Item>, delivered: seq<Response>, h: nat)
    requires Sized(cfg, s) && k < |s.inFlight| && InOrder(s, delivered, h)
    ensures var r := Response(s.inFlight[k].client, s.inFlight[k].prompt, success, output);
            InOrder(DoFinish(s, k, success, output), delivered + [r], h)
  {
    var r := Response(s.inFlight[k].client, s.inFlight[k].prompt, success, output);
    var s' := DoFinish(s, k, success, output);
    assert (delivered + [r])[..h] == delivered[..h];
    assert (delivered + [r])[h..] == delivered[h..] + [r];
    assert OnTheWay(s') == OnTheWay(s) + [r];
  }

  lemma HandleInOrder(cfg: Config, s: State, delivered: seq<Response>, h: nat)
    requires Sized(cfg, s) && s.handler.Holding? && InOrder(s, delivered, h) && !DoHandle(cfg, s).handler.Crashed?
    ensures h < |delivered| && delivered[h] == s.handler.response && InOrder(DoHandle(cfg, s), delivered, h + 1)
  {
    var r := s.handler.response;
    assert OnTheWay(s)[0] == r && delivered[h..][0] == r;
    assert OnTheWay(s)[1..] == s.responses;
    HandleRecords(cfg, s, delivered[..h]);
    assert delivered[..h] + [r] == delivered[..h + 1];
  }

  lemma StepInOrder(cfg: Config, s: State, e: Event, delivered: seq<Response>, h: nat)
    requires Sized(cfg, s) && Enabled(cfg, s, e) && InOrder(s, delivered, h) && !Step(cfg, s, e).handler.Crashed?
    ensures var now := if e.Finish? then
                         delivered + [Response(s.inFlight[e.k].client, s.inFlight[e.k].prompt, e.success, e.output)]
                       else delivered;
            InOrder(Step(cfg, s, e), now, if e.Handle? then h + 1 else h)
  {
    match e
    case Finish(k, success, output) => FinishInOrder(cfg, s, k, success, output, delivered, h);
    case Handle => HandleInOrder(cfg, s, delivered, h);
    case Requeue => RequeueRecords(cfg, s, delivered[..h]);
    case Release => ReleaseRecords(cfg, s, delivered[..h]);
    case _ =>
  }

  /** A client has been answered as often as its round says. */
  ghost predicate RoundsRecorded(cfg: Config, s: State) {
    && |s.clients| == |s.turns| == |cfg.total|
    && forall c {:trigger s.turns[c]} :: 0 <= c < |s.turns| ==> s.clients[c].round == |s.turns[c]|
  }

  /** Step n of a run that never crashes. */
  ghost predicate StepsTo(cfg: Config, states: seq<State>, events: seq<Event>, n: nat)
    requires n < |events| < |states|
  {
    && Sized(cfg, states[n]) && Enabled(cfg, states[n], events[n]) && RoundsRecorded(cfg, states[n])
    && states[n + 1] == Step(cfg, states[n], events[n])
    && Sized(cfg, states[n + 1]) && !states[n + 1].handler.Crashed?
  }

  /** A run, step by step. */
  ghost predicate Runs(cfg: Config, states: seq<State>, events: seq<Event>) {
    && |states| == |events| + 1 && Init(cfg, states[0])
    && forall n: nat {:trigger StepsTo(cfg, states, events, n)} :: n < |events| ==> StepsTo(cfg, states, events, n)
  }

  lemma InvRecorded(cfg: Config, s: State)
    requires Inv(cfg, s)
    ensures Sized(cfg, s) && !s.handler.Crashed? && RoundsRecorded(cfg, s)
  {
    forall c | 0 <= c < |s.turns|
      ensures s.clients[c].round == |s.turns[c]|
    {
      assert TurnsFit(cfg, s.turns[c], s.clients[c], s.place[c]);
    }
  }

  lemma BehaviourState(cfg: Config, states: seq<State>, events: seq<Event>, n: nat)
    requires Behaviour(cfg, states, events) && n <= |events|
    ensures Sized(cfg, states[n]) && !states[n].handler.Crashed? && RoundsRecorded(cfg, states[n])
  {
    Always(cfg, states, events, n);
    InvRecorded(cfg, states[n]);
  }

  lemma BehaviourStep(cfg: Config, states: seq<State>, events: seq<Event>, n: nat)
    requires Behaviour(cfg, states, events) && n < |events|
    ensures StepsTo(cfg, states, events, n)
  {
    BehaviourState(cfg, states, events, n);
    BehaviourState(cfg, states, events, n + 1);
    assert states[n + 1] == Step(cfg, states[n], events[n]);
  }

  lemma BehaviourRuns(cfg: Config, states: seq<State>, events: seq<Event>)
    requires Behaviour(cfg, states, events)
    ensures Runs(cfg, states, events)
  {
    forall n: nat | n < |events|
      ensures StepsTo(cfg, states, events, n)
    {
      BehaviourStep(cfg, states, events, n);
    }
  }

  lemma RunStep(cfg: Config, states: seq<State>, events: seq<Event>, n: nat)
    requires Runs(cfg, states, events) && n < |events|
    ensures Sized(cfg, states[n]) && Enabled(cfg, states[n], events[n]) && Sized(cfg, states[n + 1])
    ensures states[n + 1] == Step(cfg, states[n], events[n]) && !states[n + 1].handler.Crashed?
  {
    assert StepsTo(cfg, states, events, n);
  }

  lemma InitInOrder(cfg: Config, s: State)
    requires Init(cfg, s)
    ensures InOrder(s, [], 0)
  {
  }

  lemma OneInOrder(cfg: Config, states: seq<State>, events: seq<Event>, n: nat)
    requires Runs(cfg, states, events) && n < |events|
    requires InOrder(states[n], Delivered(states, events, n), Handled(events, n))
    ensures InOrder(states[n + 1], Delivered(states, events, n + 1), Handled(events, n + 1))
  {
    RunStep(cfg, states, events, n);
    StepInOrder(cfg, states[n], events[n], Delivered(states, events, n), Handled(events, n));
  }

  lemma {:induction false} RunInOrder(cfg: Config, states: seq<State>, events: seq<Event>, n: nat)
    requires Runs(cfg, states, events) && n <= |events|
    ensures InOrder(states[n], Delivered(states, events, n), Handled(events, n))
  {
    if n == 0 {
      InitInOrder(cfg, states[0]);
    } else {
      RunInOrder(cfg, states, events, n - 1);
      OneInOrder(cfg, states, events, n - 1);
    }
  }

  /** Every run: the turns of a client are its successful responses among those handled, each with
      the prompt that was sent and the output that the task delivered, in the order of delivery;
      the failures are the others. */
  lemma TurnsAreDelivered(cfg: Config, states: seq<State>, events: seq<Event>, n: nat, c: nat)
    requires Behaviour(cfg, states, events) && n <= |events| && c < |cfg.total|
    ensures var d, h := Delivered(states, events, n), Handled(events, n);
            && h <= |d| && states[n].completed == h && states[n].failures == FailuresIn(d[..h])
            && c < |states[n].turns| && states[n].turns[c] == TurnsOf(d[..h], c)
  {
    BehaviourRuns(cfg, states, events);
    RunInOrder(cfg, states, events, n);
    Always(cfg, states, events, n);
  }

  // ----- sub-questions and histories -----

  /** The client whose next request is built in step n: it was answered last and has a round left. */
  ghost function Builds(cfg: Config, states: seq<State>, events: seq<Event>, n: nat): Option<nat>
    requires n < |events| < |states|
  {
    var d, h := Delivered(states, events, n), Handled(events, n);
    if events[n].Requeue? && 0 < h <= |d| && d[h - 1].client < |cfg.total|
       && |TurnsOf(d[..h], d[h - 1].client)| < cfg.total[d[h - 1].client]
    then Some(d[h - 1].client) else None
  }

  /** The number of requests built in the first n steps. */
  ghost function Built(cfg: Config, states: seq<State>, events: seq<Event>, n: nat): nat
    requires n <= |events| < |states|
  {
    if n == 0 then 0
    else Built(cfg, states, events, n - 1) + if Builds(cfg, states, events, n - 1).Some? then 1 else 0
  }

  /** The sub-question for a request built in step n: the last one that was not used before. */
  ghost function SubQuestionAt(cfg: Config, states: seq<State>, events: seq<Event>, n: nat): int
    requires n < |events| < |states|
  {
    |states[0].pool| - 1 - Built(cfg, states, events, n)
  }

  lemma TurnsCount(cfg: Config, states: seq<State>, events: seq<Event>, n: nat, c: nat)
    requires Runs(cfg, states, events) && n < |events| && c < |cfg.total|
    ensures |states[n].clients| == |states[n].turns| == |cfg.total|
    ensures states[n].clients[c].round == |states[n].turns[c]|
  {
    assert StepsTo(cfg, states, events, n);
  }

  lemma BuildsWhom(cfg: Config, states: seq<State>, events: seq<Event>, n: nat)
    requires Runs(cfg, states, events) && n < |events|
    ensures |states[n].clients| == |cfg.total|
    ensures Builds(cfg, states, events, n)
         == if events[n].Requeue? && Pending(cfg, states[n]) == 1 then Some(states[n].handler.client) else None
  {
    RunStep(cfg, states, events, n);
    RunInOrder(cfg, states, events, n);
    if states[n].handler.Requeueing? {
      TurnsCount(cfg, states, events, n, states[n].handler.client);
    }
  }

  /** Only a request that is built takes a sub-question from the pool. */
  lemma StepPool(cfg: Config, s: State, e: Event)
    requires Sized(cfg, s) && Enabled(cfg, s, e) && !Step(cfg, s, e).handler.Crashed?
    ensures if e.Requeue? && Pending(cfg, s) == 1 then s.pool != [] && Step(cfg, s, e).pool == s.pool[..|s.pool| - 1]
            else Step(cfg, s, e).pool == s.pool
  {
  }

  lemma BuiltStep(cfg: Config, states: seq<State>, events: seq<Event>, n: nat)
    requires Runs(cfg, states, events) && n < |events|
    ensures if Builds(cfg, states, events, n).Some? then
              states[n].pool != [] && states[n + 1].pool == states[n].pool[..|states[n].pool| - 1]
            else states[n + 1].pool == states[n].pool
    ensures Built(cfg, states, events, n + 1)
         == Built(cfg, states, events, n) + if Builds(cfg, states, events, n).Some? then 1 else 0
  {
    RunStep(cfg, states, events, n);
    BuildsWhom(cfg, states, events, n);
    StepPool(cfg, states[n], events[n]);
  }

  /** `used` sub-questions have been taken from the end of the pool. */
  ghost predicate PoolIs(pool: seq<seq<Item>>, all: seq<seq<Item>>, used: nat) {
    used <= |all| && pool == all[..|all| - used]
  }

  lemma PoolStep(pool: seq<seq<Item>>, pool': seq<seq<Item>>, all: seq<seq<Item>>, used: nat, takes: bool)
    requires PoolIs(pool, all, used)
    requires if takes then pool != [] && pool' == pool[..|pool| - 1] else pool' == pool
    ensures PoolIs(pool', all, if takes then used + 1 else used)
  {
  }

  lemma {:induction false} PoolLeft(cfg: Config, states: seq<State>, events: seq<Event>, n: nat)
    requires Runs(cfg, states, events) && n <= |events|
    ensures PoolIs(states[n].pool, states[0].pool, Built(cfg, states, events, n))
  {
    if n > 0 {
      PoolLeft(cfg, states, events, n - 1);
      BuiltStep(cfg, states, events, n - 1);
      PoolStep(states[n - 1].pool, states[n].pool, states[0].pool, Built(cfg, states, events, n - 1),
               Builds(cfg, states, events, n - 1).Some?);
    }
  }

  lemma {:induction false} BuiltGrows(cfg: Config, states: seq<State>, events: seq<Event>, m: nat, n: nat)
    requires m <= n <= |events| < |states|
    ensures Built(cfg, states, events, m) <= Built(cfg, states, events, n)
  {
    if m < n {
      BuiltGrows(cfg, states, events, m, n - 1);
    }
  }

  lemma InPool(cfg: Config, states: seq<State>, events: seq<Event>, n: nat)
    requires Runs(cfg, states, events) && n < |events| && Builds(cfg, states, events, n).Some?
    ensures 0 <= SubQuestionAt(cfg, states, events, n) < |states[0].pool|
  {
    BuiltStep(cfg, states, events, n);
    PoolLeft(cfg, states, events, n);
  }

  lemma Decreasing(cfg: Config, states: seq<State>, events: seq<Event>, m: nat, n: nat)
    requires m < n < |events| < |states| && Builds(cfg, states, events, m).Some?
    ensures SubQuestionAt(cfg, states, events, n) < SubQuestionAt(cfg, states, events, m)
  {
    BuiltGrows(cfg, states, events, m + 1, n);
  }

  /** Every request that is built uses a sub-question of the pool, and no two use the same. */
  lemma SubQuestionsOnce(cfg: Config, states: seq<State>, events: seq<Event>, m: nat, n: nat)
    requires Behaviour(cfg, states, events) && m < n < |events|
    requires Builds(cfg, states, events, m).Some? && Builds(cfg, states, events, n).Some?
    ensures 0 <= SubQuestionAt(cfg, states, events, n) < SubQuestionAt(cfg, states, events, m) < |states[0].pool|
  {
    BehaviourRuns(cfg, states, events);
    InPool(cfg, states, events, m);
    InPool(cfg, states, events, n);
    Decreasing(cfg, states, events, m, n);
  }

  /** What client c has been told and has answered in the first n steps: its first prompt, then
      for each of its turns the output that was delivered and the sub-question that was drawn. */
  ghost function Chat(cfg: Config, states: seq<State>, events: seq<Event>, n: nat, c: nat): seq<Item>
    requires n <= |events| < |states| && c < |states[0].clients|
  {
    if n == 0 then states[0].clients[c].history
    else Chat(cfg, states, events, n - 1, c) + Said(cfg, states, events, n - 1, c)
  }

  /** What step n adds to the chat of client c. */
  ghost function Said(cfg: Config, states: seq<State>, events: seq<Event>, n: nat, c: nat): seq<Item>
    requires n < |events| < |states|
  {
    var d, h, i := Delivered(states, events, n), Handled(events, n), SubQuestionAt(cfg, states, events, n);
    if events[n].Handle? && h < |d| && d[h].client == c && d[h].success then d[h].output
    else if Builds(cfg, states, events, n) == Some(c) && 0 <= i < |states[0].pool| then states[0].pool[i]
    else []
  }

  lemma HandleHistory(cfg: Config, s: State, c: nat)
    requires Sized(cfg, s) && s.handler.Holding? && !DoHandle(cfg, s).handler.Crashed? && c < |cfg.total|
    ensures var r, s' := s.handler.response, DoHandle(cfg, s);
            && |s'.clients| == |cfg.total|
            && s'.clients[c].history == s.clients[c].history + if r.success && r.client == c then r.output else []
  {
  }

  lemma RequeueHistory(cfg: Config, s: State, c: nat)
    requires Sized(cfg, s) && s.handler.Requeueing? && !DoRequeue(cfg, s).handler.Crashed? && c < |cfg.total|
    ensures var s' := DoRequeue(cfg, s);
            && |s'.clients| == |cfg.total|
            && s'.clients[c].history
            == s.clients[c].history
               + if Pending(cfg, s) == 1 && s.handler.client == c && s.pool != [] then s.pool[|s.pool| - 1] else []
  {
  }

  lemma OtherHistory(cfg: Config, s: State, e: Event)
    requires Sized(cfg, s) && Enabled(cfg, s, e) && !e.Handle? && !e.Requeue?
    ensures Step(cfg, s, e).clients == s.clients
  {
  }

  lemma SaidByHandle(cfg: Config, states: seq<State>, events: seq<Event>, n: nat, c: nat)
    requires Runs(cfg, states, events) && n < |events| && c < |cfg.total| && events[n].Handle?
    requires Sized(cfg, states[n]) && Sized(cfg, states[n + 1])
    ensures states[n + 1].clients[c].history == states[n].clients[c].history + Said(cfg, states, events, n, c)
  {
    RunStep(cfg, states, events, n);
    RunInOrder(cfg, states, events, n);
    HandleInOrder(cfg, states[n], Delivered(states, events, n), Handled(events, n));
    HandleHistory(cfg, states[n], c);
  }

  lemma SaidByRequeue(cfg: Config, states: seq<State>, events: seq<Event>, n: nat, c: nat)
    requires Runs(cfg, states, events) && n < |events| && c < |cfg.total| && events[n].Requeue?
    requires Sized(cfg, states[n]) && Sized(cfg, states[n + 1])
    ensures states[n + 1].clients[c].history == states[n].clients[c].history + Said(cfg, states, events, n, c)
  {
    RunStep(cfg, states, events, n);
    BuildsWhom(cfg, states, events, n);
    BuiltStep(cfg, states, events, n);
    PoolLeft(cfg, states, events, n);
    RequeueHistory(cfg, states[n], c);
  }

  lemma StepSaid(cfg: Config, states: seq<State>, events: seq<Event>, n: nat, c: nat)
    requires Runs(cfg, states, events) && n < |events| && c < |cfg.total|
    requires Sized(cfg, states[n]) && Sized(cfg, states[n + 1])
    ensures states[n + 1].clients[c].history == states[n].clients[c].history + Said(cfg, states, events, n, c)
  {
    if events[n].Handle? {
      SaidByHandle(cfg, states, events, n, c);
    } else if events[n].Requeue? {
      SaidByRequeue(cfg, states, events, n, c);
    } else {
      RunStep(cfg, states, events, n);
      OtherHistory(cfg, states[n], events[n]);
    }
  }

  /** A step adds the same to the history and to the chat. */
  lemma StepChat(cfg: Config, states: seq<State>, events: seq<Event>, n: nat, c: nat) returns (said: seq<Item>)
    requires Runs(cfg, states, events) && n < |events| && c < |cfg.total|
    ensures |states[0].clients| == |states[n].clients| == |states[n + 1].clients| == |cfg.total|
    ensures states[n + 1].clients[c].history == states[n].clients[c].history + said
    ensures Chat(cfg, states, events, n + 1, c) == Chat(cfg, states, events, n, c) + said
  {
    RunStep(cfg, states, events, n);
    StepSaid(cfg, states, events, n, c);
    said := Said(cfg, states, events, n, c);
  }

  ghost predicate ChatIs(cfg: Config, states: seq<State>, events: seq<Event>, n: nat, c: nat)
    requires n <= |events| < |states|
  {
    && c < |states[n].clients| && c < |states[0].clients|
    && states[n].clients[c].history == Chat(cfg, states, events, n, c)
  }

  lemma ChatNext(cfg: Config, states: seq<State>, events: seq<Event>, n: nat, c: nat)
    requires Runs(cfg, states, events) && n < |events| && c < |cfg.total| && ChatIs(cfg, states, events, n, c)
    ensures ChatIs(cfg, states, events, n + 1, c)
  {
    var said := StepChat(cfg, states, events, n, c);
  }

  lemma {:induction false} RunIsChat(cfg: Config, states: seq<State>, events: seq<Event>, n: nat, c: nat)
    requires Runs(cfg, states, events) && n <= |events| && c < |cfg.total|
    ensures ChatIs(cfg, states, events, n, c)
  {
    if n > 0 {
      RunIsChat(cfg, states, events, n - 1, c);
      ChatNext(cfg, states, events, n - 1, c);
    }
  }

  /** Every run: the history of a client is its chat. With `PendingPayloadsCurrent` this says what
      every prompt is: the first prompt, then output and sub-question of each earlier turn. */
  lemma HistoryIsChat(cfg: Config, states: seq<State>, events: seq<Event>, n: nat, c: nat)
    requires Behaviour(cfg, states, events) && n <= |events| && c < |cfg.total|
    ensures c < |states[n].clients| && c < |states[0].clients|
    ensures states[n].clients[c].history == Chat(cfg, states, events, n, c)
  {
    BehaviourRuns(cfg, states, events);
    RunIsChat(cfg, states, events, n, c);
  }

  /** A request that is sent carries the chat of its client. */
  lemma SentIsChat(cfg: Config, states: seq<State>, events: seq<Event>, n: nat, i: nat)
    requires Behaviour(cfg, states, events) && n <= |events| && i < |states[n].inFlight|
    ensures var req := states[n].inFlight[i];
            req.client < |cfg.total| && req.prompt == Chat(cfg, states, events, n, req.client)
  {
    Always(cfg, states, events, n);
    PendingPayloadsCurrent(cfg, states, events, n);
    HistoryIsChat(cfg, states, events, n, states[n].inFlight[i].client);
  }

  // ----- the limit -----

  /** The sender finds the limit reached exactly when max_parallel responses are outstanding: in
      flight, queued or held. */
  lemma LimitReached(cfg: Config, states: seq<State>, events: seq<Event>, n: nat)
    requires Behaviour(cfg, states, events) && n <= |events| && !states[n].passed
    ensures !Enabled(cfg, states[n], Check) <==> |states[n].inFlight| + |OnTheWay(states[n])| == cfg.maxParallel
  {
    Always(cfg, states, events, n);
  }
}
