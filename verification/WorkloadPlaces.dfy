/** Each client's request is in at most one place, in every reachable state. */
module WorkloadPlaces {
  import opened Queueing
  import opened WorkloadModel

  function ReqIds(q: seq<Request>): (ids: seq<nat>)
    ensures |ids| == |q| && forall i {:trigger ids[i]} :: 0 <= i < |q| ==> ids[i] == q[i].client
  {
    seq(|q|, i requires 0 <= i < |q| => q[i].client)
  }

  function RespIds(q: seq<Response>): (ids: seq<nat>)
    ensures |ids| == |q| && forall i {:trigger ids[i]} :: 0 <= i < |q| ==> ids[i] == q[i].client
  {
    seq(|q|, i requires 0 <= i < |q| => q[i].client)
  }

  /** Buffered requests not yet moved to the ready queue. */
  function Unreleased(s: State): seq<Request> {
    if s.handler.Releasing? && s.handler.next <= |s.buffer| then s.buffer[s.handler.next..] else s.buffer
  }

  function HeldIds(s: State): seq<nat> {
    if s.handler.Holding? then [s.handler.response.client] else []
  }

  function AnsweredIds(s: State): seq<nat> {
    if s.handler.Requeueing? then [s.handler.client] else []
  }

  /** The client ids in each place, as the queues list them. */
  datatype Queues = Queues(
    ready: seq<nat>,
    inFlight: seq<nat>,
    responses: seq<nat>,
    held: seq<nat>,
    answered: seq<nat>,
    buffered: seq<nat>)

  function QueuesOf(s: State): Queues {
    Queues(ReqIds(s.ready), ReqIds(s.inFlight), RespIds(s.responses), HeldIds(s), AnsweredIds(s), ReqIds(Unreleased(s)))
  }

  ghost predicate AllLocated(q: Queues, place: seq<Place>) {
    && Located(q.ready, place, InReady)
    && Located(q.inFlight, place, InFlight)
    && Located(q.responses, place, InResponses)
    && Located(q.held, place, Held)
    && Located(q.answered, place, Answered)
    && Located(q.buffered, place, Buffered)
  }

  /** At most one outstanding request per client: every queue position belongs to another
      client, and the queues share no client. */
  ghost predicate PlacesOk(s: State) {
    AllLocated(QueuesOf(s), s.place)
  }

  /** Moving client c to p leaves the queues alone that it neither leaves nor joins. */
  lemma OthersKeep(q: Queues, place: seq<Place>, c: nat, p: Place)
    requires AllLocated(q, place) && c < |place|
    ensures place[c] != InReady && p != InReady ==> Located(q.ready, place[c := p], InReady)
    ensures place[c] != InFlight && p != InFlight ==> Located(q.inFlight, place[c := p], InFlight)
    ensures place[c] != InResponses && p != InResponses ==> Located(q.responses, place[c := p], InResponses)
    ensures place[c] != Held && p != Held ==> Located(q.held, place[c := p], Held)
    ensures place[c] != Answered && p != Answered ==> Located(q.answered, place[c := p], Answered)
    ensures place[c] != Buffered && p != Buffered ==> Located(q.buffered, place[c := p], Buffered)
  {
    if place[c] != InReady && p != InReady { LocatedOther(q.ready, place, InReady, c, p); }
    if place[c] != InFlight && p != InFlight { LocatedOther(q.inFlight, place, InFlight, c, p); }
    if place[c] != InResponses && p != InResponses { LocatedOther(q.responses, place, InResponses, c, p); }
    if place[c] != Held && p != Held { LocatedOther(q.held, place, Held, c, p); }
    if place[c] != Answered && p != Answered { LocatedOther(q.answered, place, Answered, c, p); }
    if place[c] != Buffered && p != Buffered { LocatedOther(q.buffered, place, Buffered, c, p); }
  }

  lemma MovePop(q: Queues, place: seq<Place>, i: nat)
    requires AllLocated(q, place) && i < |q.ready|
    ensures AllLocated(q.(ready := RemoveAt(q.ready, i), inFlight := q.inFlight + [q.ready[i]]),
                       place[q.ready[i] := InFlight])
  {
    LocatedMove(q.ready, q.inFlight, place, InReady, InFlight, i);
    OthersKeep(q, place, q.ready[i], InFlight);
  }

  lemma MoveFinish(q: Queues, place: seq<Place>, k: nat)
    requires AllLocated(q, place) && k < |q.inFlight|
    ensures AllLocated(q.(inFlight := RemoveAt(q.inFlight, k), responses := q.responses + [q.inFlight[k]]),
                       place[q.inFlight[k] := InResponses])
  {
    LocatedMove(q.inFlight, q.responses, place, InFlight, InResponses, k);
    OthersKeep(q, place, q.inFlight[k], InResponses);
  }

  lemma MoveGet(q: Queues, place: seq<Place>)
    requires AllLocated(q, place) && q.responses != [] && q.held == []
    ensures AllLocated(q.(responses := q.responses[1..], held := [q.responses[0]]), place[q.responses[0] := Held])
  {
    LocatedMove(q.responses, q.held, place, InResponses, Held, 0);
    OthersKeep(q, place, q.responses[0], Held);
    assert RemoveAt(q.responses, 0) == q.responses[1..];
  }

  lemma MoveFail(q: Queues, place: seq<Place>, c: nat)
    requires c < |place| && AllLocated(q, place) && q.held == [c]
    ensures AllLocated(q.(held := []), place[c := Failed])
  {
    assert q.held[0] == c && RemoveAt(q.held, 0) == [];
    LocatedRemove(q.held, place, Held, 0, Failed);
    OthersKeep(q, place, c, Failed);
  }

  lemma MoveAnswer(q: Queues, place: seq<Place>, c: nat)
    requires c < |place| && AllLocated(q, place) && q.held == [c] && q.answered == []
    ensures AllLocated(q.(held := [], answered := [c]), place[c := Answered])
  {
    assert q.held[0] == c && RemoveAt(q.held, 0) == [];
    LocatedMove(q.held, q.answered, place, Held, Answered, 0);
    OthersKeep(q, place, c, Answered);
  }

  lemma MoveFinished(q: Queues, place: seq<Place>, c: nat)
    requires c < |place| && AllLocated(q, place) && q.answered == [c]
    ensures AllLocated(q.(answered := []), place[c := Finished])
  {
    assert q.answered[0] == c && RemoveAt(q.answered, 0) == [];
    LocatedRemove(q.answered, place, Answered, 0, Finished);
    OthersKeep(q, place, c, Finished);
  }

  lemma MoveBuffer(q: Queues, place: seq<Place>, c: nat)
    requires c < |place| && AllLocated(q, place) && q.answered == [c]
    ensures AllLocated(q.(answered := [], buffered := q.buffered + [c]), place[c := Buffered])
  {
    assert q.answered[0] == c && RemoveAt(q.answered, 0) == [];
    LocatedMove(q.answered, q.buffered, place, Answered, Buffered, 0);
    OthersKeep(q, place, c, Buffered);
  }

  lemma MoveReady(q: Queues, place: seq<Place>, c: nat)
    requires c < |place| && AllLocated(q, place) && q.answered == [c]
    ensures AllLocated(q.(answered := [], ready := q.ready + [c]), place[c := InReady])
  {
    assert q.answered[0] == c && RemoveAt(q.answered, 0) == [];
    LocatedMove(q.answered, q.ready, place, Answered, InReady, 0);
    OthersKeep(q, place, c, InReady);
  }

  lemma MoveRelease(q: Queues, place: seq<Place>)
    requires AllLocated(q, place) && q.buffered != []
    ensures AllLocated(q.(buffered := q.buffered[1..], ready := q.ready + [q.buffered[0]]),
                       place[q.buffered[0] := InReady])
  {
    LocatedMove(q.buffered, q.ready, place, Buffered, InReady, 0);
    OthersKeep(q, place, q.buffered[0], InReady);
    assert RemoveAt(q.buffered, 0) == q.buffered[1..];
  }

  // ----- the same, for the steps -----

  lemma PopPlaces(s: State, i: nat)
    requires PlacesOk(s) && i < |s.ready| && s.ready[i].client < |s.place|
    ensures PlacesOk(DoPop(s, i))
  {
    var q, s' := QueuesOf(s), DoPop(s, i);
    MovePop(q, s.place, i);
    assert ReqIds(s'.ready) == RemoveAt(q.ready, i);
    assert ReqIds(s'.inFlight) == q.inFlight + [q.ready[i]];
  }

  lemma FinishPlaces(s: State, k: nat, success: bool, output: seq<Item>)
    requires PlacesOk(s) && k < |s.inFlight| && s.inFlight[k].client < |s.place|
    ensures PlacesOk(DoFinish(s, k, success, output))
  {
    var q, s' := QueuesOf(s), DoFinish(s, k, success, output);
    MoveFinish(q, s.place, k);
    assert ReqIds(s'.inFlight) == RemoveAt(q.inFlight, k);
    assert RespIds(s'.responses) == q.responses + [q.inFlight[k]];
  }

  lemma GetPlaces(s: State)
    requires PlacesOk(s) && s.handler.Waiting? && s.responses != [] && s.responses[0].client < |s.place|
    ensures PlacesOk(DoGet(s))
  {
    var q, s' := QueuesOf(s), DoGet(s);
    MoveGet(q, s.place);
    assert RespIds(s'.responses) == q.responses[1..];
  }

  lemma HandlePlaces(cfg: Config, s: State)
    requires PlacesOk(s) && Sized(cfg, s) && s.handler.Holding? && !DoHandle(cfg, s).handler.Crashed?
    ensures PlacesOk(DoHandle(cfg, s))
  {
    var q, c := QueuesOf(s), s.handler.response.client;
    if s.handler.response.success {
      MoveAnswer(q, s.place, c);
    } else {
      MoveFail(q, s.place, c);
    }
  }

  /** Where DoRequeue puts the answered client. */
  lemma RequeueQueues(cfg: Config, s: State)
    requires Sized(cfg, s) && s.handler.Requeueing? && !DoRequeue(cfg, s).handler.Crashed?
    ensures var q, c, s' := QueuesOf(s), s.handler.client, DoRequeue(cfg, s);
            if s.clients[c].round >= cfg.total[c] then
              QueuesOf(s') == q.(answered := []) && s'.place == s.place[c := Finished]
            else if cfg.barrier then
              QueuesOf(s') == q.(answered := [], buffered := q.buffered + [c]) && s'.place == s.place[c := Buffered]
            else
              QueuesOf(s') == q.(answered := [], ready := q.ready + [c]) && s'.place == s.place[c := InReady]
  {
    var q, c, s' := QueuesOf(s), s.handler.client, DoRequeue(cfg, s);
    assert Unreleased(s') == s'.buffer;
    if s.clients[c].round < cfg.total[c] {
      if cfg.barrier {
        assert ReqIds(s'.buffer) == q.buffered + [c];
      } else {
        assert ReqIds(s'.ready) == q.ready + [c];
      }
    }
  }

  lemma RequeuePlaces(cfg: Config, s: State)
    requires PlacesOk(s) && Sized(cfg, s) && s.handler.Requeueing? && !DoRequeue(cfg, s).handler.Crashed?
    ensures PlacesOk(DoRequeue(cfg, s))
  {
    var q, c := QueuesOf(s), s.handler.client;
    RequeueQueues(cfg, s);
    if s.clients[c].round >= cfg.total[c] {
      MoveFinished(q, s.place, c);
    } else if cfg.barrier {
      MoveBuffer(q, s.place, c);
    } else {
      MoveReady(q, s.place, c);
    }
  }

  lemma ReleaseQueues(cfg: Config, s: State)
    requires Sized(cfg, s) && s.handler.Releasing?
    ensures var q, s' := QueuesOf(s), DoRelease(s);
            if s.handler.next < |s.buffer| then
              && q.buffered != []
              && QueuesOf(s') == q.(buffered := q.buffered[1..], ready := q.ready + [q.buffered[0]])
              && q.buffered[0] < |s.place| && s'.place == s.place[q.buffered[0] := InReady]
            else QueuesOf(s') == q && s'.place == s.place
  {
    var q, s' := QueuesOf(s), DoRelease(s);
    if s.handler.next < |s.buffer| {
      assert ReqIds(Unreleased(s')) == q.buffered[1..];
      assert ReqIds(s'.ready) == q.ready + [q.buffered[0]];
    }
  }

  lemma ReleasePlaces(cfg: Config, s: State)
    requires PlacesOk(s) && Sized(cfg, s) && s.handler.Releasing?
    ensures PlacesOk(DoRelease(s))
  {
    ReleaseQueues(cfg, s);
    if s.handler.next < |s.buffer| {
      MoveRelease(QueuesOf(s), s.place);
    }
  }
}
