/** The round barrier, and the invariant of the whole load generator over every interleaving. */
module WorkloadBarrier {
  import opened Base
  import opened Queueing
  import opened WorkloadModel
  import opened WorkloadPlaces
  import opened WorkloadInvariant

  /** How far a client is, seen from barrier round b.  While the handler releases the buffer
      the next round has begun. */
  ghost predicate Level(b: nat, releasing: bool, p: Place, round: nat, total: nat) {
    match p
    case InReady => if releasing then round == b + 1 < total else round == b < total
    case InFlight => if releasing then round == b + 1 < total else round == b < total
    case InResponses => if releasing then round == b + 1 < total else round == b < total
    case Held => !releasing && round == b < total
    case Failed => !releasing && round == b < total
    case Answered => !releasing && round == b + 1 <= total
    case Buffered => round == b + 1 < total
    case Finished => round == total <= b + 1
  }

  ghost predicate Levels(cfg: Config, s: State)
    requires Sized(cfg, s)
  {
    forall c :: 0 <= c < |s.clients| ==>
      Level(s.barrierRound, s.handler.Releasing?, s.place[c], s.clients[c].round, cfg.total[c])
  }

  /** The clients that take part in round b. */
  ghost function Participants(cfg: Config, b: nat): set<nat> {
    set c: nat | c < |cfg.total| && cfg.total[c] > b
  }

  /** The participants whose round-b response has been counted by the barrier. */
  ghost function Counted(cfg: Config, s: State): set<nat>
    requires Sized(cfg, s)
  {
    set c: nat | c < |cfg.total| && cfg.total[c] > s.barrierRound &&
                 s.clients[c].round == s.barrierRound + 1 && s.place[c] != Answered
  }

  ghost predicate BarrierOk(cfg: Config, s: State)
    requires Sized(cfg, s)
  {
    && Levels(cfg, s)
    && (!s.handler.Releasing? ==>
          && s.barrierCount == |Counted(cfg, s)|
          && (s.barrierCount < |Participants(cfg, s.barrierRound)| || Participants(cfg, s.barrierRound) == {}))
  }

  ghost predicate Inv(cfg: Config, s: State) {
    && Core(cfg, s) && PlacesOk(s)
    && (if cfg.barrier then BarrierOk(cfg, s) else s.buffer == [] && !s.handler.Releasing?)
  }

  lemma {:induction false} ParticipantsCount(total: seq<nat>, b: nat)
    ensures |(set c: nat | c < |total| && total[c] > b)| == ClientsAbove(total, b)
  {
    var all := set c: nat | c < |total| && total[c] > b;
    if total == [] {
      assert all == {};
    } else {
      var n := |total| - 1;
      ParticipantsCount(total[..n], b);
      var less := set c: nat | c < n && total[..n][c] > b;
      assert all == if total[n] > b then less + {n} else less;
    }
  }

  lemma BarrierInit(cfg: Config, s: State)
    requires ConfigOk(cfg) && Sized(cfg, s) && Init(cfg, s)
    ensures BarrierOk(cfg, s)
  {
    assert Counted(cfg, s) == {};
    if Participants(cfg, 0) != {} {
      assert |Participants(cfg, 0)| > 0;
    }
  }

  /** A step that moves client c between places of the same round. */
  lemma BarrierMove(cfg: Config, s: State, s': State, c: nat)
    requires Sized(cfg, s) && Sized(cfg, s') && BarrierOk(cfg, s)
    requires c < |s.place| && s'.place == s.place[c := s'.place[c]] && s'.clients == s.clients
    requires s'.barrierRound == s.barrierRound && s'.barrierCount == s.barrierCount
    requires s'.handler.Releasing? == s.handler.Releasing?
    requires Level(s.barrierRound, s.handler.Releasing?, s'.place[c], s.clients[c].round, cfg.total[c])
    requires s'.place[c] != Answered && s.place[c] != Answered
    ensures BarrierOk(cfg, s')
  {
    assert Counted(cfg, s') == Counted(cfg, s);
  }

  lemma HandleBarrier(cfg: Config, s: State)
    requires HoldsLive(cfg, s) && Sized(cfg, DoHandle(cfg, s)) && BarrierOk(cfg, s)
    ensures BarrierOk(cfg, DoHandle(cfg, s))
  {
    var c, s' := s.handler.response.client, DoHandle(cfg, s);
    assert Level(s.barrierRound, false, s.place[c], s.clients[c].round, cfg.total[c]);
    assert Counted(cfg, s') == Counted(cfg, s);
  }

  lemma CountedGains(cfg: Config, s: State, s': State, c: nat)
    requires Sized(cfg, s) && Sized(cfg, s') && c < |cfg.total|
    requires s'.barrierRound == s.barrierRound && cfg.total[c] > s.barrierRound
    requires s.clients[c].round == s'.clients[c].round == s.barrierRound + 1
    requires s.place[c] == Answered && s'.place[c] != Answered
    requires s'.clients == s.clients[c := s'.clients[c]] && s'.place == s.place[c := s'.place[c]]
    ensures c !in Counted(cfg, s) && Counted(cfg, s') == Counted(cfg, s) + {c}
  {
  }

  /** Counting the answered client: the count rises by one, and it reaches the number of
      participants exactly when every participant has been counted. */
  lemma RequeueCounted(cfg: Config, s: State)
    requires RequeueLive(cfg, s) && Sized(cfg, DoRequeue(cfg, s)) && cfg.barrier && BarrierOk(cfg, s)
    ensures Counted(cfg, DoRequeue(cfg, s)) == Counted(cfg, s) + {s.handler.client}
    ensures s.handler.client !in Counted(cfg, s)
    ensures DoRequeue(cfg, s).barrierRound == s.barrierRound && cfg.total[s.handler.client] > s.barrierRound
  {
    var c := s.handler.client;
    RequeueFrame(cfg, s);
    assert Level(s.barrierRound, false, s.place[c], s.clients[c].round, cfg.total[c]);
    CountedGains(cfg, s, DoRequeue(cfg, s), c);
  }

  lemma RequeueBarrier(cfg: Config, s: State)
    requires ConfigOk(cfg) && RequeueLive(cfg, s) && Sized(cfg, DoRequeue(cfg, s)) && cfg.barrier && BarrierOk(cfg, s)
    ensures BarrierOk(cfg, DoRequeue(cfg, s))
  {
    var c, s', b := s.handler.client, DoRequeue(cfg, s), s.barrierRound;
    RequeueFrame(cfg, s);
    RequeueCounted(cfg, s);
    ParticipantsCount(cfg.total, b);
    SubsetSize(Counted(cfg, s'), Participants(cfg, b));
    assert s'.barrierCount == s.barrierCount + 1 == |Counted(cfg, s')|;
    RequeueLevels(cfg, s);
  }

  lemma RequeueLevels(cfg: Config, s: State)
    requires ConfigOk(cfg) && RequeueLive(cfg, s) && Sized(cfg, DoRequeue(cfg, s)) && cfg.barrier && BarrierOk(cfg, s)
    requires var s' := DoRequeue(cfg, s);
             s'.handler.Releasing? ==> Counted(cfg, s') == Participants(cfg, s.barrierRound)
    ensures Levels(cfg, DoRequeue(cfg, s))
  {
    var c, s', b := s.handler.client, DoRequeue(cfg, s), s.barrierRound;
    RequeueFrame(cfg, s);
    RequeueCounted(cfg, s);
    forall k: nat | k < |s'.clients|
      ensures Level(b, s'.handler.Releasing?, s'.place[k], s'.clients[k].round, cfg.total[k])
    {
      assert Level(b, false, s.place[k], s.clients[k].round, cfg.total[k]);
      if s'.handler.Releasing? {
        assert k in Participants(cfg, b) ==> k in Counted(cfg, s');
      }
    }
  }

  lemma ReleaseBarrier(cfg: Config, s: State)
    requires Sized(cfg, s) && s.handler.Releasing? && Sized(cfg, DoRelease(s)) && BarrierOk(cfg, s)
    requires s.handler.next < |s.buffer| ==> s.place[s.buffer[s.handler.next].client] == Buffered
    requires s.handler.next == |s.buffer| ==> forall c :: 0 <= c < |s.place| ==> s.place[c] != Buffered
    ensures BarrierOk(cfg, DoRelease(s))
  {
    var s' := DoRelease(s);
    forall k: nat | k < |s'.clients|
      ensures Level(s'.barrierRound, s'.handler.Releasing?, s'.place[k], s'.clients[k].round, cfg.total[k])
    {
      assert Level(s.barrierRound, true, s.place[k], s.clients[k].round, cfg.total[k]);
    }
    if s.handler.next == |s.buffer| {
      assert Counted(cfg, s') == {};
      var next := Participants(cfg, s'.barrierRound);
      if next != {} {
        assert |next| > 0;
      }
    }
  }

  // ----- every step keeps the invariant -----

  lemma AbsentFromQueues(s: State, c: nat)
    requires PlacesOk(s) && c < |s.place| && (s.place[c] == Held || s.place[c] == Answered)
    ensures Absent(s, c)
  {
    forall i | 0 <= i < |s.ready|
      ensures s.ready[i].client != c
    {
      assert ReqIds(s.ready)[i] == s.ready[i].client;
    }
    forall i | 0 <= i < |s.inFlight|
      ensures s.inFlight[i].client != c
    {
      assert ReqIds(s.inFlight)[i] == s.inFlight[i].client;
    }
    forall i | 0 <= i < |Unreleased(s)|
      ensures Unreleased(s)[i].client != c
    {
      assert ReqIds(Unreleased(s))[i] == Unreleased(s)[i].client;
    }
    forall i | 0 <= i < |s.responses|
      ensures s.responses[i].client != c
    {
      assert RespIds(s.responses)[i] == s.responses[i].client;
    }
  }

  lemma PlaceOfHead(ids: seq<nat>, place: seq<Place>, p: Place, i: nat, c: nat)
    requires Located(ids, place, p) && i < |ids| && ids[i] == c
    ensures c < |place| && place[c] == p
  {
  }

  lemma PopInv(cfg: Config, s: State, i: nat)
    requires Inv(cfg, s) && s.passed && i < |s.ready|
    ensures Inv(cfg, DoPop(s, i))
  {
    var c, s' := s.ready[i].client, DoPop(s, i);
    PlaceOfHead(ReqIds(s.ready), s.place, InReady, i, c);
    PopPlaces(s, i);
    PopCore(cfg, s, i);
    if cfg.barrier {
      assert Level(s.barrierRound, s.handler.Releasing?, s.place[c], s.clients[c].round, cfg.total[c]);
      BarrierMove(cfg, s, s', c);
    }
  }

  lemma FinishInv(cfg: Config, s: State, k: nat, success: bool, output: seq<Item>)
    requires Inv(cfg, s) && k < |s.inFlight|
    ensures Inv(cfg, DoFinish(s, k, success, output))
  {
    var c, s' := s.inFlight[k].client, DoFinish(s, k, success, output);
    PlaceOfHead(ReqIds(s.inFlight), s.place, InFlight, k, c);
    FinishPlaces(s, k, success, output);
    FinishCore(cfg, s, k, success, output);
    if cfg.barrier {
      assert Level(s.barrierRound, s.handler.Releasing?, s.place[c], s.clients[c].round, cfg.total[c]);
      BarrierMove(cfg, s, s', c);
    }
  }

  lemma GetInv(cfg: Config, s: State)
    requires Inv(cfg, s) && s.handler.Waiting? && s.responses != []
    ensures Inv(cfg, DoGet(s))
  {
    var c, s' := s.responses[0].client, DoGet(s);
    PlaceOfHead(RespIds(s.responses), s.place, InResponses, 0, c);
    GetPlaces(s);
    GetCore(cfg, s);
    if cfg.barrier {
      assert Level(s.barrierRound, s.handler.Releasing?, s.place[c], s.clients[c].round, cfg.total[c]);
      BarrierMove(cfg, s, s', c);
    }
  }

  lemma HandleInv(cfg: Config, s: State)
    requires Inv(cfg, s) && s.handler.Holding?
    ensures Inv(cfg, DoHandle(cfg, s))
  {
    var c := s.handler.response.client;
    PlaceOfHead(HeldIds(s), s.place, Held, 0, c);
    AbsentFromQueues(s, c);
    assert RoundFits(Held, s.clients[c].round, cfg.total[c]);
    HandleCrash(cfg, s);
    HandlePlaces(cfg, s);
    HandleCore(cfg, s);
    if cfg.barrier {
      HandleBarrier(cfg, s);
    }
  }

  lemma RequeueInv(cfg: Config, s: State)
    requires Inv(cfg, s) && s.handler.Requeueing?
    ensures Inv(cfg, DoRequeue(cfg, s))
  {
    var c := s.handler.client;
    PlaceOfHead(AnsweredIds(s), s.place, Answered, 0, c);
    AbsentFromQueues(s, c);
    assert RoundFits(Answered, s.clients[c].round, cfg.total[c]);
    RequeueCrash(cfg, s);
    RequeuePlaces(cfg, s);
    RequeueCore(cfg, s);
    if cfg.barrier {
      RequeueBarrier(cfg, s);
    } else {
      RequeueFrame(cfg, s);
    }
  }

  lemma ReleaseInv(cfg: Config, s: State)
    requires Inv(cfg, s) && s.handler.Releasing?
    ensures Inv(cfg, DoRelease(s))
  {
    if s.handler.next < |s.buffer| {
      assert ReqIds(Unreleased(s))[0] == s.buffer[s.handler.next].client;
      PlaceOfHead(ReqIds(Unreleased(s)), s.place, Buffered, 0, s.buffer[s.handler.next].client);
    } else {
      assert ReqIds(Unreleased(s)) == [];
    }
    ReleasePlaces(cfg, s);
    ReleaseCore(cfg, s);
    ReleaseBarrier(cfg, s);
  }

  lemma StepInv(cfg: Config, s: State, e: Event)
    requires Inv(cfg, s) && Enabled(cfg, s, e)
    ensures Inv(cfg, Step(cfg, s, e))
  {
    match e
    case Check => PassedInv(cfg, s, true);
    case PopNone => PassedInv(cfg, s, false);
    case Pop(i) => PopInv(cfg, s, i);
    case Finish(k, success, output) => FinishInv(cfg, s, k, success, output);
    case Get => GetInv(cfg, s);
    case Handle => HandleInv(cfg, s);
    case Requeue => RequeueInv(cfg, s);
    case Release => ReleaseInv(cfg, s);
  }

  lemma PassedInv(cfg: Config, s: State, b: bool)
    requires Inv(cfg, s) && (b ==> s.sent - s.completed < cfg.maxParallel)
    ensures Inv(cfg, s.(passed := b))
  {
    var s' := s.(passed := b);
    assert QueuesOf(s') == QueuesOf(s) && Unreleased(s') == Unreleased(s);
    if cfg.barrier {
      assert Counted(cfg, s') == Counted(cfg, s);
    }
  }

  lemma {:induction false} InitPool(cfg: Config, clients: seq<Client>, total: seq<nat>)
    requires |clients| == |total| && cfg.total == total
    requires forall c :: 0 <= c < |clients| ==> clients[c].round == 0
    ensures Sum(LeftAll(cfg, clients)) == SubQuestions(total)
    decreases |total|
  {
    if total != [] {
      var n := |total| - 1;
      var cfg' := cfg.(total := total[..n]);
      InitPool(cfg', clients[..n], total[..n]);
      assert LeftAll(cfg, clients)[..n] == LeftAll(cfg', clients[..n]);
    }
  }

  lemma InitPlaces(cfg: Config, s: State)
    requires Init(cfg, s)
    ensures PlacesOk(s)
  {
    var ids := ReqIds(s.ready);
    forall c: nat | c < |s.place|
      ensures c in ids
    {
      assert ids[c] == c;
    }
    assert Located(ids, s.place, InReady);
    assert ReqIds(Unreleased(s)) == [];
  }

  lemma InitSized(cfg: Config, s: State)
    requires ConfigOk(cfg) && Init(cfg, s)
    ensures Sized(cfg, s) && RoundsOk(cfg, s) && TurnsOk(cfg, s) && PayloadsOk(s)
  {
  }

  lemma InitCounters(cfg: Config, s: State)
    requires Init(cfg, s)
    ensures CountersOk(cfg, s)
  {
    SumZero(Rounds(s.clients));
  }

  lemma InitCore(cfg: Config, s: State)
    requires ConfigOk(cfg) && Init(cfg, s)
    ensures Core(cfg, s)
  {
    InitSized(cfg, s);
    InitCounters(cfg, s);
    InitPool(cfg, s.clients, cfg.total);
  }

  lemma InitInv(cfg: Config, s: State)
    requires ConfigOk(cfg) && Init(cfg, s)
    ensures Inv(cfg, s)
  {
    InitPlaces(cfg, s);
    InitCore(cfg, s);
    if cfg.barrier {
      BarrierInit(cfg, s);
    }
  }
}
