/** Which client a step moves, and how much work every step takes off what is left to do. */
module WorkloadProgress {
  import opened Base
  import opened WorkloadModel
  import opened WorkloadPlaces
  import opened WorkloadInvariant
  import opened WorkloadBarrier

  // ----- the client that a step moves -----

  ghost function Mover(cfg: Config, s: State, e: Event): Option<nat>
    requires Sized(cfg, s) && Enabled(cfg, s, e)
  {
    match e
    case Check => None
    case PopNone => None
    case Pop(i) => Some(s.ready[i].client)
    case Finish(k, _, _) => Some(s.inFlight[k].client)
    case Get => Some(s.responses[0].client)
    case Handle => Some(s.handler.response.client)
    case Requeue => Some(s.handler.client)
    case Release => if s.handler.next < |s.buffer| then Some(s.buffer[s.handler.next].client) else None
  }

  /** Where a step finds the client that it moves. */
  ghost function Source(e: Event): Place {
    match e
    case Finish(_, _, _) => InFlight
    case Get => InResponses
    case Handle => Held
    case Requeue => Answered
    case Release => Buffered
    case _ => InReady
  }

  lemma MoverPlace(cfg: Config, s: State, e: Event)
    requires Inv(cfg, s) && Enabled(cfg, s, e) && Mover(cfg, s, e).Some?
    ensures Mover(cfg, s, e).value < |s.place| && s.place[Mover(cfg, s, e).value] == Source(e)
  {
    var c := Mover(cfg, s, e).value;
    match e
    case Pop(i) => PlaceOfHead(ReqIds(s.ready), s.place, InReady, i, c);
    case Finish(k, _, _) => PlaceOfHead(ReqIds(s.inFlight), s.place, InFlight, k, c);
    case Get => PlaceOfHead(RespIds(s.responses), s.place, InResponses, 0, c);
    case Handle => PlaceOfHead(HeldIds(s), s.place, Held, 0, c);
    case Requeue => PlaceOfHead(AnsweredIds(s), s.place, Answered, 0, c);
    case Release => PlaceOfHead(ReqIds(Unreleased(s)), s.place, Buffered, 0, c);
  }

  /** The record and the place of every other client stay. */
  ghost predicate OnlyMoves(s: State, s': State, mover: Option<nat>) {
    && |s'.place| == |s.place| == |s.clients| == |s'.clients|
    && forall c :: 0 <= c < |s.place| && mover != Some(c) ==> s'.place[c] == s.place[c] && s'.clients[c] == s.clients[c]
  }

  /** How a moved client advances: its place, and its round when a response is recorded. */
  ghost predicate Advances(p: Place, round: nat, p': Place, round': nat, total: nat) {
    match p
    case InReady => p' == InFlight && round' == round
    case InFlight => p' == InResponses && round' == round
    case InResponses => p' == Held && round' == round
    case Held => (p' == Answered && round' == round + 1) || (p' == Failed && round' == round)
    case Answered =>
      && round' == round
      && if round >= total then p' == Finished else p' == Buffered || p' == InReady
    case Buffered => p' == InReady && round' == round
    case _ => false
  }

  /** Client c advances, every other client stays, and so does the barrier. */
  ghost predicate Moves(cfg: Config, s: State, s': State, c: nat) {
    && c < |s.place| == |cfg.total| && OnlyMoves(s, s', Some(c))
    && Advances(s.place[c], s.clients[c].round, s'.place[c], s'.clients[c].round, cfg.total[c])
    && s'.barrierRound == s.barrierRound
  }

  lemma PopMoves(cfg: Config, s: State, i: nat)
    requires Sized(cfg, s) && i < |s.ready| && s.place[s.ready[i].client] == InReady
    ensures Moves(cfg, s, DoPop(s, i), s.ready[i].client)
  {
  }

  lemma FinishMoves(cfg: Config, s: State, k: nat, success: bool, output: seq<Item>)
    requires Sized(cfg, s) && k < |s.inFlight| && s.place[s.inFlight[k].client] == InFlight
    ensures Moves(cfg, s, DoFinish(s, k, success, output), s.inFlight[k].client)
  {
  }

  lemma GetMoves(cfg: Config, s: State)
    requires Sized(cfg, s) && s.responses != [] && s.place[s.responses[0].client] == InResponses
    ensures Moves(cfg, s, DoGet(s), s.responses[0].client)
  {
  }

  lemma HandleMoves(cfg: Config, s: State)
    requires Sized(cfg, s) && s.handler.Holding? && s.place[s.handler.response.client] == Held
    requires !DoHandle(cfg, s).handler.Crashed?
    ensures Moves(cfg, s, DoHandle(cfg, s), s.handler.response.client)
  {
  }

  lemma RequeueMoves(cfg: Config, s: State)
    requires Sized(cfg, s) && s.handler.Requeueing? && s.place[s.handler.client] == Answered
    requires !DoRequeue(cfg, s).handler.Crashed?
    ensures Moves(cfg, s, DoRequeue(cfg, s), s.handler.client)
  {
  }

  lemma ReleaseMoves(cfg: Config, s: State)
    requires Sized(cfg, s) && s.handler.Releasing? && s.handler.next < |s.buffer|
    requires s.place[s.buffer[s.handler.next].client] == Buffered
    ensures Moves(cfg, s, DoRelease(s), s.buffer[s.handler.next].client)
  {
  }

  lemma NoCrash(cfg: Config, s: State, e: Event)
    requires Inv(cfg, s) && Enabled(cfg, s, e)
    ensures !Step(cfg, s, e).handler.Crashed?
  {
    StepInv(cfg, s, e);
  }

  /** What a step does to the clients: it moves one of them, or none. */
  ghost predicate Effect(cfg: Config, s: State, s': State, mover: Option<nat>) {
    match mover
    case Some(c) => Moves(cfg, s, s', c)
    case None => OnlyMoves(s, s', None)
  }

  lemma SizedMoves(cfg: Config, s: State, e: Event)
    requires Sized(cfg, s) && Enabled(cfg, s, e) && !Step(cfg, s, e).handler.Crashed?
    requires Mover(cfg, s, e).Some? ==> s.place[Mover(cfg, s, e).value] == Source(e)
    ensures Effect(cfg, s, Step(cfg, s, e), Mover(cfg, s, e))
  {
    match e
    case Check =>
    case PopNone =>
    case Pop(i) => PopMoves(cfg, s, i);
    case Finish(k, success, output) => FinishMoves(cfg, s, k, success, output);
    case Get => GetMoves(cfg, s);
    case Handle => HandleMoves(cfg, s);
    case Requeue => RequeueMoves(cfg, s);
    case Release =>
      if s.handler.next < |s.buffer| {
        ReleaseMoves(cfg, s);
      }
  }

  lemma StepMoves(cfg: Config, s: State, e: Event)
    requires Inv(cfg, s) && Enabled(cfg, s, e)
    ensures Effect(cfg, s, Step(cfg, s, e), Mover(cfg, s, e))
  {
    NoCrash(cfg, s, e);
    if Mover(cfg, s, e).Some? {
      MoverPlace(cfg, s, e);
    }
    SizedMoves(cfg, s, e);
  }

  // ----- the work left -----

  /** Steps that a client still needs at most, counting six for each round: pop, finish, get,
      handle, requeue and release. */
  ghost function Work(p: Place, round: nat, total: nat): int {
    match p
    case InReady => 6 * (total - round) - 1
    case InFlight => 6 * (total - round) - 2
    case InResponses => 6 * (total - round) - 3
    case Held => 6 * (total - round) - 4
    case Answered => 6 * (total - round) + 1
    case Buffered => 6 * (total - round)
    case Finished => 0
    case Failed => 0
  }

  ghost function Works(cfg: Config, s: State): (w: seq<int>)
    requires |s.clients| == |s.place| == |cfg.total|
    ensures |w| == |s.place|
    ensures forall c {:trigger w[c]} :: 0 <= c < |w| ==> w[c] == Work(s.place[c], s.clients[c].round, cfg.total[c])
  {
    seq(|s.place|, c requires 0 <= c < |s.place| => Work(s.place[c], s.clients[c].round, cfg.total[c]))
  }

  /** Barrier rounds that may still end. */
  ghost function RoundsLeft(cfg: Config, s: State): nat {
    if s.barrierRound < cfg.maxRounds then cfg.maxRounds - s.barrierRound else 0
  }

  ghost function WorkLeft(cfg: Config, s: State): int
    requires |s.clients| == |s.place| == |cfg.total|
  {
    Sum(Works(cfg, s)) + RoundsLeft(cfg, s)
  }

  /** A release goes on only in a round that exists. */
  ghost predicate ReleasesBelow(cfg: Config, s: State) {
    s.handler.Releasing? ==> s.barrierRound < cfg.maxRounds
  }

  lemma StepReleasesBelow(cfg: Config, s: State, e: Event)
    requires Sized(cfg, s) && Enabled(cfg, s, e) && ReleasesBelow(cfg, s)
    ensures ReleasesBelow(cfg, Step(cfg, s, e))
  {
  }

  /** Looking at the limit or at an empty queue does no work. */
  predicate Idles(e: Event) {
    e.Check? || e.PopNone?
  }

  lemma {:induction false} WorkNonNegative(cfg: Config, s: State)
    requires Inv(cfg, s)
    ensures WorkLeft(cfg, s) >= 0
  {
    forall c | 0 <= c < |s.place|
      ensures Works(cfg, s)[c] >= 0
    {
      assert RoundFits(s.place[c], s.clients[c].round, cfg.total[c]);
    }
    SumNonNegative(Works(cfg, s));
  }

  lemma WorksChange(cfg: Config, s: State, s': State, c: nat)
    requires c < |s.place| == |cfg.total| && OnlyMoves(s, s', Some(c))
    ensures Sum(Works(cfg, s')) == Sum(Works(cfg, s)) - Works(cfg, s)[c] + Works(cfg, s')[c]
  {
    SumUpdate(Works(cfg, s), c, Works(cfg, s')[c]);
    assert Works(cfg, s') == Works(cfg, s)[c := Works(cfg, s')[c]];
  }

  lemma WorksSame(cfg: Config, s: State, s': State)
    requires |s.place| == |cfg.total| && OnlyMoves(s, s', None)
    ensures Sum(Works(cfg, s')) == Sum(Works(cfg, s))
  {
    assert Works(cfg, s') == Works(cfg, s);
  }

  /** A client that advances has less to do afterwards. */
  lemma AdvanceWorks(p: Place, round: nat, p': Place, round': nat, total: nat)
    requires Advances(p, round, p', round', total) && RoundFits(p, round, total)
    ensures Work(p', round', total) < Work(p, round, total)
  {
  }

  lemma MoveWorks(cfg: Config, s: State, s': State, c: nat)
    requires Moves(cfg, s, s', c) && RoundFits(s.place[c], s.clients[c].round, cfg.total[c])
    ensures |s'.clients| == |s'.place| == |s.clients| == |cfg.total|
    ensures WorkLeft(cfg, s') < WorkLeft(cfg, s)
  {
    AdvanceWorks(s.place[c], s.clients[c].round, s'.place[c], s'.clients[c].round, cfg.total[c]);
    WorksChange(cfg, s, s', c);
  }

  lemma EffectWorks(cfg: Config, s: State, s': State, mover: Option<nat>)
    requires Sized(cfg, s) && RoundsOk(cfg, s) && Effect(cfg, s, s', mover)
    ensures |s'.clients| == |s'.place| == |cfg.total|
    ensures mover.Some? ==> WorkLeft(cfg, s') < WorkLeft(cfg, s)
    ensures mover.None? ==> WorkLeft(cfg, s') - RoundsLeft(cfg, s') == WorkLeft(cfg, s) - RoundsLeft(cfg, s)
  {
    if mover.Some? {
      MoveWorks(cfg, s, s', mover.value);
    } else {
      WorksSame(cfg, s, s');
    }
  }

  /** A step that moves nobody idles, or ends a barrier round. */
  lemma NobodyMoves(cfg: Config, s: State, e: Event)
    requires Sized(cfg, s) && Enabled(cfg, s, e) && ReleasesBelow(cfg, s) && Mover(cfg, s, e).None?
    ensures Idles(e) ==> RoundsLeft(cfg, Step(cfg, s, e)) == RoundsLeft(cfg, s)
    ensures !Idles(e) ==> RoundsLeft(cfg, Step(cfg, s, e)) < RoundsLeft(cfg, s)
  {
  }

  /** Every step that does not idle takes work off what is left; no step adds any. */
  lemma StepWorks(cfg: Config, s: State, e: Event)
    requires Inv(cfg, s) && Enabled(cfg, s, e) && ReleasesBelow(cfg, s)
    ensures |Step(cfg, s, e).clients| == |Step(cfg, s, e).place| == |cfg.total|
    ensures WorkLeft(cfg, Step(cfg, s, e)) + (if Idles(e) then 0 else 1) <= WorkLeft(cfg, s)
  {
    StepMoves(cfg, s, e);
    EffectWorks(cfg, s, Step(cfg, s, e), Mover(cfg, s, e));
    if Mover(cfg, s, e).None? {
      NobodyMoves(cfg, s, e);
    }
  }

  // ----- something can always be done -----

  /** Nothing is left that the sender, a task or the handler could work on. */
  predicate Quiescent(s: State) {
    s.ready == [] && s.inFlight == [] && s.responses == [] && s.handler.Waiting?
  }

  /** A state with anything left to do has a step that does some of it, at once or after the
      sender has looked at the limit. */
  lemma WorkIsEnabled(cfg: Config, s: State)
    requires Inv(cfg, s) && cfg.maxParallel >= 1 && !Quiescent(s)
    ensures
      || (exists e :: !Idles(e) && Enabled(cfg, s, e))
      || (Enabled(cfg, s, Check) && exists e :: !Idles(e) && Enabled(cfg, Step(cfg, s, Check), e))
  {
    var e :=
      if s.handler.Holding? then Handle
      else if s.handler.Requeueing? then Requeue
      else if s.handler.Releasing? then Release
      else if s.responses != [] then Get
      else if s.inFlight != [] then Finish(0, true, [])
      else Pop(0);
    if e.Pop? && !s.passed {
      assert !Idles(e) && Enabled(cfg, Step(cfg, s, Check), e);
    } else {
      assert !Idles(e) && Enabled(cfg, s, e);
    }
  }
}
