/** The mixed benchmark's user generator: users between two rounds wait in a queue until their
    start time, and per-round counters record what was sent and what came back. Users are named
    by their id, which is the order of their creation. */
module UserQueue {
  import opened Base
  import opened Queueing

  /** Per round: relative weight, mean return tokens, mean pause before the round. */
  datatype Config = Config(ratios: seq<int>, meanReturn: seq<int>, meanInterval: seq<real>)

  datatype User = User(round: nat, total: nat, prompt: string, returnTokens: int, start: real)

  datatype Place = Queued | InFlight | Dropped | Finished

  /** What the random sources deliver in one call: a candidate input, a token count, a pause. */
  datatype Draw = Draw(ratio: int, text: string, promptLen: nat, tokens: int, interval: real)

  /** `place` records where each user is; a statistics pair is a token sum and a count. */
  datatype State = State(
    users: seq<User>,
    queue: seq<nat>,
    inFlight: seq<nat>,
    place: seq<Place>,
    userStats: seq<nat>,
    inputTokens: seq<nat>,
    inputs: seq<nat>,
    outputTokens: seq<nat>,
    outputs: seq<nat>)

  /** Pop: the sender asks for a user. Push: the response of in-flight user number i arrives.
      Drop: it fails. */
  datatype Event =
    | Pop(now: real, draw: Draw)
    | Push(i: nat, text: string, itl: nat, now: real, draw: Draw)
    | Drop(i: nat)

  ghost predicate ConfigOk(cfg: Config) {
    |cfg.ratios| == |cfg.meanReturn| == |cfg.meanInterval| >= 1
  }

  /** The ratio draw is uniform on 0 .. the last cumulative ratio, both included. */
  predicate DrawOk(cfg: Config, d: Draw) {
    0 <= d.ratio <= Sum(cfg.ratios)
  }

  // ----- the choice of the number of rounds -----

  ghost function Rounds(ratios: seq<int>, draw: int): nat {
    RoundsFrom(ratios, draw, 0)
  }

  ghost function RoundsFrom(ratios: seq<int>, draw: int, k: nat): nat
    requires k <= |ratios|
    decreases |ratios| - k
  {
    if k == |ratios| then |ratios|
    else if draw < Sum(ratios[..k + 1]) then k + 1
    else RoundsFrom(ratios, draw, k + 1)
  }

  method ChooseRounds(ratios: seq<int>, draw: int) returns (i: nat)
    requires ratios != []
    ensures i == Rounds(ratios, draw)
    ensures 1 <= i <= |ratios|
  {
    i := |ratios|;
    var cumulative := 0;
    for idx := 0 to |ratios|
      invariant i == |ratios|
      invariant cumulative == Sum(ratios[..idx])
      invariant Rounds(ratios, draw) == RoundsFrom(ratios, draw, idx)
    {
      assert ratios[..idx + 1][..idx] == ratios[..idx];
      cumulative := cumulative + ratios[idx];
      if draw >= cumulative {
        continue;
      } else {
        return idx + 1;
      }
    }
  }

  lemma {:induction false} PrefixSumsGrow(ratios: seq<int>, i: nat, j: nat)
    requires i <= j <= |ratios| && forall k :: 0 <= k < |ratios| ==> ratios[k] >= 0
    ensures Sum(ratios[..i]) <= Sum(ratios[..j])
  {
    if i < j {
      PrefixSumsGrow(ratios, i, j - 1);
      assert ratios[..j][..j - 1] == ratios[..j - 1];
    }
  }

  /** With non-negative ratios, k + 1 rounds are chosen exactly for the draws from the sum of the
      first k ratios up to the sum of the first k + 1: ratios[k] of the draws. The closed upper
      end of the draw falls to the last choice. */
  lemma RoundsByInterval(ratios: seq<int>, draw: int, k: nat)
    requires k < |ratios| && forall j :: 0 <= j < |ratios| ==> ratios[j] >= 0
    requires 0 <= draw <= Sum(ratios)
    ensures Rounds(ratios, draw) == k + 1 <==>
              Sum(ratios[..k]) <= draw && (draw < Sum(ratios[..k + 1]) || k + 1 == |ratios|)
  {
    RoundsFromInterval(ratios, draw, 0, k);
  }

  lemma {:induction false} RoundsFromInterval(ratios: seq<int>, draw: int, i: nat, k: nat)
    requires i <= |ratios| && k < |ratios| && forall j :: 0 <= j < |ratios| ==> ratios[j] >= 0
    requires Sum(ratios[..i]) <= draw
    ensures i <= k ==>
              (RoundsFrom(ratios, draw, i) == k + 1 <==>
              Sum(ratios[..k]) <= draw && (draw < Sum(ratios[..k + 1]) || k + 1 == |ratios|))
    ensures i < |ratios| ==> RoundsFrom(ratios, draw, i) > i
    decreases |ratios| - i
  {
    if i < |ratios| {
      if draw < Sum(ratios[..i + 1]) {
        if i < k {
          PrefixSumsGrow(ratios, i + 1, k);
        }
      } else {
        RoundsFromInterval(ratios, draw, i + 1, k);
      }
    }
  }

  // ----- the queue of waiting users -----

  function InsertAt<T>(s: seq<T>, k: nat, x: T): seq<T>
    requires k <= |s|
  {
    s[..k] + [x] + s[k..]
  }

  /** The slot the loop stops at: the first queued user with a later start, or the last one. */
  function Slot(starts: seq<real>, start: real, k: nat): (r: nat)
    requires k < |starts|
    ensures k <= r < |starts|
    ensures forall i :: k <= i < r ==> starts[i] <= start
    ensures start < starts[r] || r == |starts| - 1
    decreases |starts| - k
  {
    if start < starts[k] || k == |starts| - 1 then k else Slot(starts, start, k + 1)
  }

  ghost predicate NonDecreasing(s: seq<real>) {
    forall i, j :: 0 <= i < j < |s| ==> s[i] <= s[j]
  }

  /** The new user is due before some queued user, or together with the last one. */
  ghost predicate FitsOrder(starts: seq<real>, start: real) {
    || starts == []
    || (exists i :: 0 <= i < |starts| && start < starts[i])
    || start == starts[|starts| - 1]
  }

  lemma InsertOrdered(starts: seq<real>, start: real)
    requires starts != [] && NonDecreasing(starts) && FitsOrder(starts, start)
    ensures NonDecreasing(InsertAt(starts, Slot(starts, start, 0), start))
  {
    var k := Slot(starts, start, 0);
    var s := InsertAt(starts, k, start);
    assert start <= starts[k];
    forall i, j | 0 <= i < j < |s|
      ensures s[i] <= s[j]
    {
      assert i < k ==> s[i] == starts[i];
      assert j > k ==> s[j] == starts[j - 1] && starts[k] <= starts[j - 1];
      assert i > k ==> s[i] == starts[i - 1];
    }
  }

  lemma InsertUnordered(starts: seq<real>, start: real)
    requires starts != [] && !FitsOrder(starts, start)
    ensures !NonDecreasing(InsertAt(starts, Slot(starts, start, 0), start))
  {
    var k := Slot(starts, start, 0);
    var s := InsertAt(starts, k, start);
    assert s[k] == start && s[k + 1] == starts[k];
  }

  function Starts(users: seq<User>, queue: seq<nat>): seq<real>
    requires forall i :: 0 <= i < |queue| ==> queue[i] < |users|
  {
    seq(|queue|, i requires 0 <= i < |queue| => users[queue[i]].start)
  }

  function Enqueue(users: seq<User>, queue: seq<nat>, c: nat): (r: seq<nat>)
    requires c < |users| && forall i :: 0 <= i < |queue| ==> queue[i] < |users|
    ensures forall i :: 0 <= i < |r| ==> r[i] < |users|
  {
    if queue == [] then [c] else InsertAt(queue, Slot(Starts(users, queue), users[c].start, 0), c)
  }

  ghost predicate SortedByStart(users: seq<User>, queue: seq<nat>)
    requires forall i :: 0 <= i < |queue| ==> queue[i] < |users|
  {
    NonDecreasing(Starts(users, queue))
  }

  lemma EnqueueStarts(users: seq<User>, queue: seq<nat>, c: nat)
    requires c < |users| && queue != [] && forall i :: 0 <= i < |queue| ==> queue[i] < |users|
    ensures var starts, start := Starts(users, queue), users[c].start;
            Starts(users, Enqueue(users, queue, c)) == InsertAt(starts, Slot(starts, start, 0), start)
  {
  }

  /** The insertion uses the loop variable instead of the computed position: a user due after
      everyone else lands before the last one. A sorted queue stays sorted exactly when the new
      user fits. */
  lemma EnqueueSorted(users: seq<User>, queue: seq<nat>, c: nat)
    requires c < |users| && forall i :: 0 <= i < |queue| ==> queue[i] < |users|
    requires SortedByStart(users, queue)
    ensures SortedByStart(users, Enqueue(users, queue, c)) <==> FitsOrder(Starts(users, queue), users[c].start)
  {
    if queue != [] {
      var starts, start := Starts(users, queue), users[c].start;
      EnqueueStarts(users, queue, c);
      if FitsOrder(starts, start) {
        InsertOrdered(starts, start);
      } else {
        InsertUnordered(starts, start);
      }
    }
  }

  /** Two users, the second due later: it is served first. */
  lemma LateUserJumpsAhead(u: User)
    ensures
      var users := [u.(start := 1.0), u.(start := 2.0)];
      Enqueue(users, [0], 1) == [1, 0] && !SortedByStart(users, [1, 0])
  {
    var users := [u.(start := 1.0), u.(start := 2.0)];
    assert Starts(users, [1, 0]) == [2.0, 1.0];
    assert !([2.0, 1.0][0] <= [2.0, 1.0][1]);
  }

  // ----- the operations -----

  ghost predicate Sized(cfg: Config, s: State) {
    && ConfigOk(cfg)
    && |s.users| == |s.place|
    && |s.userStats| == |s.inputs| == |s.outputs| == |s.inputTokens| == |s.outputTokens| == |cfg.ratios|
    && (forall i :: 0 <= i < |s.queue| ==> s.queue[i] < |s.users|)
    && (forall i :: 0 <= i < |s.inFlight| ==> s.inFlight[i] < |s.users|)
    && (forall c :: 0 <= c < |s.users| ==> s.users[c].total <= |cfg.ratios|)
    && (forall i :: 0 <= i < |s.inFlight| ==> s.users[s.inFlight[i]].round < s.users[s.inFlight[i]].total)
  }

  predicate Enabled(cfg: Config, s: State, e: Event) {
    match e
    case Pop(_, d) => DrawOk(cfg, d)
    case Push(i, _, _, _, _) => i < |s.inFlight|
    case Drop(i) => i < |s.inFlight|
  }

  function Init(cfg: Config): State {
    var zero := seq(|cfg.ratios|, _ => 0);
    State([], [], [], [], zero, zero, zero, zero, zero)
  }

  function Tokens(cfg: Config, round: nat, drawn: int): int
    requires round < |cfg.meanReturn|
  {
    if drawn <= 0 then cfg.meanReturn[round] else drawn
  }

  function Pause(cfg: Config, round: nat, drawn: real): real
    requires round < |cfg.meanInterval|
  {
    if drawn <= 0.0 then cfg.meanInterval[round] else drawn
  }

  /** A new user with the given id. */
  ghost function NewUser(cfg: Config, id: nat, d: Draw): User
    requires ConfigOk(cfg)
  {
    User(0, Rounds(cfg.ratios, d.ratio), Decimal(id) + " " + d.text, Tokens(cfg, 0, d.tokens), 0.0)
  }

  function Decimal(n: nat): string {
    if n < 10 then ["0123456789"[n]] else Decimal(n / 10) + ["0123456789"[n % 10]]
  }

  function NextRound(cfg: Config, u: User, text: string, now: real, d: Draw): User
    requires u.round + 1 < |cfg.meanReturn| == |cfg.meanInterval|
  {
    var r := u.round + 1;
    User(r, u.total, u.prompt + text + d.text, Tokens(cfg, r, d.tokens), now + Pause(cfg, r, d.interval))
  }

  function Add(counts: seq<nat>, r: nat, n: nat): seq<nat>
    requires r < |counts|
  {
    counts[r := counts[r] + n]
  }

  ghost predicate Due(s: State, now: real)
    requires s.queue != [] ==> s.queue[0] < |s.users|
  {
    s.queue != [] && now > s.users[s.queue[0]].start
  }

  ghost function DoPop(cfg: Config, s: State, now: real, d: Draw): State
    requires Sized(cfg, s) && DrawOk(cfg, d)
  {
    if Due(s, now) then
      s.(queue := s.queue[1..], inFlight := s.inFlight + [s.queue[0]], place := s.place[s.queue[0] := InFlight])
    else
      var u := NewUser(cfg, |s.users|, d);
      RoundsInRange(cfg.ratios, d.ratio);
      s.(users := s.users + [u], inFlight := s.inFlight + [|s.users|], place := s.place + [InFlight],
         userStats := Add(s.userStats, u.total - 1, 1),
         inputTokens := Add(s.inputTokens, 0, d.promptLen), inputs := Add(s.inputs, 0, 1))
  }

  lemma RoundsInRange(ratios: seq<int>, draw: int)
    requires ratios != []
    ensures 1 <= Rounds(ratios, draw) <= |ratios|
  {
    RoundsFromInRange(ratios, draw, 0);
  }

  lemma {:induction false} RoundsFromInRange(ratios: seq<int>, draw: int, k: nat)
    requires k <= |ratios| && ratios != []
    ensures 1 <= RoundsFrom(ratios, draw, k) <= |ratios|
    decreases |ratios| - k
  {
    if k < |ratios| {
      RoundsFromInRange(ratios, draw, k + 1);
    }
  }

  ghost function DoPush(cfg: Config, s: State, i: nat, text: string, itl: nat, now: real, d: Draw): State
    requires Sized(cfg, s) && i < |s.inFlight|
  {
    var c := s.inFlight[i];
    var u := s.users[c];
    var back := s.(inFlight := RemoveAt(s.inFlight, i),
                   outputTokens := Add(s.outputTokens, u.round, itl + 1), outputs := Add(s.outputs, u.round, 1));
    if u.round + 1 >= u.total then
      back.(users := s.users[c := u.(round := u.round + 1)], place := s.place[c := Finished])
    else
      var users := s.users[c := NextRound(cfg, u, text, now, d)];
      back.(users := users, place := s.place[c := Queued],
            inputTokens := Add(s.inputTokens, u.round + 1, d.promptLen),
            inputs := Add(s.inputs, u.round + 1, 1), queue := Enqueue(users, s.queue, c))
  }

  ghost function DoDrop(cfg: Config, s: State, i: nat): State
    requires Sized(cfg, s) && i < |s.inFlight|
  {
    s.(inFlight := RemoveAt(s.inFlight, i), place := s.place[s.inFlight[i] := Dropped])
  }

  ghost function Step(cfg: Config, s: State, e: Event): State
    requires Sized(cfg, s) && Enabled(cfg, s, e)
  {
    match e
    case Pop(now, d) => DoPop(cfg, s, now, d)
    case Push(i, text, itl, now, d) => DoPush(cfg, s, i, text, itl, now, d)
    case Drop(i) => DoDrop(cfg, s, i)
  }

  // ----- the invariant -----

  ghost predicate PlacesOk(s: State) {
    Located(s.queue, s.place, Queued) && Located(s.inFlight, s.place, InFlight)
  }

  ghost predicate UsersOk(cfg: Config, s: State) {
    && |s.users| == |s.place|
    && forall c :: 0 <= c < |s.users| ==> UserOk(cfg, s.users[c], s.place[c])
  }

  ghost predicate UserOk(cfg: Config, u: User, p: Place) {
    && 1 <= u.total <= |cfg.ratios|
    && (p.Finished? ==> u.round == u.total)
    && (!p.Finished? ==> u.round < u.total)
  }

  /** Who is at round r: queued, in flight or dropped there. */
  ghost function AtRound(s: State, r: nat): seq<int>
    requires |s.users| == |s.place|
  {
    seq(|s.users|, c requires 0 <= c < |s.users| => if s.users[c].round == r && !s.place[c].Finished? then 1 else 0)
  }

  ghost predicate AccountsOk(cfg: Config, s: State)
    requires |s.users| == |s.place|
  {
    && |s.userStats| == |s.inputs| == |s.outputs| == |s.inputTokens| == |s.outputTokens| == |cfg.ratios|
    && Sum(s.userStats) == |s.users|
    && forall r :: 0 <= r < |s.inputs| ==> s.inputs[r] == s.outputs[r] + Sum(AtRound(s, r))
  }

  ghost predicate Inv(cfg: Config, s: State) {
    ConfigOk(cfg) && PlacesOk(s) && UsersOk(cfg, s) && AccountsOk(cfg, s)
  }

  lemma InvSized(cfg: Config, s: State)
    requires Inv(cfg, s)
    ensures Sized(cfg, s)
  {
    assert forall c :: 0 <= c < |s.users| ==> UserOk(cfg, s.users[c], s.place[c]);
  }

  lemma InitInv(cfg: Config)
    requires ConfigOk(cfg)
    ensures Inv(cfg, Init(cfg))
  {
    SumZero(Init(cfg).userStats);
  }

  /** One user's row changes. */
  ghost predicate OnlyChanged(s: State, s': State, c: nat) {
    && c < |s.users| == |s.place| == |s'.users| == |s'.place|
    && s'.users == s.users[c := s'.users[c]]
    && s'.place == s.place[c := s'.place[c]]
  }

  lemma AtRoundChanges(s: State, s': State, c: nat, r: nat)
    requires OnlyChanged(s, s', c)
    ensures Sum(AtRound(s', r)) == Sum(AtRound(s, r)) - AtRound(s, r)[c] + AtRound(s', r)[c]
  {
    SumUpdate(AtRound(s, r), c, AtRound(s', r)[c]);
    assert AtRound(s', r) == AtRound(s, r)[c := AtRound(s', r)[c]];
  }

  lemma UsersKept(cfg: Config, s: State, s': State, c: nat)
    requires UsersOk(cfg, s) && OnlyChanged(s, s', c) && UserOk(cfg, s'.users[c], s'.place[c])
    ensures UsersOk(cfg, s')
  {
  }

  lemma LocatedInsert<P>(ids: seq<nat>, place: seq<P>, p: P, c: nat, k: nat)
    requires Located(ids, place, p) && c < |place| && place[c] != p && k <= |ids|
    ensures Located(InsertAt(ids, k, c), place[c := p], p)
  {
    var q, place' := InsertAt(ids, k, c), place[c := p];
    assert forall i :: 0 <= i < |q| ==> q[i] == if i < k then ids[i] else if i == k then c else ids[i - 1];
    forall x: nat | x < |place'| && place'[x] == p
      ensures x in q
    {
      if x == c {
        assert q[k] == c;
      } else {
        var i :| 0 <= i < |ids| && ids[i] == x;
        assert x == if i < k then q[i] else q[i + 1];
      }
    }
  }

  lemma PopQueuedInv(cfg: Config, s: State, now: real, d: Draw)
    requires Inv(cfg, s) && Sized(cfg, s) && DrawOk(cfg, d) && Due(s, now)
    ensures Inv(cfg, DoPop(cfg, s, now, d))
  {
    var c, s' := s.queue[0], DoPop(cfg, s, now, d);
    LocatedMove(s.queue, s.inFlight, s.place, Queued, InFlight, 0);
    assert RemoveAt(s.queue, 0) == s.queue[1..];
    assert UserOk(cfg, s.users[c], s.place[c]);
    UsersKept(cfg, s, s', c);
    forall r | 0 <= r < |s'.inputs|
      ensures s'.inputs[r] == s'.outputs[r] + Sum(AtRound(s', r))
    {
      AtRoundChanges(s, s', c, r);
    }
  }

  lemma LocatedNew<P>(ids: seq<nat>, place: seq<P>, p: P, q: P)
    requires Located(ids, place, p)
    ensures p == q ==> Located(ids + [|place|], place + [q], p)
    ensures p != q ==> Located(ids, place + [q], p)
  {
    var now := place + [q];
    assert forall c: nat :: c < |place| ==> now[c] == place[c];
    var more := ids + [|place|];
    assert more[|ids|] == |place|;
    assert forall i :: 0 <= i < |ids| ==> more[i] == ids[i];
  }

  lemma NewAccounts(cfg: Config, s: State, now: real, d: Draw, r: nat)
    requires Inv(cfg, s) && Sized(cfg, s) && DrawOk(cfg, d) && !Due(s, now) && r < |s.inputs|
    ensures var s' := DoPop(cfg, s, now, d); s'.inputs[r] == s'.outputs[r] + Sum(AtRound(s', r))
  {
    var s' := DoPop(cfg, s, now, d);
    var one := if r == 0 then 1 else 0;
    assert AtRound(s', r) == AtRound(s, r) + [one];
    SumConcat(AtRound(s, r), [one]);
  }

  lemma PopNewInv(cfg: Config, s: State, now: real, d: Draw)
    requires Inv(cfg, s) && Sized(cfg, s) && DrawOk(cfg, d) && !Due(s, now)
    ensures Inv(cfg, DoPop(cfg, s, now, d))
  {
    var s' := DoPop(cfg, s, now, d);
    var u := NewUser(cfg, |s.users|, d);
    RoundsInRange(cfg.ratios, d.ratio);
    LocatedNew(s.queue, s.place, Queued, InFlight);
    LocatedNew(s.inFlight, s.place, InFlight, InFlight);
    SumUpdate(s.userStats, u.total - 1, s.userStats[u.total - 1] + 1);
    forall c | 0 <= c < |s'.users|
      ensures UserOk(cfg, s'.users[c], s'.place[c])
    {
      if c < |s.users| {
        assert s'.users[c] == s.users[c] && s'.place[c] == s.place[c];
        assert UserOk(cfg, s.users[c], s.place[c]);
      }
    }
    forall r | 0 <= r < |s'.inputs|
      ensures s'.inputs[r] == s'.outputs[r] + Sum(AtRound(s', r))
    {
      NewAccounts(cfg, s, now, d, r);
    }
  }

  lemma PushPlaces(cfg: Config, s: State, i: nat, text: string, itl: nat, now: real, d: Draw)
    requires Sized(cfg, s) && PlacesOk(s) && i < |s.inFlight|
    ensures PlacesOk(DoPush(cfg, s, i, text, itl, now, d))
  {
    var c := s.inFlight[i];
    if s.users[c].round + 1 >= s.users[c].total {
      LocatedRemove(s.inFlight, s.place, InFlight, i, Finished);
      LocatedOther(s.queue, s.place, Queued, c, Finished);
    } else {
      LocatedRemove(s.inFlight, s.place, InFlight, i, Queued);
      var users := s.users[c := NextRound(cfg, s.users[c], text, now, d)];
      var k := if s.queue == [] then 0 else Slot(Starts(users, s.queue), users[c].start, 0);
      LocatedInsert(s.queue, s.place, Queued, c, k);
      assert s.queue == [] ==> InsertAt(s.queue, 0, c) == [c];
    }
  }

  lemma PushAccounts(cfg: Config, s: State, i: nat, text: string, itl: nat, now: real, d: Draw, r: nat)
    requires Sized(cfg, s) && UsersOk(cfg, s) && AccountsOk(cfg, s) && i < |s.inFlight| && r < |s.inputs|
    requires !s.place[s.inFlight[i]].Finished?
    ensures var s' := DoPush(cfg, s, i, text, itl, now, d); s'.inputs[r] == s'.outputs[r] + Sum(AtRound(s', r))
  {
    AtRoundChanges(s, DoPush(cfg, s, i, text, itl, now, d), s.inFlight[i], r);
  }

  lemma PushInv(cfg: Config, s: State, i: nat, text: string, itl: nat, now: real, d: Draw)
    requires Inv(cfg, s) && Sized(cfg, s) && i < |s.inFlight|
    ensures Inv(cfg, DoPush(cfg, s, i, text, itl, now, d))
  {
    var c, s' := s.inFlight[i], DoPush(cfg, s, i, text, itl, now, d);
    PushPlaces(cfg, s, i, text, itl, now, d);
    assert UserOk(cfg, s.users[c], InFlight);
    UsersKept(cfg, s, s', c);
    forall r | 0 <= r < |s'.inputs|
      ensures s'.inputs[r] == s'.outputs[r] + Sum(AtRound(s', r))
    {
      PushAccounts(cfg, s, i, text, itl, now, d, r);
    }
  }

  lemma DropInv(cfg: Config, s: State, i: nat)
    requires Inv(cfg, s) && Sized(cfg, s) && i < |s.inFlight|
    ensures Inv(cfg, DoDrop(cfg, s, i))
  {
    var c, s' := s.inFlight[i], DoDrop(cfg, s, i);
    LocatedRemove(s.inFlight, s.place, InFlight, i, Dropped);
    LocatedOther(s.queue, s.place, Queued, c, Dropped);
    assert UserOk(cfg, s.users[c], InFlight);
    UsersKept(cfg, s, s', c);
    forall r | 0 <= r < |s'.inputs|
      ensures s'.inputs[r] == s'.outputs[r] + Sum(AtRound(s', r))
    {
      AtRoundChanges(s, s', c, r);
    }
  }

  lemma StepInv(cfg: Config, s: State, e: Event)
    requires Inv(cfg, s) && Sized(cfg, s) && Enabled(cfg, s, e)
    ensures Inv(cfg, Step(cfg, s, e))
  {
    match e
    case Pop(now, d) =>
      if Due(s, now) {
        PopQueuedInv(cfg, s, now, d);
      } else {
        PopNewInv(cfg, s, now, d);
      }
    case Push(i, text, itl, now, d) => PushInv(cfg, s, i, text, itl, now, d);
    case Drop(i) => DropInv(cfg, s, i);
  }

  // ----- whole runs -----

  ghost predicate Behaviour(cfg: Config, states: seq<State>, events: seq<Event>) {
    && ConfigOk(cfg)
    && |states| == |events| + 1
    && states[0] == Init(cfg)
    && forall n {:trigger events[n]} :: 0 <= n < |events| ==>
         Sized(cfg, states[n]) && Enabled(cfg, states[n], events[n]) && states[n + 1] == Step(cfg, states[n], events[n])
  }

  lemma {:induction false} Always(cfg: Config, states: seq<State>, events: seq<Event>, n: nat)
    requires Behaviour(cfg, states, events) && n < |states|
    ensures Inv(cfg, states[n])
  {
    if n == 0 {
      InitInv(cfg);
    } else {
      Always(cfg, states, events, n - 1);
      StepInv(cfg, states[n - 1], events[n - 1]);
      assert states[n - 1 + 1] == Step(cfg, states[n - 1], events[n - 1]);
    }
  }

  /** Inputs minus outputs of a round are the users now at that round. */
  lemma Accounts(cfg: Config, states: seq<State>, events: seq<Event>, n: nat, r: nat)
    requires Behaviour(cfg, states, events) && n < |states| && r < |cfg.ratios|
    ensures |states[n].users| == |states[n].place| && |states[n].inputs| == |states[n].outputs| == |cfg.ratios|
    ensures states[n].inputs[r] == states[n].outputs[r] + Sum(AtRound(states[n], r))
    ensures Sum(states[n].userStats) == |states[n].users|
  {
    Always(cfg, states, events, n);
  }

  // ----- token sums -----

  /** Input tokens that a step sends in round r: those of a new user, or of a user's next round. */
  ghost function TokensSent(cfg: Config, s: State, e: Event, r: nat): nat
    requires Sized(cfg, s) && Enabled(cfg, s, e)
  {
    match e
    case Pop(now, d) => if r == 0 && !Due(s, now) then d.promptLen else 0
    case Push(i, _, _, _, d) =>
      var u := s.users[s.inFlight[i]];
      if r == u.round + 1 < u.total then d.promptLen else 0
    case Drop(_) => 0
  }

  /** Output tokens that come back in round r. */
  ghost function TokensReturned(cfg: Config, s: State, e: Event, r: nat): nat
    requires Sized(cfg, s) && Enabled(cfg, s, e)
  {
    if e.Push? && s.users[s.inFlight[e.i]].round == r then e.itl + 1 else 0
  }

  lemma StepTokens(cfg: Config, s: State, e: Event, r: nat)
    requires Sized(cfg, s) && Enabled(cfg, s, e) && r < |cfg.ratios|
    ensures |Step(cfg, s, e).inputTokens| == |Step(cfg, s, e).outputTokens| == |cfg.ratios|
    ensures Step(cfg, s, e).inputTokens[r] == s.inputTokens[r] + TokensSent(cfg, s, e, r)
    ensures Step(cfg, s, e).outputTokens[r] == s.outputTokens[r] + TokensReturned(cfg, s, e, r)
  {
  }

  ghost function AllSent(cfg: Config, states: seq<State>, events: seq<Event>, n: nat, r: nat): nat
    requires Behaviour(cfg, states, events) && n <= |events|
  {
    if n == 0 then 0 else AllSent(cfg, states, events, n - 1, r) + TokensSent(cfg, states[n - 1], events[n - 1], r)
  }

  ghost function AllReturned(cfg: Config, states: seq<State>, events: seq<Event>, n: nat, r: nat): nat
    requires Behaviour(cfg, states, events) && n <= |events|
  {
    if n == 0 then 0
    else AllReturned(cfg, states, events, n - 1, r) + TokensReturned(cfg, states[n - 1], events[n - 1], r)
  }

  /** In each round, the token sums are exactly what was sent and what came back in that round. */
  lemma {:induction false} TokenTotals(cfg: Config, states: seq<State>, events: seq<Event>, n: nat, r: nat)
    requires Behaviour(cfg, states, events) && n <= |events| && r < |cfg.ratios|
    ensures |states[n].inputTokens| == |states[n].outputTokens| == |cfg.ratios|
    ensures states[n].inputTokens[r] == AllSent(cfg, states, events, n, r)
    ensures states[n].outputTokens[r] == AllReturned(cfg, states, events, n, r)
  {
    if n > 0 {
      TokenTotals(cfg, states, events, n - 1, r);
      StepTokens(cfg, states[n - 1], events[n - 1], r);
      assert states[n - 1 + 1] == Step(cfg, states[n - 1], events[n - 1]);
    }
  }

  /** A user leaves the queue only after its start time. */
  lemma ReleasedAfterStart(cfg: Config, states: seq<State>, events: seq<Event>, n: nat, c: nat)
    requires Behaviour(cfg, states, events) && n < |events|
    requires c in states[n].queue && c !in states[n + 1].queue
    ensures c < |states[n].users| && events[n].Pop? && events[n].now > states[n].users[c].start
    ensures c in states[n + 1].inFlight
  {
    Always(cfg, states, events, n);
    var s, s' := states[n], states[n + 1];
    assert s' == Step(cfg, s, events[n]);
    match events[n]
    case Pop(now, d) =>
      if Due(s, now) {
        assert s.queue == [s.queue[0]] + s'.queue;
      }
    case Push(i, text, itl, now, d) =>
      PushKeepsQueued(cfg, s, i, text, itl, now, d, c);
    case Drop(i) =>
  }

  lemma PushKeepsQueued(cfg: Config, s: State, i: nat, text: string, itl: nat, now: real, d: Draw, c: nat)
    requires Sized(cfg, s) && i < |s.inFlight| && c in s.queue
    ensures c in DoPush(cfg, s, i, text, itl, now, d).queue
  {
    var x := s.inFlight[i];
    if s.users[x].round + 1 < s.users[x].total {
      var users := s.users[x := NextRound(cfg, s.users[x], text, now, d)];
      assert c in s.queue;
      var k := Slot(Starts(users, s.queue), users[x].start, 0);
      assert s.queue == s.queue[..k] + s.queue[k..];
    }
  }

  ghost predicate SortedState(s: State) {
    (forall i :: 0 <= i < |s.queue| ==> s.queue[i] < |s.users|) && SortedByStart(s.users, s.queue)
  }

  /** The step puts a user into the queue who does not fit its order. */
  ghost predicate Misplaces(cfg: Config, s: State, e: Event)
    requires Sized(cfg, s) && Enabled(cfg, s, e)
  {
    e.Push? &&
    var u := s.users[s.inFlight[e.i]];
    u.round + 1 < u.total && !FitsOrder(Starts(s.users, s.queue), NextRound(cfg, u, e.text, e.now, e.draw).start)
  }

  lemma PushSorted(cfg: Config, s: State, e: Event)
    requires Inv(cfg, s) && Sized(cfg, s) && Enabled(cfg, s, e) && SortedState(s) && e.Push?
    ensures SortedState(Step(cfg, s, e)) <==> !Misplaces(cfg, s, e)
  {
    var c, s' := s.inFlight[e.i], Step(cfg, s, e);
    assert s.place[c] == InFlight;
    assert Starts(s'.users, s.queue) == Starts(s.users, s.queue);
    if s.users[c].round + 1 < s.users[c].total {
      EnqueueSorted(s'.users, s.queue, c);
    }
  }

  lemma StepSorted(cfg: Config, s: State, e: Event)
    requires Inv(cfg, s) && Sized(cfg, s) && Enabled(cfg, s, e) && SortedState(s)
    ensures SortedState(Step(cfg, s, e)) <==> !Misplaces(cfg, s, e)
  {
    var s' := Step(cfg, s, e);
    if e.Push? {
      PushSorted(cfg, s, e);
    } else if e.Pop? && Due(s, e.now) {
      assert Starts(s'.users, s'.queue) == Starts(s.users, s.queue)[1..];
    } else {
      assert Starts(s'.users, s'.queue) == Starts(s.users, s.queue);
    }
  }

  ghost predicate SortedThrough(states: seq<State>, n: nat)
    requires n < |states|
  {
    forall m :: 0 <= m <= n ==> SortedState(states[m])
  }

  /** None of the first n steps puts a user into the queue who does not fit its order. */
  ghost predicate NoneMisplaced(cfg: Config, states: seq<State>, events: seq<Event>, n: nat)
    requires Behaviour(cfg, states, events) && n < |states|
  {
    n == 0 || (NoneMisplaced(cfg, states, events, n - 1) && !Misplaces(cfg, states[n - 1], events[n - 1]))
  }

  lemma SortedThroughStep(states: seq<State>, n: nat)
    requires 0 < n < |states|
    ensures SortedThrough(states, n) <==> SortedThrough(states, n - 1) && SortedState(states[n])
  {
  }

  lemma RunStepSorted(cfg: Config, states: seq<State>, events: seq<Event>, n: nat)
    requires Behaviour(cfg, states, events) && n < |events| && SortedState(states[n])
    ensures SortedState(states[n + 1]) <==> !Misplaces(cfg, states[n], events[n])
  {
    Always(cfg, states, events, n);
    StepSorted(cfg, states[n], events[n]);
  }

  /** The queue is ordered by start time throughout a run exactly when no push met a queue whose
      users are all due before the pushed one. */
  lemma {:induction false} RunSorted(cfg: Config, states: seq<State>, events: seq<Event>, n: nat)
    requires Behaviour(cfg, states, events) && n < |states|
    ensures SortedThrough(states, n) <==> NoneMisplaced(cfg, states, events, n)
  {
    if n == 0 {
      assert SortedState(states[0]);
    } else {
      RunSorted(cfg, states, events, n - 1);
      SortedThroughStep(states, n);
      if SortedThrough(states, n - 1) {
        RunStepSorted(cfg, states, events, n - 1);
      }
    }
  }

  /** From an ordered queue a pop serves a waiting user whenever one is due, and then the one due
      first. */
  lemma SortedPopServesDue(cfg: Config, s: State, now: real, d: Draw, c: nat)
    requires Inv(cfg, s) && Sized(cfg, s) && DrawOk(cfg, d) && SortedState(s)
    requires c in s.queue && now > s.users[c].start
    ensures var s' := DoPop(cfg, s, now, d);
            && s'.users == s.users
            && exists b :: b in s.queue && s'.inFlight == s.inFlight + [b] && s.users[b].start <= s.users[c].start
  {
    var k :| 0 <= k < |s.queue| && s.queue[k] == c;
    var starts := Starts(s.users, s.queue);
    assert starts[0] <= starts[k];
    assert s.queue[0] in s.queue;
  }

  // ----- the generator object -----

  class UserGenerator {
    const cfg: Config
    var users: seq<User>
    var queue: seq<nat>
    ghost var inFlight: seq<nat>
    ghost var place: seq<Place>
    var userStats: seq<nat>
    var inputTokens: seq<nat>
    var inputs: seq<nat>
    var outputTokens: seq<nat>
    var outputs: seq<nat>

    ghost function Now(): State
      reads this
    {
      State(users, queue, inFlight, place, userStats, inputTokens, inputs, outputTokens, outputs)
    }

    /** What holds in every reachable state. */
    ghost predicate Valid()
      reads this
    {
      Inv(cfg, Now()) && Sized(cfg, Now())
    }

    constructor (cfg: Config)
      requires ConfigOk(cfg)
      ensures this.cfg == cfg && Now() == Init(cfg) && Valid()
    {
      this.cfg := cfg;
      users, queue, inFlight, place := [], [], [], [];
      userStats, inputTokens, inputs := Init(cfg).userStats, Init(cfg).inputTokens, Init(cfg).inputs;
      outputTokens, outputs := Init(cfg).outputTokens, Init(cfg).outputs;
      new;
      InitInv(cfg);
      InvSized(cfg, Now());
    }

    method Gen(d: Draw) returns (c: nat)
      requires Sized(cfg, Now()) && DrawOk(cfg, d)
      modifies this
      ensures c == |old(users)|
      ensures forall now: real :: !old(Due(Now(), now)) ==> Now() == DoPop(cfg, old(Now()), now, d)
    {
      c := |users|;
      var total := ChooseRounds(cfg.ratios, d.ratio);
      inputTokens := Add(inputTokens, 0, d.promptLen);
      inputs := Add(inputs, 0, 1);
      var prompt := Decimal(c) + " " + d.text;
      var returnTokens := d.tokens;
      if returnTokens <= 0 {
        returnTokens := cfg.meanReturn[0];
      }
      userStats := Add(userStats, total - 1, 1);
      users := users + [User(0, total, prompt, returnTokens, 0.0)];
      inFlight, place := inFlight + [c], place + [InFlight];
    }

    method PopUser(now: real, d: Draw) returns (c: nat)
      requires Sized(cfg, Now()) && DrawOk(cfg, d)
      modifies this
      ensures Now() == DoPop(cfg, old(Now()), now, d) && inFlight == old(inFlight) + [c]
    {
      if |queue| > 0 && now > users[queue[0]].start {
        c := queue[0];
        queue := queue[1..];
        inFlight, place := inFlight + [c], place[c := InFlight];
      } else {
        c := Gen(d);
      }
    }

    /** Insert user c into the waiting queue. */
    method InsertUser(c: nat)
      requires c < |users| && forall i :: 0 <= i < |queue| ==> queue[i] < |users|
      modifies this`queue
      ensures queue == Enqueue(users, old(queue), c)
    {
      if |queue| == 0 {
        queue := queue + [c];
      } else {
        var idx := 0;
        while idx < |queue| - 1 && !(users[c].start < users[queue[idx]].start)
          invariant idx < |queue|
          invariant Slot(Starts(users, queue), users[c].start, 0) == Slot(Starts(users, queue), users[c].start, idx)
        {
          idx := idx + 1;
        }
        queue := InsertAt(queue, idx, c);
      }
    }

    /** The response of user c, in flight as number i. */
    method PushUser(c: nat, ghost i: nat, text: string, itl: nat, now: real, d: Draw)
      requires Sized(cfg, Now()) && i < |inFlight| && c == inFlight[i]
      modifies this
      ensures Now() == DoPush(cfg, old(Now()), i, text, itl, now, d)
    {
      var u := users[c];
      outputTokens := Add(outputTokens, u.round, itl + 1);
      outputs := Add(outputs, u.round, 1);
      inFlight := RemoveAt(inFlight, i);
      if u.round + 1 >= u.total {
        users := users[c := u.(round := u.round + 1)];
        place := place[c := Finished];
        return;
      }
      inputTokens := Add(inputTokens, u.round + 1, d.promptLen);
      inputs := Add(inputs, u.round + 1, 1);
      users := users[c := NextRound(cfg, u, text, now, d)];
      place := place[c := Queued];
      InsertUser(c);
    }

    /** One call of the generator, or a failed request: any enabled step is carried out by the
        methods above and keeps the object valid. A pushed user is the one in flight. */
    method TakeTurn(e: Event, user: nat)
      requires Valid() && Enabled(cfg, Now(), e)
      requires e.Push? ==> user == inFlight[e.i]
      modifies this
      ensures Valid() && Now() == Step(cfg, old(Now()), e)
    {
      StepInv(cfg, Now(), e);
      InvSized(cfg, Step(cfg, Now(), e));
      match e
      case Pop(now, d) => var c := PopUser(now, d);
      case Push(i, text, itl, now, d) => PushUser(user, i, text, itl, now, d);
      case Drop(i) =>
        place := place[inFlight[i] := Dropped];
        inFlight := RemoveAt(inFlight, i);
    }
  }
}
