/** What the mixed benchmark's users carry and count, in terms of what happened: prompts, return
    tokens and start times follow from the answers and the draws, counters from the users. */
module UserRecord {
  import opened Base
  import opened UserQueue

  /** The draw of the call that created user c, among the first n steps: the users number c, and
      nobody in the queue is due. */
  ghost function CreatedBy(states: seq<State>, events: seq<Event>, n: nat, c: nat): Option<Draw>
    requires n <= |events| < |states|
  {
    if n == 0 then None
    else
      var s, e := states[n - 1], events[n - 1];
      if e.Pop? && |s.users| == c && (s.queue != [] && s.queue[0] < c ==> e.now <= s.users[s.queue[0]].start)
      then Some(e.draw)
      else CreatedBy(states, events, n - 1, c)
  }

  /** The answers to user c among the first n steps, in order. */
  ghost function PushesOf(states: seq<State>, events: seq<Event>, n: nat, c: nat): (ps: seq<Event>)
    requires n <= |events| < |states|
    ensures forall k :: 0 <= k < |ps| ==> ps[k].Push?
  {
    if n == 0 then []
    else
      var before, s, e := PushesOf(states, events, n - 1, c), states[n - 1], events[n - 1];
      if e.Push? && e.i < |s.inFlight| && s.inFlight[e.i] == c then before + [e] else before
  }

  /** Answers and the texts drawn after them. */
  ghost function Exchange(ps: seq<Event>): string
    requires forall k :: 0 <= k < |ps| ==> ps[k].Push?
  {
    if ps == [] then "" else
      var p := ps[|ps| - 1];
      Exchange(ps[..|ps| - 1]) + p.text + p.draw.text
  }

  /** The user after its creation with draw d and the answers ps: the last answer of the last round
      leaves prompt, return tokens and start as they were. */
  ghost predicate UserIs(cfg: Config, u: User, c: nat, d: Draw, ps: seq<Event>)
    requires ConfigOk(cfg) && forall k :: 0 <= k < |ps| ==> ps[k].Push?
  {
    && u.total == Rounds(cfg.ratios, d.ratio)
    && u.round == |ps| <= u.total <= |cfg.ratios|
    && var k := if |ps| < u.total then |ps| else |ps| - 1;
       && k >= 0
       && u.prompt == Decimal(c) + " " + d.text + Exchange(ps[..k])
       && (k == 0 ==>
             && u.returnTokens == (if d.tokens > 0 then d.tokens else cfg.meanReturn[0])
             && u.start == 0.0)
       && (k > 0 ==>
             var last := ps[k - 1];
             && u.returnTokens == (if last.draw.tokens > 0 then last.draw.tokens else cfg.meanReturn[k])
             && u.start == last.now + if last.draw.interval > 0.0 then last.draw.interval else cfg.meanInterval[k])
  }

  lemma NewUserIs(cfg: Config, c: nat, d: Draw)
    requires ConfigOk(cfg)
    ensures UserIs(cfg, NewUser(cfg, c, d), c, d, [])
  {
    RoundsInRange(cfg.ratios, d.ratio);
  }

  /** An answer before the last round. */
  lemma NextRoundIs(cfg: Config, u: User, c: nat, d: Draw, ps: seq<Event>, e: Event)
    requires ConfigOk(cfg) && (forall k :: 0 <= k < |ps| ==> ps[k].Push?) && e.Push?
    requires UserIs(cfg, u, c, d, ps) && u.round + 1 < u.total
    ensures UserIs(cfg, NextRound(cfg, u, e.text, e.now, e.draw), c, d, ps + [e])
  {
    var more := ps + [e];
    assert ps[..|ps|] == ps && more[..|more|] == more && more[..|ps|] == ps;
  }

  /** The answer of the last round. */
  lemma LastRoundIs(cfg: Config, u: User, c: nat, d: Draw, ps: seq<Event>, e: Event)
    requires ConfigOk(cfg) && (forall k :: 0 <= k < |ps| ==> ps[k].Push?) && e.Push?
    requires UserIs(cfg, u, c, d, ps) && u.round + 1 == u.total
    ensures UserIs(cfg, u.(round := u.round + 1), c, d, ps + [e])
  {
    assert ps[..|ps|] == ps && (ps + [e])[..|ps|] == ps;
  }

  lemma RunStep(cfg: Config, states: seq<State>, events: seq<Event>, n: nat)
    requires Behaviour(cfg, states, events) && n < |events|
    ensures Sized(cfg, states[n]) && Enabled(cfg, states[n], events[n]) && Sized(cfg, states[n + 1])
    ensures states[n + 1] == Step(cfg, states[n], events[n])
  {
    assert states[n + 1] == Step(cfg, states[n], events[n]);
    Always(cfg, states, events, n + 1);
    InvSized(cfg, states[n + 1]);
  }

  /** Users are only added, and other than by an answer to it no user changes. */
  lemma StepUsers(cfg: Config, s: State, e: Event, c: nat)
    requires Sized(cfg, s) && Enabled(cfg, s, e) && c < |Step(cfg, s, e).users|
    ensures c <= |s.users|
    ensures c == |s.users| ==> e.Pop? && !Due(s, e.now) && Step(cfg, s, e).users[c] == NewUser(cfg, c, e.draw)
    ensures c < |s.users| && !(e.Push? && s.inFlight[e.i] == c) ==> Step(cfg, s, e).users[c] == s.users[c]
    ensures c < |s.users| && e.Push? && s.inFlight[e.i] == c ==>
              var u := s.users[c];
              Step(cfg, s, e).users[c] == if u.round + 1 < u.total then NextRound(cfg, u, e.text, e.now, e.draw)
                                          else u.(round := u.round + 1)
  {
  }

  ghost predicate Carries(cfg: Config, states: seq<State>, events: seq<Event>, n: nat, c: nat)
    requires ConfigOk(cfg) && n <= |events| < |states| && c < |states[n].users|
  {
    && CreatedBy(states, events, n, c).Some?
    && UserIs(cfg, states[n].users[c], c, CreatedBy(states, events, n, c).value, PushesOf(states, events, n, c))
  }

  lemma {:induction false} NoPushesYet(cfg: Config, states: seq<State>, events: seq<Event>, n: nat, c: nat)
    requires Behaviour(cfg, states, events) && n <= |events| && |states[n].users| <= c
    ensures PushesOf(states, events, n, c) == []
  {
    if n > 0 {
      RunStep(cfg, states, events, n - 1);
      assert |states[n - 1].users| <= |states[n].users|;
      NoPushesYet(cfg, states, events, n - 1, c);
    }
  }

  lemma CreationCarries(cfg: Config, states: seq<State>, events: seq<Event>, n: nat, c: nat)
    requires Behaviour(cfg, states, events) && n < |events| && c < |states[n + 1].users| && c == |states[n].users|
    ensures Carries(cfg, states, events, n + 1, c)
  {
    RunStep(cfg, states, events, n);
    StepUsers(cfg, states[n], events[n], c);
    NoPushesYet(cfg, states, events, n, c);
    NewUserIs(cfg, c, events[n].draw);
  }

  lemma StepCarries(cfg: Config, states: seq<State>, events: seq<Event>, n: nat, c: nat)
    requires Behaviour(cfg, states, events) && n < |events| && c < |states[n + 1].users| && c < |states[n].users|
    requires Carries(cfg, states, events, n, c)
    ensures Carries(cfg, states, events, n + 1, c)
  {
    RunStep(cfg, states, events, n);
    var s, e := states[n], events[n];
    var d, ps := CreatedBy(states, events, n, c).value, PushesOf(states, events, n, c);
    StepUsers(cfg, s, e, c);
    if e.Push? && s.inFlight[e.i] == c {
      if s.users[c].round + 1 < s.users[c].total {
        NextRoundIs(cfg, s.users[c], c, d, ps, e);
      } else {
        LastRoundIs(cfg, s.users[c], c, d, ps, e);
      }
    }
  }

  /** Every run: a user's round, prompt, return tokens and start are what its creation and the
      answers to it make them. */
  lemma {:induction false} UsersCarry(cfg: Config, states: seq<State>, events: seq<Event>, n: nat, c: nat)
    requires Behaviour(cfg, states, events) && n <= |events| && c < |states[n].users|
    ensures Carries(cfg, states, events, n, c)
  {
    if n > 0 {
      RunStep(cfg, states, events, n - 1);
      StepUsers(cfg, states[n - 1], events[n - 1], c);
      if c < |states[n - 1].users| {
        UsersCarry(cfg, states, events, n - 1, c);
        StepCarries(cfg, states, events, n - 1, c);
      } else {
        CreationCarries(cfg, states, events, n - 1, c);
      }
    }
  }

  // ----- the id in front of the prompt -----

  /** The value of a decimal numeral. */
  function Value(digits: string): nat {
    if digits == "" then 0
    else
      var x := digits[|digits| - 1];
      10 * Value(digits[..|digits| - 1]) + if '0' <= x <= '9' then (x as int) - ('0' as int) else 0
  }

  /** The id is written in digits, without leading zeros, and reads back. */
  lemma {:induction false} DecimalReads(n: nat)
    ensures Decimal(n) != "" && Value(Decimal(n)) == n && (n > 0 ==> Decimal(n)[0] != '0')
    ensures forall k :: 0 <= k < |Decimal(n)| ==> '0' <= Decimal(n)[k] <= '9'
  {
    var digits := "0123456789";
    assert forall k :: 0 <= k < 10 ==> digits[k] == ('0' as int + k) as char;
    if n >= 10 {
      DecimalReads(n / 10);
      assert Decimal(n)[..|Decimal(n)| - 1] == Decimal(n / 10);
    }
  }

  // ----- the counters -----

  /** Who has been answered in round r. */
  ghost function Answered(users: seq<User>, r: nat): seq<int> {
    seq(|users|, c requires 0 <= c < |users| => if users[c].round > r then 1 else 0)
  }

  /** Who has entered round r. */
  ghost function Entered(users: seq<User>, r: nat): seq<int> {
    seq(|users|, c requires 0 <= c < |users| => if users[c].round >= r && users[c].total > r then 1 else 0)
  }

  /** Who was created for k rounds. */
  ghost function Planned(users: seq<User>, k: nat): seq<int> {
    seq(|users|, c requires 0 <= c < |users| => if users[c].total == k then 1 else 0)
  }

  ghost predicate Counts(s: State) {
    && (forall r :: 0 <= r < |s.outputs| ==> s.outputs[r] == Sum(Answered(s.users, r)))
    && (forall k :: 0 <= k < |s.userStats| ==> s.userStats[k] == Sum(Planned(s.users, k + 1)))
  }

  lemma CountsOfNew(users: seq<User>, u: User, r: nat, k: nat)
    ensures Sum(Answered(users + [u], r)) == Sum(Answered(users, r)) + if u.round > r then 1 else 0
    ensures Sum(Planned(users + [u], k)) == Sum(Planned(users, k)) + if u.total == k then 1 else 0
  {
    assert Answered(users + [u], r)[..|users|] == Answered(users, r);
    assert Planned(users + [u], k)[..|users|] == Planned(users, k);
  }

  lemma CountsOfChanged(users: seq<User>, c: nat, u: User, r: nat, k: nat)
    requires c < |users| && u.total == users[c].total && u.round == users[c].round + 1
    ensures Sum(Answered(users[c := u], r)) == Sum(Answered(users, r)) + if users[c].round == r then 1 else 0
    ensures Sum(Planned(users[c := u], k)) == Sum(Planned(users, k))
  {
    var v := if u.round > r then 1 else 0;
    SumUpdate(Answered(users, r), c, v);
    assert Answered(users[c := u], r) == Answered(users, r)[c := v];
    assert Planned(users[c := u], k) == Planned(users, k);
  }

  lemma PopCounts(cfg: Config, s: State, now: real, d: Draw)
    requires Sized(cfg, s) && DrawOk(cfg, d) && Counts(s)
    ensures Counts(DoPop(cfg, s, now, d))
  {
    var s' := DoPop(cfg, s, now, d);
    if !Due(s, now) {
      RoundsInRange(cfg.ratios, d.ratio);
      var u := NewUser(cfg, |s.users|, d);
      forall r | 0 <= r < |s'.outputs|
        ensures s'.outputs[r] == Sum(Answered(s'.users, r))
      {
        CountsOfNew(s.users, u, r, 0);
      }
      forall k | 0 <= k < |s'.userStats|
        ensures s'.userStats[k] == Sum(Planned(s'.users, k + 1))
      {
        CountsOfNew(s.users, u, 0, k + 1);
      }
    }
  }

  lemma PushCounts(cfg: Config, s: State, e: Event)
    requires Sized(cfg, s) && e.Push? && e.i < |s.inFlight| && Counts(s)
    ensures Counts(DoPush(cfg, s, e.i, e.text, e.itl, e.now, e.draw))
  {
    var s', c := DoPush(cfg, s, e.i, e.text, e.itl, e.now, e.draw), s.inFlight[e.i];
    forall r | 0 <= r < |s'.outputs|
      ensures s'.outputs[r] == Sum(Answered(s'.users, r))
    {
      CountsOfChanged(s.users, c, s'.users[c], r, 0);
    }
    forall k | 0 <= k < |s'.userStats|
      ensures s'.userStats[k] == Sum(Planned(s'.users, k + 1))
    {
      CountsOfChanged(s.users, c, s'.users[c], 0, k + 1);
    }
  }

  lemma {:induction false} RunCounts(cfg: Config, states: seq<State>, events: seq<Event>, n: nat)
    requires Behaviour(cfg, states, events) && n <= |events|
    ensures Counts(states[n])
  {
    if n == 0 {
      forall r: nat
        ensures Sum(Answered([], r)) == 0 && Sum(Planned([], r)) == 0
      {
      }
    } else {
      RunCounts(cfg, states, events, n - 1);
      RunStep(cfg, states, events, n - 1);
      var s, e := states[n - 1], events[n - 1];
      match e
      case Pop(now, d) => PopCounts(cfg, s, now, d);
      case Push(_, _, _, _, _) => PushCounts(cfg, s, e);
      case Drop(_) =>
    }
  }

  lemma {:induction false} SumPointwise(a: seq<int>, b: seq<int>, c: seq<int>)
    requires |a| == |b| == |c| && forall i :: 0 <= i < |a| ==> c[i] == a[i] + b[i]
    ensures Sum(c) == Sum(a) + Sum(b)
  {
    if a != [] {
      var n := |a| - 1;
      SumPointwise(a[..n], b[..n], c[..n]);
    }
  }

  lemma EnteredSum(cfg: Config, s: State, r: nat)
    requires |s.users| == |s.place| && UsersOk(cfg, s)
    ensures Sum(Entered(s.users, r)) == Sum(Answered(s.users, r)) + Sum(AtRound(s, r))
  {
    forall c | 0 <= c < |s.users|
      ensures Entered(s.users, r)[c] == Answered(s.users, r)[c] + AtRound(s, r)[c]
    {
      assert UserOk(cfg, s.users[c], s.place[c]);
    }
    SumPointwise(Answered(s.users, r), AtRound(s, r), Entered(s.users, r));
  }

  /** Every run: in each round the inputs count the users that have entered it and the outputs those
      that have been answered in it; the user statistics count the users by planned rounds. */
  lemma CountersAreUsers(cfg: Config, states: seq<State>, events: seq<Event>, n: nat, r: nat)
    requires Behaviour(cfg, states, events) && n <= |events| && r < |cfg.ratios|
    ensures var s := states[n];
            && |s.inputs| == |s.outputs| == |s.userStats| == |cfg.ratios|
            && s.inputs[r] == Sum(Entered(s.users, r)) && s.outputs[r] == Sum(Answered(s.users, r))
            && s.userStats[r] == Sum(Planned(s.users, r + 1))
  {
    RunCounts(cfg, states, events, n);
    Always(cfg, states, events, n);
    Accounts(cfg, states, events, n, r);
    EnteredSum(cfg, states[n], r);
  }
}
