/** The dashboard's metrics cache: any number of threads may ask for a refresh, one at a time
    fetches, and readers take a data and time pair under the lock. */
module MetricsCache {
  import opened Base

  const CACHE_TTL := 300.0

  /** Where a refreshing thread is: before the claim, fetching, holding fetched data, about to
      clear the flag, finished. */
  datatype Thread<Data> = Arriving | Fetching | Fetched(data: Data) | Releasing | Gone

  /** `fetches` and `stores` record the completed fetches and the stored pairs. */
  datatype State<Data> = State(
    data: Data,
    lastUpdated: Option<real>,
    updating: bool,
    threads: seq<Thread<Data>>,
    fetches: seq<Data>,
    stores: seq<(Data, real)>)

  datatype Event<Data> =
    | Refresh                          // a refresh request or the periodic loop starts a thread
    | Claim(i: nat)
    | FetchSucceeds(i: nat, fetched: Data)
    | FetchFails(i: nat)
    | Store(i: nat, now: real)
    | Release(i: nat)
    | Read(now: real)                  // a metrics request

  function Init<Data>(empty: Data): State<Data> {
    State(empty, None, false, [], [], [])
  }

  /** The pair is fresh: it was stored, at a time other than zero, less than five minutes ago. */
  predicate Fresh(lastUpdated: Option<real>, now: real) {
    lastUpdated.Some? && lastUpdated.value != 0.0 && now - lastUpdated.value < CACHE_TTL
  }

  predicate Enabled<Data>(s: State<Data>, e: Event<Data>) {
    match e
    case Refresh => true
    case Claim(i) => i < |s.threads| && s.threads[i].Arriving?
    case FetchSucceeds(i, _) => i < |s.threads| && s.threads[i].Fetching?
    case FetchFails(i) => i < |s.threads| && s.threads[i].Fetching?
    case Store(i, _) => i < |s.threads| && s.threads[i].Fetched?
    case Release(i) => i < |s.threads| && s.threads[i].Releasing?
    case Read(_) => true
  }

  function Step<Data>(s: State<Data>, e: Event<Data>): State<Data>
    requires Enabled(s, e)
  {
    match e
    case Refresh => s.(threads := s.threads + [Arriving])
    case Claim(i) =>
      if s.updating then s.(threads := s.threads[i := Gone])
      else s.(threads := s.threads[i := Fetching], updating := true)
    case FetchSucceeds(i, fetched) => s.(threads := s.threads[i := Fetched(fetched)], fetches := s.fetches + [fetched])
    case FetchFails(i) => s.(threads := s.threads[i := Releasing])
    case Store(i, now) =>
      var data := s.threads[i].data;
      s.(threads := s.threads[i := Releasing], data := data, lastUpdated := Some(now),
         stores := s.stores + [(data, now)])
    case Release(i) => s.(threads := s.threads[i := Gone], updating := false)
    case Read(now) => if Fresh(s.lastUpdated, now) then s else s.(threads := s.threads + [Arriving])
  }

  // ----- the invariant -----

  /** Between the claim and the release of the flag. */
  predicate Holds<Data>(t: Thread<Data>) {
    t.Fetching? || t.Fetched? || t.Releasing?
  }

  ghost predicate SingleFlight<Data>(s: State<Data>) {
    && (forall i, j :: 0 <= i < j < |s.threads| ==> !(Holds(s.threads[i]) && Holds(s.threads[j])))
    && (s.updating <==> exists i :: 0 <= i < |s.threads| && Holds(s.threads[i]))
  }

  /** Every fetch completed so far was stored, in order, or is held by the fetching thread. */
  ghost predicate StoresAreFetches<Data>(s: State<Data>) {
    && |s.stores| <= |s.fetches| <= |s.stores| + 1
    && (forall k :: 0 <= k < |s.stores| ==> s.stores[k].0 == s.fetches[k])
    && (forall i :: 0 <= i < |s.threads| && s.threads[i].Fetched? ==>
         |s.fetches| == |s.stores| + 1 && s.fetches[|s.stores|] == s.threads[i].data)
    && (|s.fetches| == |s.stores| + 1 ==> exists i :: 0 <= i < |s.threads| && s.threads[i].Fetched?)
  }

  ghost predicate PairOk<Data>(empty: Data, s: State<Data>) {
    if s.stores == [] then s.data == empty && s.lastUpdated == None
    else s.data == s.stores[|s.stores| - 1].0 && s.lastUpdated == Some(s.stores[|s.stores| - 1].1)
  }

  ghost predicate Inv<Data>(empty: Data, s: State<Data>) {
    SingleFlight(s) && StoresAreFetches(s) && PairOk(empty, s)
  }

  lemma StepSingleFlight<Data>(s: State<Data>, e: Event<Data>)
    requires SingleFlight(s) && Enabled(s, e)
    ensures SingleFlight(Step(s, e))
  {
    var s' := Step(s, e);
    if e.Refresh? || e.Read? {
      assert forall i :: 0 <= i < |s.threads| ==> s'.threads[i] == s.threads[i];
      if s.updating {
        var i :| 0 <= i < |s.threads| && Holds(s.threads[i]);
        assert Holds(s'.threads[i]);
      }
    } else {
      assert forall k :: 0 <= k < |s.threads| && k != e.i ==> s'.threads[k] == s.threads[k];
      assert s'.threads[e.i] == s'.threads[e.i];
      if s.updating && e.Claim? {
        var h :| 0 <= h < |s.threads| && Holds(s.threads[h]);
        assert Holds(s'.threads[h]);
      }
    }
  }

  lemma StepStores<Data>(s: State<Data>, e: Event<Data>)
    requires SingleFlight(s) && StoresAreFetches(s) && Enabled(s, e)
    ensures StoresAreFetches(Step(s, e))
  {
    var s' := Step(s, e);
    if |s.fetches| == |s.stores| + 1 {
      var h :| 0 <= h < |s.threads| && s.threads[h].Fetched?;
      assert Holds(s.threads[h]);
      if e.Refresh? || e.Read? {
        assert s'.threads[h] == s.threads[h];
      } else if e.i != h {
        assert s'.threads[h] == s.threads[h];
        assert e.Claim?;
      }
    }
    if e.Refresh? || e.Read? {
      assert forall i :: 0 <= i < |s.threads| ==> s'.threads[i] == s.threads[i];
    } else {
      assert forall k :: 0 <= k < |s.threads| && k != e.i ==> s'.threads[k] == s.threads[k];
      if e.FetchSucceeds? {
        assert s'.threads[e.i].Fetched?;
        assert Holds(s.threads[e.i]);
      }
    }
  }

  lemma StepInv<Data>(empty: Data, s: State<Data>, e: Event<Data>)
    requires Inv(empty, s) && Enabled(s, e)
    ensures Inv(empty, Step(s, e))
  {
    StepSingleFlight(s, e);
    StepStores(s, e);
  }

  // ----- whole runs -----

  ghost predicate Behaviour<Data>(empty: Data, states: seq<State<Data>>, events: seq<Event<Data>>) {
    && |states| == |events| + 1
    && states[0] == Init(empty)
    && forall n {:trigger events[n]} :: 0 <= n < |events| ==>
         Enabled(states[n], events[n]) && states[n + 1] == Step(states[n], events[n])
  }

  lemma {:induction false} Always<Data>(empty: Data, states: seq<State<Data>>, events: seq<Event<Data>>, n: nat)
    requires Behaviour(empty, states, events) && n < |states|
    ensures Inv(empty, states[n])
  {
    if n > 0 {
      Always(empty, states, events, n - 1);
      StepInv(empty, states[n - 1], events[n - 1]);
      assert states[n - 1 + 1] == Step(states[n - 1], events[n - 1]);
    }
  }

  /** At most one thread is between claim and release, and the flag is set exactly then. */
  lemma OneFetcher<Data>(empty: Data, states: seq<State<Data>>, events: seq<Event<Data>>, n: nat, i: nat, j: nat)
    requires Behaviour(empty, states, events) && n < |states|
    requires i < |states[n].threads| && j < |states[n].threads|
    ensures Holds(states[n].threads[i]) && Holds(states[n].threads[j]) ==> i == j
    ensures Holds(states[n].threads[i]) ==> states[n].updating
    ensures states[n].updating ==> exists k :: 0 <= k < |states[n].threads| && Holds(states[n].threads[k])
  {
    Always(empty, states, events, n);
  }

  /** What a reader sees is the initial pair or the latest stored one, whose data one completed
      fetch returned; the k-th pair stored came from the k-th completed fetch. */
  lemma ReadersSeeOneFetch<Data>(empty: Data, states: seq<State<Data>>, events: seq<Event<Data>>, n: nat)
    requires Behaviour(empty, states, events) && n < |states|
    ensures var s := states[n];
      || (s.data == empty && s.lastUpdated == None && s.stores == [])
      || (0 < |s.stores| <= |s.fetches| && s.data == s.fetches[|s.stores| - 1]
          && s.lastUpdated == Some(s.stores[|s.stores| - 1].1))
  {
    Always(empty, states, events, n);
  }

  /** The pair changes only when the one holding thread stores. */
  lemma OnlyHolderWrites<Data>(empty: Data, states: seq<State<Data>>, events: seq<Event<Data>>, n: nat)
    requires Behaviour(empty, states, events) && n < |events|
    requires states[n + 1].lastUpdated != states[n].lastUpdated || states[n + 1].data != states[n].data
    ensures events[n].Store? && events[n].i < |states[n].threads| && states[n].updating
    ensures forall k :: 0 <= k < |states[n].threads| && Holds(states[n].threads[k]) ==> k == events[n].i
  {
    Always(empty, states, events, n);
    assert Enabled(states[n], events[n]) && states[n + 1] == Step(states[n], events[n]);
    assert Holds(states[n].threads[events[n].i]);
  }

  /** With no thread between claim and release the next claim succeeds: no failure leaves the
      cache locked. */
  lemma ClaimSucceedsWhenFree<Data>(empty: Data, states: seq<State<Data>>, events: seq<Event<Data>>, n: nat, i: nat)
    requires Behaviour(empty, states, events) && n < |states| && Enabled(states[n], Claim(i))
    ensures Step(states[n], Claim(i)).threads[i].Fetching? <==>
              forall k :: 0 <= k < |states[n].threads| ==> !Holds(states[n].threads[k])
  {
    Always(empty, states, events, n);
  }

  // ----- in terms of the events -----

  /** The time of the last store among the first n steps. */
  function StoredAt<Data>(events: seq<Event<Data>>, n: nat): Option<real>
    requires n <= |events|
  {
    if n == 0 then None
    else if events[n - 1].Store? then Some(events[n - 1].now)
    else StoredAt(events, n - 1)
  }

  /** What the last successful fetch among the first n steps returned. */
  function LastFetched<Data>(events: seq<Event<Data>>, n: nat): Option<Data>
    requires n <= |events|
  {
    if n == 0 then None
    else if events[n - 1].FetchSucceeds? then Some(events[n - 1].fetched)
    else LastFetched(events, n - 1)
  }

  /** What readers get after n steps: what the last fetch before the last store returned. */
  function Served<Data>(empty: Data, events: seq<Event<Data>>, n: nat): Data
    requires n <= |events|
  {
    if n == 0 then empty
    else if events[n - 1].Store? && LastFetched(events, n - 1).Some? then LastFetched(events, n - 1).value
    else Served(empty, events, n - 1)
  }

  /** A thread that holds fetched data holds what the last fetch returned. */
  ghost predicate HoldsLast<Data>(s: State<Data>, last: Option<Data>) {
    forall i :: 0 <= i < |s.threads| && s.threads[i].Fetched? ==> last == Some(s.threads[i].data)
  }

  lemma StepHoldsLast<Data>(s: State<Data>, e: Event<Data>, last: Option<Data>)
    requires SingleFlight(s) && Enabled(s, e) && HoldsLast(s, last)
    ensures HoldsLast(Step(s, e), if e.FetchSucceeds? then Some(e.fetched) else last)
  {
    if e.FetchSucceeds? {
      assert Holds(s.threads[e.i]);
      assert forall k :: 0 <= k < |s.threads| && k != e.i ==> !Holds(s.threads[k]);
    }
  }

  lemma {:induction false} PairFromEvents<Data>(empty: Data, states: seq<State<Data>>, events: seq<Event<Data>>, n: nat)
    requires Behaviour(empty, states, events) && n <= |events|
    ensures states[n].lastUpdated == StoredAt(events, n) && states[n].data == Served(empty, events, n)
    ensures HoldsLast(states[n], LastFetched(events, n))
  {
    if n > 0 {
      PairFromEvents(empty, states, events, n - 1);
      Always(empty, states, events, n - 1);
      assert states[n - 1 + 1] == Step(states[n - 1], events[n - 1]);
      StepHoldsLast(states[n - 1], events[n - 1], LastFetched(events, n - 1));
    }
  }

  /** A read starts a refresh exactly when nothing was stored, or the last store was at time zero or
      at least 300 seconds ago; what it gets is what the last fetch before that store returned. */
  lemma ReadRefreshes<Data>(empty: Data, states: seq<State<Data>>, events: seq<Event<Data>>, n: nat)
    requires Behaviour(empty, states, events) && n < |events| && events[n].Read?
    ensures var at := StoredAt(events, n);
            |states[n + 1].threads| == |states[n].threads| + 1 <==>
              at.None? || at.value == 0.0 || events[n].now - at.value >= 300.0
    ensures states[n + 1].data == states[n].data == Served(empty, events, n)
  {
    PairFromEvents(empty, states, events, n);
    assert states[n + 1] == Step(states[n], events[n]);
  }

  /** The shared dictionary; each method is one critical section of the lock. */
  class Cache<Data> {
    var data: Data
    var lastUpdated: Option<real>
    var updating: bool
    ghost var threads: seq<Thread<Data>>
    ghost var fetches: seq<Data>
    ghost var stores: seq<(Data, real)>
    ghost const empty: Data

    /** What holds in every reachable state. */
    ghost predicate Valid()
      reads this
    {
      Inv(empty, Now())
    }

    ghost function Now(): State<Data>
      reads this
    {
      State(data, lastUpdated, updating, threads, fetches, stores)
    }

    constructor (empty: Data)
      ensures this.empty == empty && Now() == Init(empty) && Valid()
    {
      this.empty := empty;
      data, lastUpdated, updating := empty, None, false;
      threads, fetches, stores := [], [], [];
    }

    method TryClaim(ghost i: nat) returns (claimed: bool)
      requires Enabled(Now(), Claim(i))
      modifies this
      ensures Now() == Step(old(Now()), Claim(i)) && claimed == threads[i].Fetching?
    {
      if updating {
        threads := threads[i := Gone];
        return false;
      }
      updating := true;
      threads := threads[i := Fetching];
      return true;
    }

    method StoreFetched(fetched: Data, now: real, ghost i: nat)
      requires Enabled(Now(), Store(i, now)) && threads[i].data == fetched
      modifies this
      ensures Now() == Step(old(Now()), Store(i, now))
    {
      data := fetched;
      lastUpdated := Some(now);
      threads := threads[i := Releasing];
      stores := stores + [(fetched, now)];
    }

    method ReleaseFlag(ghost i: nat)
      requires Enabled(Now(), Release(i))
      modifies this
      ensures Now() == Step(old(Now()), Release(i))
    {
      updating := false;
      threads := threads[i := Gone];
    }

    /** The data to send, and whether a background refresh starts. */
    method ReadMetrics(now: real) returns (seen: Data, refresh: bool)
      modifies this
      ensures Now() == Step(old(Now()), Read(now)) && seen == old(data)
      ensures refresh <==> !Fresh(old(lastUpdated), now)
    {
      var valid := lastUpdated.Some? && lastUpdated.value != 0.0 && now - lastUpdated.value < CACHE_TTL;
      seen := data;
      refresh := !valid;
      if refresh {
        threads := threads + [Arriving];
      }
    }

    /** One step of any thread: any enabled step is carried out by the methods above and keeps
        the object valid. Steps outside the lock change the record only; a stored value is the
        one that the thread has fetched. */
    method TakeTurn(e: Event<Data>, fetched: Data)
      requires Valid() && Enabled(Now(), e)
      requires e.Store? ==> fetched == threads[e.i].data
      modifies this
      ensures Valid() && Now() == Step(old(Now()), e)
    {
      StepInv(empty, Now(), e);
      match e
      case Refresh => threads := threads + [Arriving];
      case Claim(i) => var claimed := TryClaim(i);
      case FetchSucceeds(i, data) =>
        threads := threads[i := Fetched(data)];
        fetches := fetches + [data];
      case FetchFails(i) => threads := threads[i := Releasing];
      case Store(i, now) => StoreFetched(fetched, now, i);
      case Release(i) => ReleaseFlag(i);
      case Read(now) => var seen, refresh := ReadMetrics(now);
    }
  }
}
