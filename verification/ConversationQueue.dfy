/** The serving benchmark's multi-turn loop: conversations wait in a bounded queue, one turn of a
    conversation is in flight at a time, and a conversation whose turn succeeded goes back to
    the end of the queue while it has turns left. */
module ConversationQueue {
  import opened Base
  import opened Queueing

  datatype Turn = Turn(text: string, inputLen: nat, outputLen: nat)

  datatype Message = User(content: string) | Assistant(content: string)

  datatype Answer = Answer(text: string, length: nat)

  /** A queued request: its turns, how many are finished, the chat so far, and the base prompt
      length computed when its latest turn started. */
  datatype Conversation = Conversation(prompts: seq<Turn>, finished: nat, messages: seq<Message>, promptLen: nat)

  datatype Place = Queued | Waiting | Running | Done | Lost

  datatype Config = Config(given: seq<seq<Turn>>, maxConcurrency: Option<nat>)

  /** `waiting` are the tasks that have not entered the semaphore, `running` those that have;
      `place` and `answers` record what happened to each conversation. */
  datatype State = State(
    queue: seq<nat>,
    waiting: seq<nat>,
    running: seq<nat>,
    convs: seq<Conversation>,
    taken: nat,
    stopped: bool,
    blocked: bool,
    place: seq<Place>,
    answers: seq<seq<Answer>>)

  datatype Event = Take | Start(i: nat) | Finish(i: nat, answer: Answer) | Fail(i: nat) | GiveUp

  /** Every conversation has a turn: `prompts[finished]` is read before anything else. */
  ghost predicate ConfigOk(cfg: Config) {
    forall c :: 0 <= c < |cfg.given| ==> cfg.given[c] != []
  }

  function Turns(given: seq<seq<Turn>>): seq<int> {
    seq(|given|, c requires 0 <= c < |given| => |given[c]|)
  }

  /** The number of turns of all conversations. */
  function Total(given: seq<seq<Turn>>): int {
    Sum(Turns(given))
  }

  /** The lengths of finished turns: input plus output. */
  function Lengths(prompts: seq<Turn>): seq<int> {
    seq(|prompts|, k requires 0 <= k < |prompts| => prompts[k].inputLen + prompts[k].outputLen)
  }

  lemma {:induction false} LengthsNat(prompts: seq<Turn>)
    ensures Sum(Lengths(prompts)) >= 0
  {
    if prompts != [] {
      LengthsNat(prompts[..|prompts| - 1]);
      assert Lengths(prompts)[..|prompts| - 1] == Lengths(prompts[..|prompts| - 1]);
    }
  }

  function StartTurn(v: Conversation): Conversation
    requires v.finished < |v.prompts|
  {
    LengthsNat(v.prompts[..v.finished]);
    v.(messages := v.messages + [User(v.prompts[v.finished].text)],
       promptLen := Sum(Lengths(v.prompts[..v.finished])) + v.prompts[v.finished].inputLen)
  }

  /** A successful answer replaces the turn's token limit by the tokens actually produced. */
  function FinishTurn(v: Conversation, a: Answer): Conversation
    requires v.finished < |v.prompts|
  {
    v.(prompts := v.prompts[v.finished := v.prompts[v.finished].(outputLen := a.length)],
       messages := v.messages + [Assistant(a.text)],
       finished := if v.finished + 1 < |v.prompts| then v.finished + 1 else v.finished)
  }

  ghost predicate Sized(cfg: Config, s: State) {
    && |s.convs| == |s.place| == |s.answers| == |cfg.given|
    && (forall i :: 0 <= i < |s.queue| ==> s.queue[i] < |s.convs|)
    && (forall i :: 0 <= i < |s.waiting| ==> s.waiting[i] < |s.convs|)
    && (forall i :: 0 <= i < |s.running| ==> s.running[i] < |s.convs|)
    && (forall c :: 0 <= c < |s.convs| ==> s.convs[c].finished < |s.convs[c].prompts|)
  }

  function Init(cfg: Config): State {
    var n := |cfg.given|;
    State(
      seq(n, c => c), [], [],
      seq(n, c requires 0 <= c < n => Conversation(cfg.given[c], 0, [], 0)),
      0, false, false, seq(n, _ => Queued), seq(n, _ => []))
  }

  predicate Enabled(cfg: Config, s: State, e: Event) {
    match e
    case Take => !s.stopped && s.taken < Total(cfg.given) && s.queue != []
    case Start(i) => i < |s.waiting| && (cfg.maxConcurrency.Some? ==> |s.running| < cfg.maxConcurrency.value)
    case Finish(i, _) => i < |s.running|
    case Fail(i) => i < |s.running|
    case GiveUp => !s.stopped && s.taken < Total(cfg.given) && s.queue == []
  }

  function DoTake(s: State): State
    requires s.queue != [] && s.queue[0] < |s.place|
  {
    s.(queue := s.queue[1..], waiting := s.waiting + [s.queue[0]], taken := s.taken + 1,
       place := s.place[s.queue[0] := Waiting])
  }

  ghost function DoStart(cfg: Config, s: State, i: nat): State
    requires Sized(cfg, s) && i < |s.waiting|
  {
    var c := s.waiting[i];
    s.(waiting := RemoveAt(s.waiting, i), running := s.running + [c],
       convs := s.convs[c := StartTurn(s.convs[c])], place := s.place[c := Running])
  }

  /** `put` on a full queue would leave the task blocked inside the semaphore. */
  ghost function DoFinish(cfg: Config, s: State, i: nat, a: Answer): State
    requires Sized(cfg, s) && i < |s.running|
  {
    var c := s.running[i];
    var v := s.convs[c];
    var more := v.finished + 1 < |v.prompts|;
    if more && |s.queue| >= |cfg.given| then
      s.(blocked := true)
    else
      s.(running := RemoveAt(s.running, i), convs := s.convs[c := FinishTurn(v, a)],
         queue := if more then s.queue + [c] else s.queue,
         place := s.place[c := if more then Queued else Done],
         answers := s.answers[c := s.answers[c] + [a]])
  }

  ghost function DoFail(cfg: Config, s: State, i: nat): State
    requires Sized(cfg, s) && i < |s.running|
  {
    s.(running := RemoveAt(s.running, i), place := s.place[s.running[i] := Lost])
  }

  ghost function Step(cfg: Config, s: State, e: Event): State
    requires Sized(cfg, s) && Enabled(cfg, s, e)
  {
    match e
    case Take => DoTake(s)
    case Start(i) => DoStart(cfg, s, i)
    case Finish(i, a) => DoFinish(cfg, s, i, a)
    case Fail(i) => DoFail(cfg, s, i)
    case GiveUp => s.(stopped := true)
  }

  // ----- one conversation -----

  /** The chat after the first |answers| turns. */
  ghost function History(given: seq<Turn>, answers: seq<Answer>): seq<Message>
    requires |answers| <= |given|
  {
    if answers == [] then [] else
      var k := |answers| - 1;
      History(given, answers[..k]) + [User(given[k].text), Assistant(answers[k].text)]
  }

  /** The tokens of the first |answers| turns: what was sent plus what was produced. */
  ghost function Tokens(given: seq<Turn>, answers: seq<Answer>): nat
    requires |answers| <= |given|
  {
    if answers == [] then 0 else
      var k := |answers| - 1;
      Tokens(given, answers[..k]) + given[k].inputLen + answers[k].length
  }

  ghost predicate PromptsOk(given: seq<Turn>, prompts: seq<Turn>, answers: seq<Answer>) {
    && |prompts| == |given| >= |answers|
    && (forall k :: 0 <= k < |answers| ==> prompts[k] == given[k].(outputLen := answers[k].length))
    && (forall k :: |answers| <= k < |given| ==> prompts[k] == given[k])
  }

  /** The user and assistant turns of a conversation alternate, in the order given. */
  ghost predicate ChatOk(given: seq<Turn>, messages: seq<Message>, asking: bool, answers: seq<Answer>)
    requires |answers| <= |given| && (asking ==> |answers| < |given|)
  {
    messages == History(given, answers) + if asking then [User(given[|answers|].text)] else []
  }

  ghost predicate ConvOk(given: seq<Turn>, v: Conversation, p: Place, answers: seq<Answer>) {
    && PromptsOk(given, v.prompts, answers)
    && (p.Done? <==> |answers| == |given|)
    && v.finished == (if p.Done? then |given| - 1 else |answers|)
    && ChatOk(given, v.messages, p.Running? || p.Lost?, answers)
    && (p.Running? ==> v.promptLen == Tokens(given, answers) + given[|answers|].inputLen)
  }

  lemma {:induction false} LengthsAreTokens(given: seq<Turn>, prompts: seq<Turn>, answers: seq<Answer>)
    requires |prompts| == |answers| <= |given|
    requires forall k :: 0 <= k < |answers| ==> prompts[k] == given[k].(outputLen := answers[k].length)
    ensures Sum(Lengths(prompts)) == Tokens(given, answers)
  {
    if answers != [] {
      var k := |answers| - 1;
      LengthsAreTokens(given, prompts[..k], answers[..k]);
      assert Lengths(prompts)[..k] == Lengths(prompts[..k]);
    }
  }

  lemma StartOk(given: seq<Turn>, v: Conversation, answers: seq<Answer>)
    requires ConvOk(given, v, Waiting, answers)
    ensures ConvOk(given, StartTurn(v), Running, answers)
  {
    LengthsAreTokens(given, v.prompts[..v.finished], answers);
  }

  lemma FinishOk(given: seq<Turn>, v: Conversation, answers: seq<Answer>, a: Answer)
    requires ConvOk(given, v, Running, answers)
    ensures v.finished + 1 < |v.prompts| ==> ConvOk(given, FinishTurn(v, a), Queued, answers + [a])
    ensures v.finished + 1 == |v.prompts| ==> ConvOk(given, FinishTurn(v, a), Done, answers + [a])
  {
    var now := answers + [a];
    assert now[..|now| - 1] == answers;
    assert FinishTurn(v, a).messages == History(given, now);
  }

  // ----- the invariant -----

  ghost predicate PlacesOk(s: State) {
    && Located(s.queue, s.place, Queued)
    && Located(s.waiting, s.place, Waiting)
    && Located(s.running, s.place, Running)
  }

  ghost predicate ConvsOk(cfg: Config, s: State) {
    && |s.convs| == |s.place| == |s.answers| == |cfg.given|
    && forall c :: 0 <= c < |s.convs| ==> ConvOk(cfg.given[c], s.convs[c], s.place[c], s.answers[c])
  }

  /** Turns taken from the queue, conversation by conversation. */
  ghost function TakenBy(s: State): seq<int>
    requires |s.place| == |s.answers|
  {
    seq(|s.place|, c requires 0 <= c < |s.place| =>
      |s.answers[c]| + if s.place[c].Waiting? || s.place[c].Running? || s.place[c].Lost? then 1 else 0)
  }

  ghost predicate Inv(cfg: Config, s: State) {
    && PlacesOk(s)
    && ConvsOk(cfg, s)
    && !s.blocked
    && s.taken == Sum(TakenBy(s))
    && (cfg.maxConcurrency.Some? ==> |s.running| <= cfg.maxConcurrency.value)
  }

  lemma InvSized(cfg: Config, s: State)
    requires Inv(cfg, s)
    ensures Sized(cfg, s)
  {
    forall c | 0 <= c < |s.convs|
      ensures s.convs[c].finished < |s.convs[c].prompts|
    {
      assert ConvOk(cfg.given[c], s.convs[c], s.place[c], s.answers[c]);
    }
  }

  lemma InitInv(cfg: Config)
    requires ConfigOk(cfg)
    ensures Inv(cfg, Init(cfg))
  {
    var s := Init(cfg);
    forall c: nat | c < |s.place|
      ensures c in s.queue
    {
      assert s.queue[c] == c;
    }
    SumZero(TakenBy(s));
  }

  /** Only conversation c changed. */
  ghost predicate OnlyChanged(s: State, s': State, c: nat) {
    && c < |s.convs| == |s.place| == |s.answers| == |s'.convs| == |s'.place| == |s'.answers|
    && s'.convs == s.convs[c := s'.convs[c]]
    && s'.place == s.place[c := s'.place[c]]
    && s'.answers == s.answers[c := s'.answers[c]]
  }

  lemma ConvsKept(cfg: Config, s: State, s': State, c: nat)
    requires ConvsOk(cfg, s) && OnlyChanged(s, s', c)
    requires ConvOk(cfg.given[c], s'.convs[c], s'.place[c], s'.answers[c])
    ensures ConvsOk(cfg, s')
  {
  }

  lemma TakenChanges(s: State, s': State, c: nat)
    requires OnlyChanged(s, s', c)
    ensures Sum(TakenBy(s')) == Sum(TakenBy(s)) - TakenBy(s)[c] + TakenBy(s')[c]
  {
    SumUpdate(TakenBy(s), c, TakenBy(s')[c]);
    assert TakenBy(s') == TakenBy(s)[c := TakenBy(s')[c]];
  }

  lemma TakePlaces(s: State)
    requires PlacesOk(s) && s.queue != []
    ensures PlacesOk(DoTake(s))
  {
    LocatedMove(s.queue, s.waiting, s.place, Queued, Waiting, 0);
    LocatedOther(s.running, s.place, Running, s.queue[0], Waiting);
    assert RemoveAt(s.queue, 0) == s.queue[1..];
  }

  lemma TakeInv(cfg: Config, s: State)
    requires Inv(cfg, s) && s.queue != []
    ensures Inv(cfg, DoTake(s))
  {
    var c, s' := s.queue[0], DoTake(s);
    TakePlaces(s);
    assert ConvOk(cfg.given[c], s.convs[c], Queued, s.answers[c]);
    ConvsKept(cfg, s, s', c);
    TakenChanges(s, s', c);
  }

  lemma StartInv(cfg: Config, s: State, i: nat)
    requires Inv(cfg, s) && Sized(cfg, s) && Enabled(cfg, s, Start(i))
    ensures Inv(cfg, DoStart(cfg, s, i))
  {
    var c, s' := s.waiting[i], DoStart(cfg, s, i);
    LocatedMove(s.waiting, s.running, s.place, Waiting, Running, i);
    LocatedOther(s.queue, s.place, Queued, c, Running);
    StartOk(cfg.given[c], s.convs[c], s.answers[c]);
    ConvsKept(cfg, s, s', c);
    TakenChanges(s, s', c);
  }

  lemma FailInv(cfg: Config, s: State, i: nat)
    requires Inv(cfg, s) && Sized(cfg, s) && i < |s.running|
    ensures Inv(cfg, DoFail(cfg, s, i))
  {
    var c, s' := s.running[i], DoFail(cfg, s, i);
    LocatedRemove(s.running, s.place, Running, i, Lost);
    LocatedOther(s.queue, s.place, Queued, c, Lost);
    LocatedOther(s.waiting, s.place, Waiting, c, Lost);
    assert ConvOk(cfg.given[c], s.convs[c], Running, s.answers[c]);
    ConvsKept(cfg, s, s', c);
    TakenChanges(s, s', c);
  }

  /** While a conversation is in flight the queue has room for it. */
  lemma RoomToRequeue(cfg: Config, s: State, i: nat)
    requires Inv(cfg, s) && i < |s.running|
    ensures |s.queue| < |cfg.given|
  {
    RoomFor(s.queue, |cfg.given|, s.running[i]);
  }

  lemma FinishPlaces(cfg: Config, s: State, i: nat, a: Answer)
    requires PlacesOk(s) && Sized(cfg, s) && i < |s.running| && |s.queue| < |cfg.given|
    ensures PlacesOk(DoFinish(cfg, s, i, a))
  {
    var c := s.running[i];
    if s.convs[c].finished + 1 < |s.convs[c].prompts| {
      LocatedMove(s.running, s.queue, s.place, Running, Queued, i);
      LocatedOther(s.waiting, s.place, Waiting, c, Queued);
    } else {
      LocatedRemove(s.running, s.place, Running, i, Done);
      LocatedOther(s.queue, s.place, Queued, c, Done);
      LocatedOther(s.waiting, s.place, Waiting, c, Done);
    }
  }

  lemma FinishInv(cfg: Config, s: State, i: nat, a: Answer)
    requires Inv(cfg, s) && Sized(cfg, s) && i < |s.running|
    ensures Inv(cfg, DoFinish(cfg, s, i, a))
  {
    RoomToRequeue(cfg, s, i);
    var c, s' := s.running[i], DoFinish(cfg, s, i, a);
    FinishPlaces(cfg, s, i, a);
    assert ConvOk(cfg.given[c], s.convs[c], Running, s.answers[c]);
    FinishOk(cfg.given[c], s.convs[c], s.answers[c], a);
    ConvsKept(cfg, s, s', c);
    TakenChanges(s, s', c);
  }

  lemma StepInv(cfg: Config, s: State, e: Event)
    requires Inv(cfg, s) && Sized(cfg, s) && Enabled(cfg, s, e)
    ensures Inv(cfg, Step(cfg, s, e))
  {
    match e
    case Take => TakeInv(cfg, s);
    case Start(i) => StartInv(cfg, s, i);
    case Finish(i, a) => FinishInv(cfg, s, i, a);
    case Fail(i) => FailInv(cfg, s, i);
    case GiveUp => assert TakenBy(s.(stopped := true)) == TakenBy(s);
  }

  // ----- whole runs -----

  ghost predicate Behaviour(cfg: Config, states: seq<State>, events: seq<Event>) {
    && ConfigOk(cfg)
    && |states| == |events| + 1
    && states[0] == Init(cfg)
    && forall n {:trigger events[n]} :: 0 <= n < |events| ==>
         Sized(cfg, states[n]) && Enabled(cfg, states[n], events[n]) && states[n + 1] == Step(cfg, states[n], events[n])
  }

  lemma {:induction false} Always(cfg: Config, states: seq<State>, events: seq<Event>, n: nat)
    requires Behaviour(cfg, states, events) && n < |states|
    ensures Inv(cfg, states[n])
  {
    if n == 0 {
      InitInv(cfg);
    } else {
      Always(cfg, states, events, n - 1);
      StepInv(cfg, states[n - 1], events[n - 1]);
      assert states[n - 1 + 1] == Step(cfg, states[n - 1], events[n - 1]);
    }
  }

  /** A conversation is queued or in flight at most once, a requeue never blocks, and the
      semaphore bounds the running tasks. */
  lemma QueuedOnce(cfg: Config, states: seq<State>, events: seq<Event>, n: nat)
    requires Behaviour(cfg, states, events) && n < |states|
    ensures var s := states[n];
      && NoDup(s.queue + s.waiting + s.running)
      && !s.blocked
      && (cfg.maxConcurrency.Some? ==> |s.running| <= cfg.maxConcurrency.value)
  {
    Always(cfg, states, events, n);
    var s := states[n];
    NoDupConcat(s.queue, s.waiting);
    NoDupConcat(s.queue + s.waiting, s.running);
  }

  lemma {:induction false} HistoryAt(given: seq<Turn>, answers: seq<Answer>, k: nat)
    requires k < |answers| <= |given|
    ensures |History(given, answers)| == 2 * |answers|
    ensures History(given, answers)[2 * k] == User(given[k].text)
    ensures History(given, answers)[2 * k + 1] == Assistant(answers[k].text)
  {
    var last := |answers| - 1;
    if last > 0 {
      HistoryAt(given, answers[..last], if k < last then k else 0);
    }
  }

  // ----- what was received and who is served -----

  lemma RunStep(cfg: Config, states: seq<State>, events: seq<Event>, n: nat)
    requires Behaviour(cfg, states, events) && n < |events|
    ensures Sized(cfg, states[n]) && Enabled(cfg, states[n], events[n])
    ensures states[n + 1] == Step(cfg, states[n], events[n]) && Sized(cfg, states[n + 1]) && !states[n + 1].blocked
  {
    assert states[n + 1] == Step(cfg, states[n], events[n]);
    Always(cfg, states, events, n + 1);
    InvSized(cfg, states[n + 1]);
  }

  /** The answers that arrived for conversation c in the first n steps, in order. */
  ghost function AnswersTo(states: seq<State>, events: seq<Event>, n: nat, c: nat): seq<Answer>
    requires n <= |events| < |states|
  {
    if n == 0 then []
    else
      var before, e := AnswersTo(states, events, n - 1, c), events[n - 1];
      if e.Finish? && e.i < |states[n - 1].running| && states[n - 1].running[e.i] == c then before + [e.answer]
      else before
  }

  lemma StepAnswers(cfg: Config, s: State, e: Event, c: nat)
    requires Sized(cfg, s) && Enabled(cfg, s, e) && !Step(cfg, s, e).blocked && c < |cfg.given|
    ensures |Step(cfg, s, e).answers| == |cfg.given|
    ensures Step(cfg, s, e).answers[c] == s.answers[c] + if e.Finish? && s.running[e.i] == c then [e.answer] else []
  {
  }

  /** Every run: the answers recorded for a conversation are those that arrived for it. */
  lemma {:induction false} AnswersReceived(cfg: Config, states: seq<State>, events: seq<Event>, n: nat, c: nat)
    requires Behaviour(cfg, states, events) && n <= |events| && c < |cfg.given|
    ensures c < |states[n].answers| && states[n].answers[c] == AnswersTo(states, events, n, c)
  {
    if n > 0 {
      AnswersReceived(cfg, states, events, n - 1, c);
      RunStep(cfg, states, events, n - 1);
      StepAnswers(cfg, states[n - 1], events[n - 1], c);
    }
  }

  /** Turns of a conversation go out in order: the running turn is the one after those that have
      an answer, its message list is every earlier question and the answer that arrived to it,
      followed by its own question, and its base prompt length is what was sent and what came
      back before, plus its own input. */
  lemma TurnsInOrder(cfg: Config, states: seq<State>, events: seq<Event>, n: nat, i: nat, k: nat)
    requires Behaviour(cfg, states, events) && n < |states| && i < |states[n].running|
    ensures states[n].running[i] < |cfg.given| == |states[n].convs|
    ensures
      var c := states[n].running[i];
      var (given, v, answers) := (cfg.given[c], states[n].convs[c], AnswersTo(states, events, n, c));
      && v.finished == |answers| < |given|
      && |v.messages| == 2 * |answers| + 1
      && v.messages[2 * |answers|] == User(given[|answers|].text)
      && (k < |answers| ==>
            v.messages[2 * k] == User(given[k].text) && v.messages[2 * k + 1] == Assistant(answers[k].text))
      && v.promptLen == Tokens(given, answers) + given[|answers|].inputLen
  {
    Always(cfg, states, events, n);
    var c := states[n].running[i];
    AnswersReceived(cfg, states, events, n, c);
    RunningTurn(cfg, states[n], c, k);
  }

  lemma RunningTurn(cfg: Config, s: State, c: nat, k: nat)
    requires Inv(cfg, s) && c < |cfg.given| && s.place[c] == Running
    ensures
      var (given, v, answers) := (cfg.given[c], s.convs[c], s.answers[c]);
      && v.finished == |answers| < |given|
      && |v.messages| == 2 * |answers| + 1
      && v.messages[2 * |answers|] == User(given[|answers|].text)
      && (k < |answers| ==>
            v.messages[2 * k] == User(given[k].text) && v.messages[2 * k + 1] == Assistant(answers[k].text))
      && v.promptLen == Tokens(given, answers) + given[|answers|].inputLen
  {
    var (given, answers) := (cfg.given[c], s.answers[c]);
    assert ConvOk(given, s.convs[c], Running, answers);
    if answers != [] {
      HistoryAt(given, answers, if k < |answers| then k else 0);
    }
  }

  /** The conversations whose task was created in the first n steps, in order. */
  ghost function Served(states: seq<State>, events: seq<Event>, n: nat): seq<nat>
    requires n <= |events| < |states|
  {
    if n == 0 then []
    else
      var before, waiting := Served(states, events, n - 1), states[n].waiting;
      if events[n - 1].Take? && waiting != [] then before + [waiting[|waiting| - 1]] else before
  }

  /** The conversations that got an answer and have a turn left, in the order of the answers. */
  ghost function Requeued(cfg: Config, states: seq<State>, events: seq<Event>, n: nat): seq<nat>
    requires n <= |events| < |states|
  {
    if n == 0 then []
    else
      var before, e := Requeued(cfg, states, events, n - 1), events[n - 1];
      if e.Finish? && e.i < |states[n - 1].running| then
        var c := states[n - 1].running[e.i];
        if c < |cfg.given| && |AnswersTo(states, events, n, c)| < |cfg.given[c]| then before + [c] else before
      else before
  }

  lemma FinishQueue(cfg: Config, s: State, i: nat, a: Answer)
    requires Inv(cfg, s) && Sized(cfg, s) && i < |s.running| && !DoFinish(cfg, s, i, a).blocked
    ensures var c := s.running[i];
            && |DoFinish(cfg, s, i, a).answers| == |cfg.given|
            && DoFinish(cfg, s, i, a).queue
            == s.queue + if |DoFinish(cfg, s, i, a).answers[c]| < |cfg.given[c]| then [c] else []
  {
    var c := s.running[i];
    assert ConvOk(cfg.given[c], s.convs[c], Running, s.answers[c]);
  }

  /** The conversations given and those requeued are those served, and then those in the queue. */
  ghost predicate InTurn(served: seq<nat>, queue: seq<nat>, n: nat, requeued: seq<nat>) {
    served + queue == seq(n, c => c) + requeued
  }

  lemma InTurnTake(served: seq<nat>, queue: seq<nat>, n: nat, requeued: seq<nat>)
    requires InTurn(served, queue, n, requeued) && queue != []
    ensures InTurn(served + [queue[0]], queue[1..], n, requeued)
  {
    assert queue == [queue[0]] + queue[1..];
    assert served + [queue[0]] + queue[1..] == served + queue;
  }

  lemma InTurnPut(served: seq<nat>, queue: seq<nat>, n: nat, requeued: seq<nat>, c: nat)
    requires InTurn(served, queue, n, requeued)
    ensures InTurn(served, queue + [c], n, requeued + [c])
  {
    assert served + (queue + [c]) == served + queue + [c];
    assert seq(n, c => c) + (requeued + [c]) == seq(n, c => c) + requeued + [c];
  }

  lemma ServedByTake(cfg: Config, states: seq<State>, events: seq<Event>, n: nat)
    requires Behaviour(cfg, states, events) && n < |events| && events[n].Take?
    ensures states[n].queue != [] && Served(states, events, n + 1) == Served(states, events, n) + [states[n].queue[0]]
    ensures states[n + 1].queue == states[n].queue[1..]
    ensures Requeued(cfg, states, events, n + 1) == Requeued(cfg, states, events, n)
  {
    RunStep(cfg, states, events, n);
  }

  lemma RequeuedByFinish(cfg: Config, states: seq<State>, events: seq<Event>, n: nat) returns (put: seq<nat>)
    requires Behaviour(cfg, states, events) && n < |events| && events[n].Finish?
    ensures |put| <= 1 && Served(states, events, n + 1) == Served(states, events, n)
    ensures states[n + 1].queue == states[n].queue + put
    ensures Requeued(cfg, states, events, n + 1) == Requeued(cfg, states, events, n) + put
  {
    RunStep(cfg, states, events, n);
    var s, e := states[n], events[n];
    var c := s.running[e.i];
    Always(cfg, states, events, n);
    FinishQueue(cfg, s, e.i, e.answer);
    AnswersReceived(cfg, states, events, n + 1, c);
    put := if |AnswersTo(states, events, n + 1, c)| < |cfg.given[c]| then [c] else [];
  }

  lemma OthersKeepQueue(cfg: Config, states: seq<State>, events: seq<Event>, n: nat)
    requires Behaviour(cfg, states, events) && n < |events| && !events[n].Take? && !events[n].Finish?
    ensures Served(states, events, n + 1) == Served(states, events, n) && states[n + 1].queue == states[n].queue
    ensures Requeued(cfg, states, events, n + 1) == Requeued(cfg, states, events, n)
  {
    RunStep(cfg, states, events, n);
  }

  /** Every run serves first come, first served: the conversations given, then those that were
      answered and have a turn left, in that order; the queue holds those not yet served. */
  lemma {:induction false} FirstComeFirstServed(cfg: Config, states: seq<State>, events: seq<Event>, n: nat)
    requires Behaviour(cfg, states, events) && n <= |events|
    ensures InTurn(Served(states, events, n), states[n].queue, |cfg.given|, Requeued(cfg, states, events, n))
  {
    if n > 0 {
      var m := n - 1;
      var served, queue, requeued := Served(states, events, m), states[m].queue, Requeued(cfg, states, events, m);
      FirstComeFirstServed(cfg, states, events, m);
      if events[m].Take? {
        ServedByTake(cfg, states, events, m);
        InTurnTake(served, queue, |cfg.given|, requeued);
      } else if events[m].Finish? {
        var put := RequeuedByFinish(cfg, states, events, m);
        if put == [] {
          assert queue + put == queue && requeued + put == requeued;
        } else {
          InTurnPut(served, queue, |cfg.given|, requeued, put[0]);
          assert put == [put[0]];
        }
      } else {
        OthersKeepQueue(cfg, states, events, m);
      }
    }
  }

  /** A task that waits cannot start exactly when the limit of running tasks is reached. */
  lemma SemaphoreFull(cfg: Config, states: seq<State>, events: seq<Event>, n: nat, i: nat)
    requires Behaviour(cfg, states, events) && n < |states| && i < |states[n].waiting|
    ensures !Enabled(cfg, states[n], Start(i)) <==> cfg.maxConcurrency == Some(|states[n].running|)
  {
    Always(cfg, states, events, n);
  }

  // ----- counting -----

  /** Sums of dominated sequences: less or equal, and equal only when every entry is. */
  lemma {:induction false} SumDominated(a: seq<int>, b: seq<int>)
    requires |a| == |b| && forall i :: 0 <= i < |a| ==> a[i] <= b[i]
    ensures Sum(a) <= Sum(b)
    ensures Sum(a) == Sum(b) ==> a == b
  {
    if a != [] {
      SumDominated(a[..|a| - 1], b[..|b| - 1]);
      assert a == a[..|a| - 1] + [a[|a| - 1]];
      assert b == b[..|b| - 1] + [b[|b| - 1]];
    }
  }

  lemma TakenDominated(cfg: Config, s: State)
    requires Inv(cfg, s)
    ensures |TakenBy(s)| == |Turns(cfg.given)|
    ensures forall c :: 0 <= c < |TakenBy(s)| ==> TakenBy(s)[c] <= Turns(cfg.given)[c]
  {
    forall c | 0 <= c < |TakenBy(s)|
      ensures TakenBy(s)[c] <= Turns(cfg.given)[c]
    {
      assert ConvOk(cfg.given[c], s.convs[c], s.place[c], s.answers[c]);
    }
  }

  /** Never more turns than there are; and while turns are left and none failed, `get` is fed:
      the queue is not empty, or a task in flight may still refill it. */
  lemma NeverStarves(cfg: Config, states: seq<State>, events: seq<Event>, n: nat)
    requires Behaviour(cfg, states, events) && n < |states|
    ensures states[n].taken <= Total(cfg.given)
    ensures states[n].taken < Total(cfg.given) && Lost !in states[n].place ==>
              states[n].queue != [] || states[n].waiting != [] || states[n].running != []
  {
    Always(cfg, states, events, n);
    var s := states[n];
    TakenDominated(cfg, s);
    SumDominated(TakenBy(s), Turns(cfg.given));
    if Lost !in s.place && s.queue == s.waiting == s.running == [] {
      forall c | 0 <= c < |s.place|
        ensures TakenBy(s)[c] == Turns(cfg.given)[c]
      {
        assert s.place[c] in s.place;
        assert s.place[c] == Done by {
          assert s.place[c] != Queued && s.place[c] != Waiting && s.place[c] != Running;
        }
        assert ConvOk(cfg.given[c], s.convs[c], Done, s.answers[c]);
      }
      assert TakenBy(s) == Turns(cfg.given);
    }
  }

  /** A failure-free run that took every turn and has nothing in flight answered every turn of
      every conversation, and left the queue empty. */
  lemma AllTurnsAnswered(cfg: Config, states: seq<State>, events: seq<Event>, n: nat, c: nat)
    requires Behaviour(cfg, states, events) && n < |states| && c < |cfg.given|
    requires states[n].taken == Total(cfg.given) && Lost !in states[n].place
    requires states[n].waiting == states[n].running == []
    ensures states[n].queue == [] && |states[n].convs| == |cfg.given|
    ensures |AnswersTo(states, events, n, c)| == |cfg.given[c]|
    ensures states[n].convs[c].messages == History(cfg.given[c], AnswersTo(states, events, n, c))
  {
    AnswersReceived(cfg, states, events, n, c);
    Always(cfg, states, events, n);
    var s := states[n];
    assert s.queue != [] ==> s.place[s.queue[0]] == Queued;
    TakenDominated(cfg, s);
    SumDominated(TakenBy(s), Turns(cfg.given));
    forall b | 0 <= b < |s.place|
      ensures s.place[b] == Done
    {
      assert TakenBy(s)[b] == Turns(cfg.given)[b];
      assert s.place[b] in s.place;
      assert ConvOk(cfg.given[b], s.convs[b], s.place[b], s.answers[b]);
      assert s.place[b] != Waiting && s.place[b] != Running;
    }
    assert ConvOk(cfg.given[c], s.convs[c], Done, s.answers[c]);
  }

  // ----- every run comes to rest -----

  /** Steps that a conversation still needs at most, three for each turn: take, start, finish. */
  ghost function Work(p: Place, turns: nat, answered: nat): int {
    match p
    case Queued => 3 * (turns - answered)
    case Waiting => 3 * (turns - answered) - 1
    case Running => 3 * (turns - answered) - 2
    case Done => 0
    case Lost => 0
  }

  ghost function Works(cfg: Config, s: State): (w: seq<int>)
    requires |s.place| == |s.answers| == |cfg.given|
    ensures |w| == |s.place|
    ensures forall c {:trigger w[c]} :: 0 <= c < |w| ==> w[c] == Work(s.place[c], |cfg.given[c]|, |s.answers[c]|)
  {
    seq(|s.place|, c requires 0 <= c < |s.place| => Work(s.place[c], |cfg.given[c]|, |s.answers[c]|))
  }

  ghost function WorkLeft(cfg: Config, s: State): int
    requires |s.place| == |s.answers| == |cfg.given|
  {
    Sum(Works(cfg, s)) + if s.stopped then 0 else 1
  }

  /** Conversation c moves on with less to do; the others and the source stay. */
  ghost predicate Advances(cfg: Config, s: State, s': State, c: nat) {
    && OnlyChanged(s, s', c) && |s.place| == |cfg.given| && s'.stopped == s.stopped
    && Work(s'.place[c], |cfg.given[c]|, |s'.answers[c]|) < Work(s.place[c], |cfg.given[c]|, |s.answers[c]|)
  }

  lemma AdvanceWorks(cfg: Config, s: State, s': State, c: nat)
    requires Advances(cfg, s, s', c)
    ensures WorkLeft(cfg, s') < WorkLeft(cfg, s)
  {
    SumUpdate(Works(cfg, s), c, Works(cfg, s')[c]);
    assert Works(cfg, s') == Works(cfg, s)[c := Works(cfg, s')[c]];
  }

  lemma StartAdvances(cfg: Config, s: State, i: nat)
    requires Inv(cfg, s) && Sized(cfg, s) && i < |s.waiting|
    ensures Advances(cfg, s, DoStart(cfg, s, i), s.waiting[i])
  {
    var c := s.waiting[i];
    assert ConvOk(cfg.given[c], s.convs[c], Waiting, s.answers[c]);
  }

  lemma FinishAdvances(cfg: Config, s: State, i: nat, a: Answer)
    requires Inv(cfg, s) && Sized(cfg, s) && i < |s.running|
    ensures Advances(cfg, s, DoFinish(cfg, s, i, a), s.running[i])
  {
    var c := s.running[i];
    RoomToRequeue(cfg, s, i);
    assert ConvOk(cfg.given[c], s.convs[c], Running, s.answers[c]);
  }

  lemma FailAdvances(cfg: Config, s: State, i: nat)
    requires Inv(cfg, s) && Sized(cfg, s) && i < |s.running|
    ensures Advances(cfg, s, DoFail(cfg, s, i), s.running[i])
  {
    var c := s.running[i];
    assert ConvOk(cfg.given[c], s.convs[c], Running, s.answers[c]);
  }

  /** Every step takes work off what is left. */
  lemma StepWorks(cfg: Config, s: State, e: Event)
    requires Inv(cfg, s) && Sized(cfg, s) && Enabled(cfg, s, e)
    ensures |Step(cfg, s, e).place| == |Step(cfg, s, e).answers| == |cfg.given|
    ensures WorkLeft(cfg, Step(cfg, s, e)) < WorkLeft(cfg, s)
  {
    match e
    case Take =>
      AdvanceWorks(cfg, s, DoTake(s), s.queue[0]);
    case Start(i) =>
      StartAdvances(cfg, s, i);
      AdvanceWorks(cfg, s, DoStart(cfg, s, i), s.waiting[i]);
    case Finish(i, a) =>
      FinishAdvances(cfg, s, i, a);
      AdvanceWorks(cfg, s, DoFinish(cfg, s, i, a), s.running[i]);
    case Fail(i) =>
      FailAdvances(cfg, s, i);
      AdvanceWorks(cfg, s, DoFail(cfg, s, i), s.running[i]);
    case GiveUp =>
      assert Works(cfg, s.(stopped := true)) == Works(cfg, s);
  }

  lemma {:induction false} WorksNonNegative(works: seq<int>)
    requires forall c :: 0 <= c < |works| ==> works[c] >= 0
    ensures Sum(works) >= 0
  {
    if works != [] {
      WorksNonNegative(works[..|works| - 1]);
    }
  }

  lemma WorkNonNegative(cfg: Config, s: State)
    requires Inv(cfg, s)
    ensures WorkLeft(cfg, s) >= 0
  {
    forall c | 0 <= c < |s.place|
      ensures Works(cfg, s)[c] >= 0
    {
      assert ConvOk(cfg.given[c], s.convs[c], s.place[c], s.answers[c]);
    }
    WorksNonNegative(Works(cfg, s));
  }

  lemma {:induction false} FirstWork(turns: seq<int>, works: seq<int>)
    requires |works| == |turns| && forall c :: 0 <= c < |turns| ==> works[c] == 3 * turns[c]
    ensures Sum(works) == 3 * Sum(turns)
  {
    if turns != [] {
      FirstWork(turns[..|turns| - 1], works[..|works| - 1]);
    }
  }

  lemma InitWork(cfg: Config)
    requires ConfigOk(cfg)
    ensures |Init(cfg).place| == |Init(cfg).answers| == |cfg.given|
    ensures WorkLeft(cfg, Init(cfg)) == 3 * Total(cfg.given) + 1
  {
    FirstWork(Turns(cfg.given), Works(cfg, Init(cfg)));
  }

  lemma RunStepWorks(cfg: Config, states: seq<State>, events: seq<Event>, n: nat)
    requires Behaviour(cfg, states, events) && n < |events|
    ensures |states[n].place| == |states[n].answers| == |cfg.given|
    ensures |states[n + 1].place| == |states[n + 1].answers| == |cfg.given|
    ensures WorkLeft(cfg, states[n + 1]) < WorkLeft(cfg, states[n])
  {
    Always(cfg, states, events, n);
    StepWorks(cfg, states[n], events[n]);
  }

  lemma {:induction false} StepsAndWork(cfg: Config, states: seq<State>, events: seq<Event>, n: nat)
    requires Behaviour(cfg, states, events) && n < |states|
    ensures |states[n].place| == |states[n].answers| == |cfg.given|
    ensures WorkLeft(cfg, states[n]) + n <= 3 * Total(cfg.given) + 1
  {
    if n == 0 {
      InitWork(cfg);
    } else {
      StepsAndWork(cfg, states, events, n - 1);
      RunStepWorks(cfg, states, events, n - 1);
    }
  }

  /** Every run ends: three steps for each turn, and one more when the source gives up. */
  lemma RunBounded(cfg: Config, states: seq<State>, events: seq<Event>)
    requires Behaviour(cfg, states, events)
    ensures |events| <= 3 * Total(cfg.given) + 1
  {
    StepsAndWork(cfg, states, events, |events|);
    Always(cfg, states, events, |events|);
    WorkNonNegative(cfg, states[|events|]);
  }

  /** No step is possible. */
  ghost predicate AtRest(cfg: Config, s: State) {
    forall e :: !Enabled(cfg, s, e)
  }

  /** With a concurrency limit other than 0, a run is at rest exactly when no task is left and the
      source has taken every turn or given up. */
  lemma RestMeans(cfg: Config, states: seq<State>, events: seq<Event>, n: nat)
    requires Behaviour(cfg, states, events) && n < |states| && cfg.maxConcurrency != Some(0)
    ensures AtRest(cfg, states[n]) <==>
              && states[n].waiting == states[n].running == []
              && (states[n].stopped || states[n].taken == Total(cfg.given))
  {
    var s := states[n];
    NeverStarves(cfg, states, events, n);
    if AtRest(cfg, s) {
      assert !Enabled(cfg, s, Take) && !Enabled(cfg, s, GiveUp);
      assert !Enabled(cfg, s, Fail(0)) && !Enabled(cfg, s, Start(0));
    }
  }

  /** A run that has come to rest without a failure and without giving up took exactly all turns,
      answered every turn of every conversation, and left the queue empty. */
  lemma RestMeansDone(cfg: Config, states: seq<State>, events: seq<Event>, n: nat, c: nat)
    requires Behaviour(cfg, states, events) && n < |states| && cfg.maxConcurrency != Some(0)
    requires AtRest(cfg, states[n]) && Lost !in states[n].place && !states[n].stopped && c < |cfg.given|
    ensures states[n].taken == Total(cfg.given) && states[n].queue == []
    ensures |AnswersTo(states, events, n, c)| == |cfg.given[c]|
  {
    RestMeans(cfg, states, events, n);
    AllTurnsAnswered(cfg, states, events, n, c);
  }

  // ----- shared prefixes and warm-up -----

  function Singles(turns: seq<Turn>): seq<seq<Turn>> {
    seq(|turns|, k requires 0 <= k < |turns| => [turns[k]])
  }

  /** Shared-prefix mode makes every turn a conversation of its own. */
  function Flatten(given: seq<seq<Turn>>): seq<seq<Turn>> {
    if given == [] then [] else Flatten(given[..|given| - 1]) + Singles(given[|given| - 1])
  }

  lemma {:induction false} SinglesTotal(turns: seq<Turn>)
    ensures Total(Singles(turns)) == |turns|
  {
    if turns != [] {
      var k := |turns| - 1;
      SinglesTotal(turns[..k]);
      assert Turns(Singles(turns))[..k] == Turns(Singles(turns[..k]));
    }
  }

  /** The flattened list holds every given turn alone: first those of the first conversation, then
      those of the second, and so on. */
  lemma {:induction false} FlattenAt(given: seq<seq<Turn>>, c: nat, k: nat)
    requires c < |given| && k < |given[c]|
    ensures |Flatten(given)| == Total(given)
    ensures 0 <= Total(given[..c]) + k < |Flatten(given)|
    ensures Flatten(given)[Total(given[..c]) + k] == [given[c][k]]
  {
    var n := |given| - 1;
    FlattenSize(given[..n]);
    assert Turns(given)[..n] == Turns(given[..n]);
    if c < n {
      FlattenAt(given[..n], c, k);
      assert given[..n][..c] == given[..c];
    }
  }

  lemma {:induction false} FlattenSize(given: seq<seq<Turn>>)
    ensures |Flatten(given)| == Total(given)
  {
    if given != [] {
      FlattenSize(given[..|given| - 1]);
      assert Turns(given)[..|given| - 1] == Turns(given[..|given| - 1]);
    }
  }

  /** The number of requests computed before flattening is the number taken after it. */
  lemma {:induction false} FlattenTotal(given: seq<seq<Turn>>)
    ensures Total(Flatten(given)) == Total(given)
  {
    if given != [] {
      var k := |given| - 1;
      FlattenTotal(given[..k]);
      SinglesTotal(given[k]);
      var (front, back) := (Flatten(given[..k]), Singles(given[k]));
      assert Turns(front + back) == Turns(front) + Turns(back);
      SumConcat(Turns(front), Turns(back));
      assert Turns(given)[..k] == Turns(given[..k]);
    }
  }

  // ----- the benchmark's shared objects -----

  method PromptLength(prompts: seq<Turn>, promptIdx: nat) returns (promptLen: nat)
    requires promptIdx < |prompts|
    ensures promptLen == Sum(Lengths(prompts[..promptIdx])) + prompts[promptIdx].inputLen
  {
    promptLen := 0;
    for k := 0 to promptIdx
      invariant promptLen == Sum(Lengths(prompts[..k]))
    {
      assert Lengths(prompts[..k + 1])[..k] == Lengths(prompts[..k]);
      promptLen := promptLen + prompts[k].inputLen + prompts[k].outputLen;
    }
    promptLen := promptLen + prompts[promptIdx].inputLen;
  }

  class Benchmark {
    const cfg: Config
    var queue: seq<nat>
    var waiting: seq<nat>
    var running: seq<nat>
    var convs: seq<Conversation>
    var taken: nat
    var stopped: bool
    var blocked: bool
    ghost var place: seq<Place>
    ghost var answers: seq<seq<Answer>>

    ghost function Now(): State
      reads this
    {
      State(queue, waiting, running, convs, taken, stopped, blocked, place, answers)
    }

    /** What holds in every reachable state. */
    ghost predicate Valid()
      reads this
    {
      Inv(cfg, Now()) && Sized(cfg, Now())
    }

    /** Every conversation enters the queue once, in the order given. */
    constructor (given: seq<seq<Turn>>, maxConcurrency: Option<nat>)
      requires ConfigOk(Config(given, maxConcurrency))
      ensures cfg == Config(given, maxConcurrency)
      ensures Now() == Init(cfg) && Valid()
    {
      cfg := Config(given, maxConcurrency);
      waiting, running, taken, stopped, blocked := [], [], 0, false, false;
      ghost var first := Init(Config(given, maxConcurrency));
      place, answers := first.place, first.answers;
      var q, v: seq<Conversation> := [], [];
      for c := 0 to |given|
        invariant q == first.queue[..c]
        invariant v == first.convs[..c]
      {
        q, v := q + [c], v + [Conversation(given[c], 0, [], 0)];
      }
      queue, convs := q, v;
      new;
      InitInv(cfg);
      InvSized(cfg, Now());
    }

    /** One round of the request source: `get` the next conversation and make it a task. */
    method TakeNext() returns (c: nat)
      requires Sized(cfg, Now()) && Enabled(cfg, Now(), Take)
      modifies this
      ensures Now() == DoTake(old(Now())) && c == old(queue[0])
    {
      c := queue[0];
      place := place[c := Waiting];
      queue, waiting, taken := queue[1..], waiting + [c], taken + 1;
    }

    /** Task i passes the semaphore, builds its prompt length and appends its question. */
    method StartRequest(i: nat)
      requires Sized(cfg, Now()) && Enabled(cfg, Now(), Start(i))
      modifies this
      ensures Now() == DoStart(cfg, old(Now()), i)
    {
      var c := waiting[i];
      var v := convs[c];
      var promptLen := PromptLength(v.prompts, v.finished);
      convs := convs[c := v.(messages := v.messages + [User(v.prompts[v.finished].text)], promptLen := promptLen)];
      waiting, running := RemoveAt(waiting, i), running + [c];
      place := place[c := Running];
    }

    /** A response with status 200, read to its end. */
    method FinishRequest(i: nat, a: Answer)
      requires Sized(cfg, Now()) && i < |running|
      modifies this
      ensures Now() == DoFinish(cfg, old(Now()), i, a)
    {
      var c := running[i];
      var v := convs[c];
      var promptIdx := v.finished;
      v := v.(prompts := v.prompts[promptIdx := v.prompts[promptIdx].(outputLen := a.length)]);
      promptIdx := promptIdx + 1;
      v := v.(messages := v.messages + [Assistant(a.text)]);
      if promptIdx < |v.prompts| {
        if |queue| >= |cfg.given| {
          blocked := true;
          return;
        }
        v := v.(finished := promptIdx);
        queue := queue + [c];
        place := place[c := Queued];
      } else {
        place := place[c := Done];
      }
      convs := convs[c := v];
      running := RemoveAt(running, i);
      answers := answers[c := answers[c] + [a]];
    }

    /** Any other status, or an exception: the conversation is dropped. */
    method FailRequest(i: nat)
      requires Sized(cfg, Now()) && i < |running|
      modifies this
      ensures Now() == DoFail(cfg, old(Now()), i)
    {
      place := place[running[i] := Lost];
      running := RemoveAt(running, i);
    }

    /** No conversation arrived in time: the request source stops. */
    method StopTaking()
      modifies this`stopped
      ensures Now() == old(Now()).(stopped := true)
    {
      stopped := true;
    }

    /** One turn of the request source or of a task: any enabled step is carried out by the
        methods above, leaves no task blocked, and keeps the object valid. */
    method TakeTurn(e: Event)
      requires Valid() && Enabled(cfg, Now(), e)
      modifies this
      ensures Valid() && Now() == Step(cfg, old(Now()), e) && !blocked
    {
      StepInv(cfg, Now(), e);
      InvSized(cfg, Step(cfg, Now(), e));
      match e
      case Take => var c := TakeNext();
      case Start(i) => StartRequest(i);
      case Finish(i, a) => FinishRequest(i, a);
      case Fail(i) => FailRequest(i);
      case GiveUp => StopTaking();
    }
  }
}
