# Verified models of SGLang's tools and benchmarks

This project models the parts of the SGLang repository that hold the most state and the most
delicate algorithms outside the serving engine, and proves what they promise.

1. **The trace converter** (`scripts/convert_otel_2_perfetto.py`). `SpanForest` and `Chains` show
   that the parent ids of any span list, cyclic or dangling or repeated, leave a forest below the
   request spans. `TraceSpans`, `TraceConverter`, `TraceLayout` and `TraceOutput` follow the three
   passes of the converter over that forest, and `LaneLayout` models the lane allocator with its
   two-neighbour overlap check. `TraceOutput.ConvertTrace` is the whole conversion; it yields a
   `Completed` journal for every input, and the lemmas about such journals say what is in it.
   The promise that positive-length spans on a lane do not overlap can fail once a trimmed span
   has length zero: `TraceWitness` converts such a trace, and `ZeroLengthSpanBreaksLane` shows
   the placements behind it. `LaneOverlap` and `TraceLanes` say exactly when the promise holds,
   for one insertion, one placement, a run and the output. `LaneRule` and `TraceRule` say which
   line each span gets and in what order spans are placed, from the earlier placements alone;
   `PlaceKeepsChains` and `RunKeepsChains` do the same for the lane invariant behind the check.
2. **The multi-turn load generator** (`benchmark/hicache/bench_multiturn.py`). The `Workload*`
   modules describe sender, request tasks and response handler as steps of a state machine. The
   theorems hold for every interleaving and with requests that fail. `WorkloadRecord` ties what is
   recorded and sent to what the tasks delivered. With `max_parallel` at least
   1, a run that is not at rest can do work, and the steps that do work are bounded in number; a
   look at the limit and a look at an empty queue are not counted among them.
3. **Line retrieval** (`benchmark/line_retrieval`). `LineRetrieval` resolves redirect chains in
   place, `LineQueries` groups them and picks questions that a truncated body can answer.
4. **Conversation and user queues** (`benchmark/hicache/bench_serving.py` and `bench_mix.py`).
   `ConversationQueue` is the requeue protocol over a bounded queue; `UserQueue` is the queue of
   delayed users, which is not always ordered: `RunSorted` says exactly when it is. `UserRecord`
   says what users carry and what the counters count.
5. **The dashboard** (`docs/performance_dashboard/server.py`): `TokenTable`, the lazily purged
   session tokens under any clock, and `MetricsCache`, the single-flight refresh.
6. **Text tools**: `AnswerExtraction` (fraction normaliser, boxed answers) and `WheelIndex` (the
   nightly index page, a project page in the sense of the Specification section of PEP 503), both
   on `Splitting`, which models `str.split` and `str.join`; `ChatSampler`, the cyclic sampler.

`Base`, `Queueing` and `Sorting` are shared vocabulary. State machines come with a class whose
fields are those of the program: each method is one atomic piece of the program and is proved
equal to a step of the machine.

## Model

| member | source | states |
|---|---|---|
| `SpanForest.LastWithIdMeans` | scripts/convert_otel_2_perfetto.py:173 | the id dictionary maps an id to the last span that carries it, and lacks an id exactly when no span carries it |
| `TraceOutput.ParentsExact` | scripts/convert_otel_2_perfetto.py:172-187 | a span is a request exactly when its module attribute is `sglang::request`; any other span is a child of the last span that carries its parent id, and of no other |
| `SpanForest.UniquePath` | scripts/convert_otel_2_perfetto.py:172-195 | for every list of spans, two walks along child edges from request spans to the same span are equal: what is reachable is a forest |
| `SpanForest.PathVisitsOnce` | scripts/convert_otel_2_perfetto.py:225-226 | a walk from a request span never meets a span twice, so the recursive passes end |
| `SpanForest.PreorderMembers` | scripts/convert_otel_2_perfetto.py:403-404 | the recursion from a span visits exactly the spans below it |
| `SpanForest.PreorderNoDup` | scripts/convert_otel_2_perfetto.py:403-404 | the recursion from a span visits no span twice |
| `SpanForest.DisjointBelow` | scripts/convert_otel_2_perfetto.py:264-265 | a span lies below at most one of two different spans of equal depth |
| `SpanForest.OwnersOf` | scripts/convert_otel_2_perfetto.py:236-251 | thread span and request span of a converted span are functions of that span alone |
| `TraceSpans.Trace.constructor` | scripts/convert_otel_2_perfetto.py:140-168 | spans are loaded with their keys, names and fields, with empty child lists |
| `TraceSpans.Trace.IndexById` | scripts/convert_otel_2_perfetto.py:173 | the id dictionary agrees with the reference definition of the last span with an id |
| `TraceSpans.Trace.BuildOtelSpanTree` | scripts/convert_otel_2_perfetto.py:172-195 | child lists and root list are exactly those of the parent relation, each span in at most one of them |
| `TraceSpans.Trace.ConvertToPerfettoSpan` | scripts/convert_otel_2_perfetto.py:198-226 | the recursion converts every span below the given one exactly once and changes no other span |
| `TraceSpans.Trace.SetSpanTid` | scripts/convert_otel_2_perfetto.py:261-265 | the recursion sets the lane of every span below the given one and changes no other span |
| `TraceConverter.ConvertRequest` | scripts/convert_otel_2_perfetto.py:230-252 | all spans below the thread spans of one request are converted with that request and their own thread, and collected |
| `TraceConverter.GeneratePerfettoSpan` | scripts/convert_otel_2_perfetto.py:229-252 | over all requests, each span below a thread span is converted once with its own request and thread; everything else is unchanged |
| `LaneLayout.FindStart` | scripts/convert_otel_2_perfetto.py:59 | binary search returns the first interval whose start is not smaller |
| `LaneLayout.FindLeft` | scripts/convert_otel_2_perfetto.py:72-73 | binary search returns the first interval not smaller in tuple order |
| `LaneLayout.CheckOverlap` | scripts/convert_otel_2_perfetto.py:58-70 | the method computes the two-neighbour check at the bisection point |
| `LaneLayout.OverlapIsConflict` | scripts/convert_otel_2_perfetto.py:58-70 | a positive answer of the two-neighbour check always names a conflicting stored interval |
| `LaneLayout.NeighboursSuffice` | scripts/convert_otel_2_perfetto.py:58-70 | on a lane that keeps the invariant, looking at two neighbours answers as looking at every stored interval |
| `LaneLayout.InsertSorted` | scripts/convert_otel_2_perfetto.py:72-73 | insertion keeps a lane sorted |
| `LaneLayout.InsertContents` | scripts/convert_otel_2_perfetto.py:72-73 | insertion adds exactly the new interval |
| `LaneLayout.InsertKeepsChain` | scripts/convert_otel_2_perfetto.py:58-73 | inserting after a negative check keeps every earlier end at or before every later start |
| `LaneLayout.InsertBreaksChain` | scripts/convert_otel_2_perfetto.py:58-73 | inserting a conflicting interval destroys that invariant |
| `LaneLayout.PlaceKeepsChains` | scripts/convert_otel_2_perfetto.py:95-120 | one placement keeps the lane invariant if and only if it is not a span of length zero put on an occupied spot of the current lane |
| `LaneLayout.RunKeepsChains` | scripts/convert_otel_2_perfetto.py:268-292 | a run keeps the lane invariant throughout if and only if no placement of it skips a conflict |
| `LaneLayout.NonZeroRunKeepsChains` | scripts/convert_otel_2_perfetto.py:268-292 | in particular every run without spans of length zero keeps it, negative lengths included |
| `LaneLayout.RunRecorded` | scripts/convert_otel_2_perfetto.py:277-291 | every lane holds exactly the intervals of the placements it received, as a multiset |
| `LaneOverlap.InsertKeepsDisjoint` | scripts/convert_otel_2_perfetto.py:58-73 | after a negative check, or for a span of length zero, insertion keeps the positive-length spans of a sorted lane disjoint if and only if no entry left of the left neighbour reaches past the new start |
| `LaneOverlap.PlaceKeepsDisjoint` | scripts/convert_otel_2_perfetto.py:95-120 | one placement keeps all lanes disjoint if and only if they were and the chosen lane hides nothing from it |
| `LaneOverlap.RunDisjoint` | scripts/convert_otel_2_perfetto.py:268-292 | after a run all lanes are disjoint if and only if no placement met a lane that hid a span from it |
| `LaneOverlap.NoSkipsHideNothing` | scripts/convert_otel_2_perfetto.py:98-102 | only a span of length zero put on an occupied spot can ever hide a span |
| `LaneOverlap.HarmlessSkip` | scripts/convert_otel_2_perfetto.py:98-99 | skipping a conflict is not yet a violation: a concrete run that skips one and hides nothing |
| `LaneOverlap.SameLaneDisjoint` | scripts/convert_otel_2_perfetto.py:268-292 | exactly: no two positive-length placements on one lane of one process overlap, whatever requests they belong to, if and only if no placement met a lane that hid an overlapping span from the two-neighbour check |
| `LaneOverlap.ZeroLengthSpanBreaksLane` | scripts/convert_otel_2_perfetto.py:98-99 | in any process, three concrete placements that the allocator puts on one lane although two of them overlap |
| `LaneLayout.SlotsNumberLanes` | scripts/convert_otel_2_perfetto.py:104-120 | the slot records of a process are exactly its lanes 1, 2, ..., k |
| `LaneLayout.OpensOnlyWhenBlocked` | scripts/convert_otel_2_perfetto.py:111-119 | a new lane is opened only when every lane of the process holds a conflicting interval |
| `LaneLayout.LaneCountBounded` | scripts/convert_otel_2_perfetto.py:111-119 | a process has at most one lane more than some single span had earlier conflicting spans |
| `LaneLayout.ScanLanes` | scripts/convert_otel_2_perfetto.py:111-116 | the loop returns the first lane without overlap, or one past the last |
| `LaneRule.PlacedByRule` | scripts/convert_otel_2_perfetto.py:95-120 | every placement of every run goes to the line of the last placement in its process since the request began, if the span has length zero or the check finds that line free; otherwise to the least free line, or to one new line |
| `LaneRule.LogByRule` | scripts/convert_otel_2_perfetto.py:268-292 | the same for every entry of the log of a run, from the earlier entries alone |
| `LaneLayout.SpanLayout.constructor` | scripts/convert_otel_2_perfetto.py:277 | the allocator starts empty |
| `LaneLayout.SpanLayout.StartRequest` | scripts/convert_otel_2_perfetto.py:279 | each request starts without current lanes; lanes and records stay |
| `LaneLayout.SpanLayout.FindLine` | scripts/convert_otel_2_perfetto.py:95-120 | the chosen line is that of the allocator function, with the new current lane, new lane and slot record |
| `LaneLayout.SpanLayout.FindFreeLine` | scripts/convert_otel_2_perfetto.py:104-120 | without a usable current lane: the first lane of the process without overlap, or a new lane with its slot record |
| `LaneLayout.SpanLayout.PlaceSpan` | scripts/convert_otel_2_perfetto.py:281-291 | finding a line and inserting is one step of the allocator |
| `Sorting.SortBySorts` | scripts/convert_otel_2_perfetto.py:270-276 | the modelled sort orders, permutes, and keeps the order of equal keys |
| `TraceLayout.SortLists` | scripts/convert_otel_2_perfetto.py:269-272 | the spans of each request are what a stable sort by start time makes of them: same spans, ordered, equal starts in their old order |
| `TraceLayout.PlaceRequest` | scripts/convert_otel_2_perfetto.py:279-292 | the spans of a request are placed in turn, each with its whole subtree on the chosen lane |
| `TraceLayout.GenerateLayout` | scripts/convert_otel_2_perfetto.py:268-292 | requests stably sorted by their first span, spans stably sorted by their start, one allocator step per placement in that order, every subtree moved to its lane, nothing else changed |
| `TraceOutput.GatherAll` | scripts/convert_otel_2_perfetto.py:395-417 | the output is the records of the spans in preorder, request by request |
| `TraceOutput.GatheredIffReached` | scripts/convert_otel_2_perfetto.py:409-417 | a span is gathered exactly when a walk of at least two child edges leads to it from a request |
| `TraceOutput.EmittedOnce` | scripts/convert_otel_2_perfetto.py:395-417 | every reachable span under a thread span is emitted once, every other span never |
| `TraceOutput.EmittedRecord` | scripts/convert_otel_2_perfetto.py:198-226 | an emitted record has the exact start, the end lowered by 1000 once, the pid of its own thread span, and its own attributes with the rid and bootstrap room of its own request |
| `TraceOutput.SubtreeSharesLane` | scripts/convert_otel_2_perfetto.py:261-292 | a span and everything emitted below it share process and lane |
| `TraceLanes.LanesDisjoint` | scripts/convert_otel_2_perfetto.py:268-292 | in the output, positive-length spans directly under thread spans on one lane do not overlap, if and only if no placement met a lane that hid an overlapping span from the check |
| `TraceLanes.NonZeroDisjoint` | scripts/convert_otel_2_perfetto.py:268-292 | in particular they do not overlap when no trimmed span directly under a thread span has length zero |
| `TraceRule.SpansFollowRule` | scripts/convert_otel_2_perfetto.py:275-292 | in every conversion a span directly under a thread span stays on the line of the latest earlier span of its own request in its process while it may, and otherwise gets the least free line |
| `TraceRule.LayoutInOrder` | scripts/convert_otel_2_perfetto.py:268-277 | the spans of a request are placed in the order of their starts, and a request that is placed before another one has a span that starts no later than any span of the other |
| `TraceWitness.WitnessOverlaps` | scripts/convert_otel_2_perfetto.py:98-99 | every conversion of one concrete trace, whatever its pid parses to, puts two overlapping spans on one lane |
| `TraceWitness.ConvertWitness` | scripts/convert_otel_2_perfetto.py:172-417 | the converter accepts that trace and returns the overlapping output |
| `TraceOutput.LanesHaveSlots` | scripts/convert_otel_2_perfetto.py:104-120 | every lane named in the output has its slot record |
| `TraceOutput.ConvertTrace` | scripts/convert_otel_2_perfetto.py:172-417 | for every span list, whatever its ids and parent ids, the three passes in sequence return one record for each reached span and no others, with that span's times, process and arguments, each on a lane that has a slot record |
| `WorkloadGenerator.ResolveRounds` | benchmark/hicache/bench_multiturn.py:235-250 | the round arguments are accepted exactly when the resolved bounds are ordered and positive; given arguments are kept, a missing bound is the other one, and without both it is the number of rounds |
| `WorkloadGenerator.ResolvedRoundsOk` | benchmark/hicache/bench_multiturn.py:252-261 | round counts drawn between the resolved bounds are a legal configuration |
| `WorkloadBarrier.InitInv` | benchmark/hicache/bench_multiturn.py:337-386 | the initial state satisfies the invariant |
| `WorkloadBarrier.StepInv` | benchmark/hicache/bench_multiturn.py:388-538 | every step of sender, task and handler keeps the invariant |
| `WorkloadTheorems.Always` | benchmark/hicache/bench_multiturn.py:388-538 | the invariant holds in every state of every interleaving, failures included |
| `WorkloadTheorems.OneOutstanding` | benchmark/hicache/bench_multiturn.py:388-516 | no client has two outstanding requests in ready queue, tasks, response queue, handler and barrier buffer together |
| `WorkloadTheorems.PendingPayloadsCurrent` | benchmark/hicache/bench_multiturn.py:449-516 | from the moment it is built until its response is handled, every payload equals its client history, so the shared list is never changed under it |
| `WorkloadTheorems.PromptsExtend` | benchmark/hicache/bench_multiturn.py:449-512 | each prompt sent and answered extends the prompt sent before it followed by its output, strictly when sub-questions are not empty |
| `WorkloadTheorems.SentPromptExtends` | benchmark/hicache/bench_multiturn.py:484-512 | a request in flight extends the latest answered prompt of its client followed by its output |
| `WorkloadRecord.TurnsAreDelivered` | benchmark/hicache/bench_multiturn.py:388-455 | in every run the turns of a client are its successful responses among those handled, in the order of delivery, each with the prompt that was sent and the output that its task delivered; the failures are the other responses handled |
| `WorkloadRecord.SubQuestionsOnce` | benchmark/hicache/bench_multiturn.py:488-512 | every follow-up request uses a sub-question of the pool, and no two requests use the same one |
| `WorkloadRecord.HistoryIsChat` | benchmark/hicache/bench_multiturn.py:449-512 | the history of a client is its first prompt followed by the delivered output and the drawn sub-question of each of its turns |
| `WorkloadRecord.SentIsChat` | benchmark/hicache/bench_multiturn.py:388-512 | a request in flight carries exactly that history as its prompt |
| `WorkloadTheorems.HandlerNeverCrashes` | benchmark/hicache/bench_multiturn.py:466-486 | the sub-question pool and the per-round metrics are never exhausted, and no client is answered more often than it has rounds |
| `WorkloadTheorems.ParallelismBounded` | benchmark/hicache/bench_multiturn.py:405-409 | sent minus completed stays between 0 and max_parallel |
| `WorkloadRecord.LimitReached` | benchmark/hicache/bench_multiturn.py:405-412 | the sender finds the limit reached exactly when max_parallel responses are in flight, queued or held |
| `WorkloadTheorems.BarrierSafety` | benchmark/hicache/bench_multiturn.py:513-538 | while a request of round r + 1 is past the barrier, every client with more than r rounds has r + 1 processed responses |
| `WorkloadTheorems.OneRoundAtATime` | benchmark/hicache/bench_multiturn.py:513-538 | every request past the barrier belongs to the current barrier round |
| `WorkloadTheorems.FailureBlocksBarrier` | benchmark/hicache/bench_multiturn.py:444-447 | once a request has failed, the barrier stands at its round and releases nothing |
| `WorkloadTheorems.FailureBlocksForGood` | benchmark/hicache/bench_multiturn.py:444-447 | from a failure on, its client keeps its round and the barrier stays at that round in every later state of the run |
| `WorkloadTheorems.ClientsPerRoundSum` | benchmark/hicache/bench_multiturn.py:264-267 | the clients per round add up to the total number of requests |
| `WorkloadTheorems.QuiescentMeansDone` | benchmark/hicache/bench_multiturn.py:402-538 | a failure-free run with nothing left to do sent exactly total_requests, emptied the buffer and finished every client |
| `WorkloadTheorems.RestWithFailures` | benchmark/hicache/bench_multiturn.py:444-538 | any run with nothing left to do completed everything it sent; without the barrier each client is finished or failed, with it each is finished, failed in the barrier round, or held back one round later, and a client is held back only if a participant of the barrier round failed |
| `WorkloadProgress.StepWorks` | benchmark/hicache/bench_multiturn.py:388-538 | every step except a look at the limit or at an empty queue takes work off what is left, and no step adds any |
| `WorkloadTheorems.StepsBounded` | benchmark/hicache/bench_multiturn.py:402-538 | a run takes at most six such steps per request plus one per round |
| `WorkloadTheorems.NeverStuck` | benchmark/hicache/bench_multiturn.py:402-538 | with max_parallel at least 1, a run that is not at rest has such a step enabled, at once or after a look at the limit |
| `WorkloadGenerator.Generator.constructor` | benchmark/hicache/bench_multiturn.py:337-386 | the constructor establishes an initial state |
| `WorkloadGenerator.Generator.CheckParallelism` | benchmark/hicache/bench_multiturn.py:405 | the parallelism test of the sender |
| `WorkloadGenerator.Generator.SendNext` | benchmark/hicache/bench_multiturn.py:406-409 | popping a request and starting its task |
| `WorkloadGenerator.Generator.FinishTask` | benchmark/hicache/bench_multiturn.py:388-400 | a task always delivers one response, successful or failed |
| `WorkloadGenerator.Generator.GetResponse` | benchmark/hicache/bench_multiturn.py:441-443 | the handler takes the oldest response |
| `WorkloadGenerator.Generator.HandleResponse` | benchmark/hicache/bench_multiturn.py:444-482 | the handler counts a failure, or extends the history and counts a success |
| `WorkloadGenerator.Generator.RecordAnswer` | benchmark/hicache/bench_multiturn.py:448-482 | a successful response extends the history and the round of its client |
| `WorkloadGenerator.Generator.BuildNextRequest` | benchmark/hicache/bench_multiturn.py:484-516 | the next question is popped, appended and queued or buffered |
| `WorkloadGenerator.Generator.CountResponse` | benchmark/hicache/bench_multiturn.py:518-533 | the barrier counts a response and opens when all participants of the round have answered |
| `WorkloadGenerator.Generator.RequeueClient` | benchmark/hicache/bench_multiturn.py:484-533 | both together are the requeue step |
| `WorkloadGenerator.Generator.ReleaseNext` | benchmark/hicache/bench_multiturn.py:534-538 | buffered requests are released one by one, then the barrier advances |
| `WorkloadGenerator.Generator.TakeTurn` | benchmark/hicache/bench_multiturn.py:388-538 | whichever thread moves, its step is carried out by the methods above, never crashes the handler and keeps the object valid |
| `LineRetrieval.Walk` | benchmark/line_retrieval/gen_data.py:63-74 | the walk ends for every redirect table; it reports a ring exactly when the chain never reaches a plain line, and otherwise returns the exact path and its end |
| `LineRetrieval.PathNoDup` | benchmark/line_retrieval/gen_data.py:63-76 | a recorded path has no repeated line |
| `LineRetrieval.ResolveRedirects` | benchmark/line_retrieval/gen_data.py:57-76 | although values are overwritten during the scan, every line outside a ring gets the original value of the end of its chain and its exact path; the ring set is exact |
| `LineQueries.GroupByHops` | benchmark/line_retrieval/gen_data.py:78-83 | the groups partition the lines outside rings by path length, each ascending |
| `LineQueries.GroupMeans` | benchmark/line_retrieval/gen_data.py:78-83 | a line whose chain ends after d links is in the group for d + 1 hops and in no other |
| `LineQueries.GenerateLines` | benchmark/line_retrieval/gen_data.py:43-83 | lines, links, values, rings and groups fit together for every redirect table |
| `LineQueries.ReadsChain` | benchmark/line_retrieval/gen_data.py:51-54 | a reader who follows the text of the lines finds the value of the end of the chain when the chain stays inside the text |
| `LineQueries.QueriesResolvable` | benchmark/line_retrieval/bench_sglang.py:41-52 | every line chosen for a cut can be answered from the truncated body alone, and the answer is the recorded label |
| `LineQueries.Choose` | benchmark/line_retrieval/bench_sglang.py:47-49 | a choice exists exactly when a query exists and the position is not before the first one; negative positions count from the end |
| `LineQueries.ChooseEnds` | benchmark/line_retrieval/bench_sglang.py:47-49 | percentages from -1 up always find a query; 0 finds the first and 1 or more the last |
| `LineQueries.QuartersConcatenate` | benchmark/line_retrieval/bench_sglang.py:52-62 | the four body parts concatenate to the body, for every length; the first three are equally long and the last at most three lines longer |
| `LineQueries.QuestionFails` | benchmark/line_retrieval/bench_sglang.py:41-49 | a question cannot be asked exactly when no line of the group lies within the cut or the percentage points before the first one |
| `LineQueries.QuestionRank` | benchmark/line_retrieval/bench_sglang.py:41-51 | the line asked for at percentage p >= 0 has exactly min(int(n * p), n - 1) of the n qualifying lines below it, with the count from the end for p < 0; a question can be asked exactly when there is such a line, and its body is the lines up to the cut |
| `LineQueries.QuestionsFor` | benchmark/line_retrieval/bench_sglang.py:37-66 | one question per percentage in turn; failure exactly when one of them cannot be asked |
| `LineQueries.BuildQuestions` | benchmark/line_retrieval/bench_sglang.py:36-68 | one row of questions per cut, each for the line that cut and percentage name and answerable from its own body parts; failure exactly when some question cannot be asked |
| `ConversationQueue.StartOk` | benchmark/hicache/bench_serving.py:97-114 | starting a turn appends its question and yields a prompt length equal to all earlier input and actual output tokens plus its input |
| `ConversationQueue.FinishOk` | benchmark/hicache/bench_serving.py:171-188 | finishing a turn records the actual output length, appends the answer and moves on to the next turn or ends the conversation |
| `ConversationQueue.RoomToRequeue` | benchmark/hicache/bench_serving.py:185-188 | while a conversation is in flight the bounded queue has room for it |
| `ConversationQueue.StepInv` | benchmark/hicache/bench_serving.py:97-192 | every step of request source and tasks keeps the invariant |
| `ConversationQueue.Always` | benchmark/hicache/bench_serving.py:266-275 | the invariant holds in every state of every run, with failures and a source that gives up |
| `ConversationQueue.QueuedOnce` | benchmark/hicache/bench_serving.py:412-419 | a conversation is queued or in flight at most once, no requeue blocks, and the semaphore bounds the running tasks |
| `ConversationQueue.AnswersReceived` | benchmark/hicache/bench_serving.py:171-188 | in every run the answers recorded for a conversation are those that arrived for it, in order |
| `ConversationQueue.FirstComeFirstServed` | benchmark/hicache/bench_serving.py:185-275 | conversations are served in the order given, then in the order in which they were answered with a turn left, and the queue holds those not yet served |
| `ConversationQueue.SemaphoreFull` | benchmark/hicache/bench_serving.py:394-410 | a waiting task cannot start exactly when as many tasks run as the limit allows |
| `ConversationQueue.TurnsInOrder` | benchmark/hicache/bench_serving.py:97-114 | a running turn is the next one of its conversation, its messages alternate earlier questions and the answers that arrived to them, and its prompt length is the tokens sent and received before plus its own input |
| `ConversationQueue.NeverStarves` | benchmark/hicache/bench_serving.py:266-275 | never more turns are taken than exist, and without failures `get` is fed as long as turns are left |
| `ConversationQueue.AllTurnsAnswered` | benchmark/hicache/bench_serving.py:458-466 | a failure-free run that took all turns and has nothing in flight answered every turn of every conversation and emptied the queue |
| `ConversationQueue.StepWorks` | benchmark/hicache/bench_serving.py:97-192 | every step takes work off what is left, counted as three for a turn still to be taken down to none for an answered one |
| `ConversationQueue.RunBounded` | benchmark/hicache/bench_serving.py:266-275 | every run ends: it has at most three steps for each turn and one for giving up |
| `ConversationQueue.RestMeans` | benchmark/hicache/bench_serving.py:266-275 | with a concurrency limit other than 0, no step is possible if and only if no task is left and the source took every turn or gave up |
| `ConversationQueue.RestMeansDone` | benchmark/hicache/bench_serving.py:458-466 | a run that came to rest without a failure and without giving up took exactly the total, answered every turn and emptied the queue |
| `ConversationQueue.FlattenTotal` | benchmark/hicache/bench_serving.py:412-418 | shared-prefix flattening keeps the number of requests counted before it |
| `ConversationQueue.FlattenAt` | benchmark/hicache/bench_serving.py:416-418 | shared-prefix flattening yields every given turn alone, conversation by conversation, in order |
| `ConversationQueue.PromptLength` | benchmark/hicache/bench_serving.py:100-104 | the sum over finished turns plus the current input |
| `ConversationQueue.Benchmark.constructor` | benchmark/hicache/bench_serving.py:458-466 | every conversation enters the queue once, in order |
| `ConversationQueue.Benchmark.TakeNext` | benchmark/hicache/bench_serving.py:266-275 | taking the next conversation is the take step |
| `ConversationQueue.Benchmark.StartRequest` | benchmark/hicache/bench_serving.py:97-114 | building message list and prompt length is the start step |
| `ConversationQueue.Benchmark.FinishRequest` | benchmark/hicache/bench_serving.py:171-188 | recording an answer and requeueing is the finish step |
| `ConversationQueue.Benchmark.FailRequest` | benchmark/hicache/bench_serving.py:189-192 | a failed turn drops its conversation |
| `ConversationQueue.Benchmark.StopTaking` | benchmark/hicache/bench_serving.py:271-273 | the request source gives up when nothing arrives in time |
| `ConversationQueue.Benchmark.TakeTurn` | benchmark/hicache/bench_serving.py:97-192 | whichever task moves, its step is carried out by the methods above, leaves no task blocked and keeps the object valid |
| `UserQueue.ChooseRounds` | benchmark/hicache/bench_mix.py:199-207 | the chosen number of rounds is that of the reference definition and lies between 1 and num_rounds |
| `UserQueue.RoundsByInterval` | benchmark/hicache/bench_mix.py:199-207 | with non-negative ratios, k rounds are chosen exactly for the draws in the interval of ratio k; the closed upper end of the draw falls to the last choice |
| `UserQueue.EnqueueSorted` | benchmark/hicache/bench_mix.py:259-267 | pushing into a sorted queue keeps it sorted if and only if the new start is below some queued start or equals the last one |
| `UserQueue.LateUserJumpsAhead` | benchmark/hicache/bench_mix.py:262-267 | two concrete users of whom the later one is served first |
| `UserQueue.StepInv` | benchmark/hicache/bench_mix.py:195-276 | every pop, push and drop keeps the accounts and the places of all users |
| `UserQueue.Always` | benchmark/hicache/bench_mix.py:195-276 | the invariant holds in every state of every run |
| `UserQueue.Accounts` | benchmark/hicache/bench_mix.py:195-256 | inputs minus outputs of a round are the users queued, in flight or dropped at that round, and the user statistics add up to the users created |
| `UserRecord.UsersCarry` | benchmark/hicache/bench_mix.py:195-257 | in every run a user has one round for each answer to it, a prompt made of its id, the text drawn at its creation, and answer and drawn text of each round before its last, and the return tokens and start that the last of those draws gives, or the mean of the round when the draw is not positive |
| `UserRecord.CountersAreUsers` | benchmark/hicache/bench_mix.py:195-241 | the input counters count the users that have entered a round, the output counters those answered in it, the user statistics those created for that many rounds |
| `UserRecord.DecimalReads` | benchmark/hicache/bench_mix.py:213 | the id in front of a prompt is its decimal numeral, without leading zeros |
| `UserQueue.TokenTotals` | benchmark/hicache/bench_mix.py:211-241 | for every round, the token sums are exactly the input tokens sent in it and the output tokens that came back in it |
| `UserQueue.ReleasedAfterStart` | benchmark/hicache/bench_mix.py:269-276 | a user leaves the queue only in a pop later than its start, and is then in flight |
| `UserQueue.RunSorted` | benchmark/hicache/bench_mix.py:259-267 | the queue is ordered throughout a run if and only if no push met a queue in which every user is due before the pushed one |
| `UserQueue.SortedPopServesDue` | benchmark/hicache/bench_mix.py:269-276 | from an ordered queue a pop serves a waiting user whenever one is due, and one who is due no later than any other |
| `UserQueue.UserGenerator.constructor` | benchmark/hicache/bench_mix.py:188-193 | the generator starts without users and with zero counters |
| `UserQueue.UserGenerator.Gen` | benchmark/hicache/bench_mix.py:195-228 | generating a user is the pop step when nobody is due |
| `UserQueue.UserGenerator.PopUser` | benchmark/hicache/bench_mix.py:269-276 | pop is the pop step and returns the user put in flight |
| `UserQueue.UserGenerator.InsertUser` | benchmark/hicache/bench_mix.py:259-267 | the insertion loop stops at the slot of the reference definition |
| `UserQueue.UserGenerator.PushUser` | benchmark/hicache/bench_mix.py:230-267 | push is the push step: counters, next round, queue position |
| `UserQueue.UserGenerator.TakeTurn` | benchmark/hicache/bench_mix.py:195-276 | every call is carried out by the methods above and keeps the object valid |
| `TokenTable.TableExact` | docs/performance_dashboard/server.py:69-92 | for every clock, forwards or backwards, a token is in the table with the expiry of a creation exactly when that creation was not followed by another one, by a creation at or after its expiry, or by a verification of it at or after its expiry |
| `TokenTable.AnswerExact` | docs/performance_dashboard/server.py:69-92 | for every clock, a token verifies exactly when some creation of it is young enough and its latest creation was not lost to a clock reading at or after its expiry; the table answers as the full history of creations if and only if the history does not accept a token whose latest creation was lost |
| `TokenTable.PurgingUnobservable` | docs/performance_dashboard/server.py:69-92 | after any interleaving of creations and verifications under a clock that does not run back, a token verifies at t exactly when some creation of it at t0 has t < t0 + 3600 |
| `TokenTable.ClockMustNotRunBack` | docs/performance_dashboard/server.py:74-77 | with a clock set back the purge is observable |
| `TokenTable.TableStaysSmall` | docs/performance_dashboard/server.py:74-91 | a failed verification removes its token, a creation leaves no expired entry |
| `TokenTable.Tokens.constructor` | docs/performance_dashboard/server.py:52-58 | the table starts empty |
| `TokenTable.Tokens.CreateToken` | docs/performance_dashboard/server.py:69-79 | the critical section of creation is the create operation, at any clock reading |
| `TokenTable.Tokens.VerifyToken` | docs/performance_dashboard/server.py:82-92 | the critical section of verification gives the exact answer at any clock reading, and that of the full history when the clock has not run back |
| `MetricsCache.StepInv` | docs/performance_dashboard/server.py:219-234 | every claim, fetch, store, release and read keeps the invariant, a failing fetch included |
| `MetricsCache.Always` | docs/performance_dashboard/server.py:219-234 | the invariant holds in every state of every run with any number of threads |
| `MetricsCache.OneFetcher` | docs/performance_dashboard/server.py:219-234 | at most one thread is between claim and release, and the flag is set exactly then |
| `MetricsCache.ReadersSeeOneFetch` | docs/performance_dashboard/server.py:338-343 | a reader sees the initial pair or the pair stored by one completed fetch |
| `MetricsCache.PairFromEvents` | docs/performance_dashboard/server.py:219-234 | the pair is the time of the last store and what the last successful fetch before it returned |
| `MetricsCache.ReadRefreshes` | docs/performance_dashboard/server.py:336-347 | a read starts a refresh exactly when nothing was stored yet, or the last store was at time zero or at least 300 seconds ago |
| `MetricsCache.OnlyHolderWrites` | docs/performance_dashboard/server.py:226-230 | the pair changes only when the one thread that holds the flag stores |
| `MetricsCache.ClaimSucceedsWhenFree` | docs/performance_dashboard/server.py:221-224 | a claim succeeds exactly when no thread holds the flag, so no failure leaves the cache locked |
| `MetricsCache.Cache.constructor` | docs/performance_dashboard/server.py:43-48 | the cache starts with the initial pair and a clear flag |
| `MetricsCache.Cache.TryClaim` | docs/performance_dashboard/server.py:221-224 | the first critical section is the claim step |
| `MetricsCache.Cache.StoreFetched` | docs/performance_dashboard/server.py:228-230 | the second critical section is the store step |
| `MetricsCache.Cache.ReleaseFlag` | docs/performance_dashboard/server.py:232-234 | the last critical section is the release step |
| `MetricsCache.Cache.ReadMetrics` | docs/performance_dashboard/server.py:336-347 | a read returns the current data and starts a refresh exactly when the pair is not fresh |
| `MetricsCache.Cache.TakeTurn` | docs/performance_dashboard/server.py:219-234 | whichever thread moves, its step is carried out by the methods above and keeps the object valid |
| `Splitting.JoinSplit` | benchmark/reasoning_benchmark/answer_extraction.py:9 | joining the pieces of a split gives the text back, for every separator |
| `Splitting.SplitPieces` | benchmark/reasoning_benchmark/answer_extraction.py:9 | no piece of a split contains the separator |
| `Splitting.SplitJoin` | benchmark/reasoning_benchmark/answer_extraction.py:9 | splitting undoes joining for separators that do not overlap themselves |
| `Splitting.BorderBreaksSplit` | benchmark/reasoning_benchmark/answer_extraction.py:9 | each separator that overlaps itself has pieces for which splitting does not undo joining |
| `AnswerExtraction.FixFracsLoop` | benchmark/reasoning_benchmark/answer_extraction.py:8-37 | the loop with its early return computes the reference definition |
| `AnswerExtraction.FixAll` | benchmark/reasoning_benchmark/answer_extraction.py:12-36 | the loop over the pieces returns early exactly when one piece cannot be completed, and otherwise joins the completed pieces |
| `AnswerExtraction.FixFracsIdempotent` | benchmark/reasoning_benchmark/answer_extraction.py:8-37 | normalising fractions twice is normalising once, on every text |
| `AnswerExtraction.FixFracsBraces` | benchmark/reasoning_benchmark/answer_extraction.py:8-37 | unless the text is returned as it came, every fraction of the result is followed by a brace |
| `AnswerExtraction.FixFracsKeeps` | benchmark/reasoning_benchmark/answer_extraction.py:8-37 | apart from braces, normalising leaves the text as it is, and it changes the number of opening and closing braces by the same amount |
| `AnswerExtraction.FixFracsAdds` | benchmark/reasoning_benchmark/answer_extraction.py:8-37 | normalising deletes and reorders nothing: the text, braces included, is a subsequence of the result |
| `AnswerExtraction.FixFracsExact` | benchmark/reasoning_benchmark/answer_extraction.py:8-37 | a text with a fraction that cannot be completed is returned as it came; otherwise each fraction of the result is followed by exactly its two arguments in braces, or by what followed it where it already had a brace |
| `AnswerExtraction.ScanPiece` | benchmark/reasoning_benchmark/answer_extraction.py:185-196 | the scan stops at the brace before which the text is balanced, or finds nothing when no prefix closes more than it opened |
| `AnswerExtraction.AnswerClosed` | benchmark/reasoning_benchmark/answer_extraction.py:185-196 | a piece has at most one such brace, and its answer is the text before it |
| `AnswerExtraction.ExtractBoxedAnswers` | benchmark/reasoning_benchmark/answer_extraction.py:182-197 | the answers are those of the pieces after the first, in order |
| `AnswerExtraction.BoxesRecovered` | benchmark/reasoning_benchmark/answer_extraction.py:182-197 | for any sequence of boxes, closed or not, exactly the contents of the closed ones are returned, in order |
| `AnswerExtraction.BoxedRecovered` | benchmark/reasoning_benchmark/answer_extraction.py:182-197 | the balanced content of a single box is the only answer if and only if it holds no box itself and no percent sign follows it |
| `AnswerExtraction.OneBoxAnswers` | benchmark/reasoning_benchmark/answer_extraction.py:182-197 | for a content without a box, a percent sign after the closing brace keeps that brace in the answer |
| `AnswerExtraction.BoxedAnswersFree` | benchmark/reasoning_benchmark/answer_extraction.py:182-197 | no answer ever contains the opening of a box |
| `AnswerExtraction.NestedBoxHidesOuter` | benchmark/reasoning_benchmark/answer_extraction.py:184-196 | a box inside a box hides the outer one |
| `WheelIndex.LinkName` | scripts/update_nightly_whl_index.py:97-98 | for every name and URL, the file name is read back from the link written for it if and only if it is a wheel name without `<`, and what precedes it in the link either holds no name and no `>` after its last `<`, or holds that same name |
| `WheelIndex.CleanLinkName` | scripts/update_nightly_whl_index.py:97-98 | in particular it is for a URL without `>` |
| `WheelIndex.LinkTarget` | scripts/update_nightly_whl_index.py:94-98 | the href of the link written for a wheel is its URL if and only if the URL holds no quote |
| `WheelIndex.PageRoundTrip` | scripts/update_nightly_whl_index.py:80-87 | a page parses back to the links written on it |
| `WheelIndex.DedupeAfter` | scripts/update_nightly_whl_index.py:113-121 | removing duplicates before merging makes no difference |
| `WheelIndex.DedupeKeepsNewest` | scripts/update_nightly_whl_index.py:113-121 | every file name keeps its first link |
| `WheelIndex.DedupeDistinct` | scripts/update_nightly_whl_index.py:113-121 | no file name is left with two links |
| `WheelIndex.RunsMerge` | scripts/update_nightly_whl_index.py:80-121 | after any runs, failing ones included, the page is what one merge of all links ever written would give, and is untouched when no run had wheels |
| `WheelIndex.EveryWheelOnce` | scripts/update_nightly_whl_index.py:110-121 | every wheel ever published is on the page exactly once, with the URL of its latest run |
| `WheelIndex.OldLinksStay` | scripts/update_nightly_whl_index.py:110-121 | a link that is not published again stays as it was |
| `WheelIndex.RerunChangesNothing` | scripts/update_nightly_whl_index.py:80-150 | running the same update again writes the same page |
| `WheelIndex.ReadExisting` | scripts/update_nightly_whl_index.py:79-87 | the filter loop keeps exactly the link lines |
| `WheelIndex.RemoveDuplicates` | scripts/update_nightly_whl_index.py:113-121 | the loop over `seen` computes the reference definition |
| `WheelIndex.UpdateIndex` | scripts/update_nightly_whl_index.py:79-150 | one run, with its failure when there are no wheels |
| `ChatSampler.ProcessedOk` | benchmark/hicache/data_processing.py:56-81 | the kept turns of a conversation are exactly those whose prompt and output length are within the four limits, each once, in their order |
| `ChatSampler.SurvivorsOk` | benchmark/hicache/data_processing.py:52-84 | the surviving conversations are exactly those with a turn within the limits, each once, in the order of the data |
| `ChatSampler.CycleAt` | benchmark/hicache/data_processing.py:52-84 | item k of the repetition is survivor k modulo the number of survivors |
| `ChatSampler.EndsIffSurvivor` | benchmark/hicache/data_processing.py:52-84 | some number of passes collects enough if and only if nothing is asked for or a conversation survives |
| `ChatSampler.ProcessConversation` | benchmark/hicache/data_processing.py:56-81 | the inner loop returns the kept turns in order |
| `ChatSampler.OnePass` | benchmark/hicache/data_processing.py:53-84 | one pass appends the survivors until enough are collected |
| `ChatSampler.FilterChat` | benchmark/hicache/data_processing.py:52-84 | the result is exactly the first num_requests items of the endless repetition of the surviving conversations |

## Left out

- The gateway (smg) spans, span links and events, torch-profile merging and thread metadata records of the converter: the gateway branch reads a `child` field that nothing sets, the rest is plumbing.
- Sharing of the attribute dictionary between a span and its record in the converter: records hold a copy of the attributes.
- Parsing of OpenTelemetry JSON, and `int` of a string: a span comes with integer times, and the parse of a pid is a parameter.
- The load generator ends by a progress bar total and timeouts: the model lets every run continue, and says what holds when nothing is left to do.
- Chat-message histories of the multi-turn benchmark and its heartbeat request: histories are sequences of items, as in token mode.
- Random redirects, few-shot suffixes and the text of a line: redirect tables are arbitrary and a line is a structured value.
- Rounding of floating point numbers: times and percentages are exact reals.
- Tokenizers, random samplers, HTTP, threads and files: parameters, sequences or steps of a state machine. A file is the text read from it, after newline translation.
- The root index of the wheel repository, the hashing of wheels, and wheel names or CUDA versions with a line end in them.
- Statistics, throughput and printing of all benchmarks, and token totals of the sampler.
- Password hashing and request routing of the dashboard, `strip_string` and `math_equal` of the answer tools: foreign calls and library regular expressions.
- The warm-up request of the serving benchmark, which works on a copy with one turn.
- The serving engine itself, its kernels and caches.
