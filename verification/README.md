# Ujima agents: a verified model of task runs, agent loops and their stores

This project models, in Dafny, the parts of the Ujima agent runtime whose behaviour depends on order,
failure and repetition, and proves what the runtime relies on.

- **Task runs** (`Waves`, `RunState`, `ConcurrentRun`, `SlimRun`, `AbortChain`). A planner assigns
  agents and dependencies; a concurrent run layers them into waves, spawns each wave with prompts that
  carry what earlier agents left, and collects results. A slim run takes one stage after another and
  checkpoints each completed stage so that a later run resumes. Abort controllers form a tree from the
  session down to each agent's run.
- **Agent loop** (`Sanitizer`, `Interrupts`, `ErrorWalk`, `ErrorSearch`). Message histories are repaired
  so that tool calls and results are paired; interrupting messages are read ahead, handed over and
  merged; provider errors are searched for a pending pause and then classified by a walk over a graph
  that may be cyclic, which drives a single retry.
- **Codex stream** (`CodexStream`, `CodexSource`, `CodexHandlers`, `SseFraming`). One response is fed by a socket that
  is reopened a bounded number of times or by an HTTP fallback; frames are written as server-sent
  events.
- **Connections and stores** (`CallQueue`, `Migrations`, `ToolRewrite`, `Subscribers`, `Replay`,
  `StreamAdapter`). A call queue that serialises, a migration runner that can be stopped anywhere, a
  configuration rewrite that may be repeated, an event bus with its listeners and its expiring event log,
  and the adapter of the editor's model stream.

`Collections` holds what they share. Code that works by changing things step by step is modelled by
methods with loops and by classes; each such method is tied to a specification function, and the
theorems are lemmas about that function. Asynchronous code is a state machine whose steps are the
stretches between two awaits; a theorem about runs quantifies over all sequences of events. The
environment (what an agent makes of its prompt, when a socket fails, when a process stops, what the
clock shows) is a parameter and arbitrary.

Verify with `dafny verify dfyconfig.toml`; no proof needs more than
`--resource-limit 2000000`, with or without `--warn-contradictory-assumptions`.

## Findings

Where the code does not have a property one would expect, the project states when it does.

- A Codex response can mix frames with fallback bytes. What makes it possible is exactly a send callback
  that reports an error while the response streams, is neither done nor aborted, and already waits for
  another socket (`CodexSource.MixesIff`, with `CodexSource.LateCallbackMixes` for a run); without such a
  callback the body has one source (`CodexSource.NeverMixed`).
- Cancelling a Codex response does not end the retrying. Cancelled or not, another socket can still be
  opened exactly while the caller's signal is not aborted, no frame has arrived and attempts are left
  (`CodexStream.ReopensIff`, with `CodexStream.CancelStillReopens` for a run). And a fallback that ends well
  after a cancel settles the controller twice, which nothing else does (`CodexStream.SettledTwiceIff`,
  with `CodexStream.CancelledFallbackSettlesTwice` for a run).
- Server-sent events carry a frame faithfully exactly when it has no lone carriage return
  (`SseFraming.RoundTripIff`; `SseFraming.LoneReturnLost` is one that has).
- The agent loop searches an error for a pending approval or input before it classifies it, and these
  searches keep no record of what they have seen. They come back exactly from errors where no course, to a
  cause or past a barren cause to an error, meets an object twice (`ErrorSearch.ReturnsIff`; an error that
  is its own cause is one they do not come back from, `ErrorSearch.OwnCauseNeverReturns`), so the loop classifies exactly the errors
  that lead neither to such an entry nor into a cycle (`ErrorSearch.ClassifierReachedIff`); that the
  classifier's own walk ends on cycles (`ErrorWalk.WalkCollects`) matters only where it is called directly.
- The tool rewrite looks ids up with `in`, which also finds names every object inherits: a tool called
  `constructor` or `toString` is dropped like an old id (`ToolRewrite.InheritedNameLost`; what stays is
  given by `ToolRewrite.RoleToolsExact`).
- The adapted model stream closes its last text block exactly when the last delta that shows is not
  text; the error part of a failing provider can stand inside an open block (`StreamAdapter.Bracketed`, with
  `StreamAdapter.ErrorInsideBlock` for a stream).
- A replay at some time answers as over everything ever published exactly when no purge, by its own
  clock, dropped an event that has not lapsed at that time (`Replay.ReplayRefinesLogIff`). A clock that
  does not go back is enough for that (`Replay.ReplayUnderClock`) and not necessary
  (`Replay.BackwardClockMayKeep`); one that does can lose an event (`Replay.BackwardClockLoses`).
- Reading interrupts ahead loses messages exactly when a look ends with something while something is
  pending (`Interrupts.LostIff`, with `Interrupts.TwoLooksLose` for two looks). That takes two looks that
  wait at once, so a caller that evaluates `stopWhen` concurrently with itself; one that does not loses
  nothing.
- A concurrent run throws, and then returns no results at all, exactly when the run of some agent it has
  spawned throws (`ConcurrentRun.OneResultEach`, with `ConcurrentRun.OneThrows` for a team of one).
- The slim crash-and-resume theorem needs no distinct team ids: a repeated agent replays as it ran.

## Model

| member | source | states |
|---|---|---|
| Waves.TopoSortWaves | packages/orchestrator/src/run-task.ts:723-747 | the loop over the mutable maps and sets computes the layering the theorems below are about |
| Waves.DistinctIndex | packages/orchestrator/src/run-task.ts:726 | assignments of distinct agents all keep their places in the map |
| Waves.IndexMembers | packages/orchestrator/src/run-task.ts:726 | exactly the assigned agents are in the map, repeated ones once |
| Waves.IndexOrder | packages/orchestrator/src/run-task.ts:726 | the map stands in the order in which the agents are first assigned |
| Waves.LastCounts | packages/orchestrator/src/run-task.ts:726 | of several assignments of one agent the last is the one in the map |
| Waves.WavesPartition | packages/orchestrator/src/run-task.ts:728-746 | for arbitrary dependencies the waves are non-empty and hold every assigned agent exactly once |
| Waves.WaveOrder | packages/orchestrator/src/run-task.ts:730-735 | within a wave the agents stand in the order in which they are first assigned |
| Waves.FallbackShape | packages/orchestrator/src/run-task.ts:736-738 | the fallback fires at most once, as the last wave, and the agents placed before it are the least fixed point of "all my dependencies are placed" |
| Waves.FallbackFreeIff | packages/orchestrator/src/run-task.ts:730-738 | the fallback never fires if and only if that least fixed point holds all agents |
| Waves.FallbackFreeIffAcyclic | packages/orchestrator/src/run-task.ts:730-738 | the fallback never fires if and only if dependencies name assigned agents only and have no cycle |
| Waves.InOrder | packages/orchestrator/src/run-task.ts:730-735 | outside a forced wave every dependency of an agent is in a strictly earlier wave |
| Waves.Earliest | packages/orchestrator/src/run-task.ts:728-744 | no valid schedule places an agent earlier than its wave |
| Waves.ScheduleMeansFree | packages/orchestrator/src/run-task.ts:730-738 | if there is any valid schedule, the fallback never fires |
| Waves.FewestWaves | packages/orchestrator/src/run-task.ts:728-744 | no valid schedule needs fewer slots than there are waves |
| Waves.StuckHasCycle | packages/orchestrator/src/run-task.ts:736-738 | when the fallback fires although all dependencies are assigned, there is a dependency cycle |
| ConcurrentRun.KnownDeps | packages/orchestrator/src/plan.ts:96-98 | of a raw dependency list exactly the strings that name team members survive |
| ConcurrentRun.KnownDepsInOrder | packages/orchestrator/src/plan.ts:96-98 | they stand in the order of the list |
| ConcurrentRun.KnownDepsCount | packages/orchestrator/src/plan.ts:96-98 | each as often as it is in the list |
| ConcurrentRun.Cleaned | packages/orchestrator/src/plan.ts:91-104 | an entry is accepted exactly if it names a team member and has a subprompt; it keeps its agent and, unless that is empty, its subprompt, and an empty dependency list becomes an absent one |
| ConcurrentRun.CleanedInOrder | packages/orchestrator/src/plan.ts:88-107 | the assignments are what becomes of exactly the accepted entries, one for each and in their order |
| ConcurrentRun.ValidateAssignments | packages/orchestrator/src/plan.ts:88-107 | the validation loop drops malformed and unknown entries and cleans the others in order |
| ConcurrentRun.RunConcurrentTask | packages/orchestrator/src/run-task.ts:233-311 | the wave loop, with aborts, failed spawns and throwing runs, yields the log of the run the rows below describe: who is spawned with which prompt, and which results come back |
| ConcurrentRun.RunWave | packages/orchestrator/src/run-task.ts:266-307 | one wave spawns all members from the same state and records failed spawns before live results |
| ConcurrentRun.SpawnsAndResults | packages/orchestrator/src/run-task.ts:252-308 | a run spawns exactly the agents of the waves it starts, wave by wave and in the order of the wave; its results are, wave by wave, those of the agents that could not be spawned, with the reason, and then those of the others, with the exit, text, browser state and error the agent ended with; if it throws, it does so in the last wave it spawned |
| ConcurrentRun.EndsReported | packages/orchestrator/src/run-task.ts:286-304 | so every agent whose run ended has a result with its exit, text, browser state and error, and every agent that could not be spawned one with the reason |
| ConcurrentRun.OneResultEach | packages/orchestrator/src/run-task.ts:252-308 | a planned run that is not aborted returns exactly one result for each distinct planned agent, unless the run of an agent it spawned throws, which is exactly when it throws itself |
| ConcurrentRun.OneResultEachStarted | packages/orchestrator/src/run-task.ts:252-308 | with aborts, exactly one result for each agent of the waves that were started, with the same exception |
| ConcurrentRun.OneThrows | packages/orchestrator/src/run-task.ts:298-302 | a team of one whose run throws: the run throws after one spawn and has no results |
| ConcurrentRun.NoDepsFirst | packages/orchestrator/src/run-task.ts:730-735 | an agent without dependencies is always in the first wave |
| ConcurrentRun.DataFlow | packages/orchestrator/src/run-task.ts:484-496 | the prompt of every spawn is the subprompt of the agent's last assignment, or the task prompt if nothing is assigned to it, under exactly what those of that assignment's dependencies that are in earlier waves left, in declared order; the all-outputs branch is never taken in a concurrent run |
| RunState.FormatBrowser | packages/orchestrator/src/run-task.ts:749-757 | the text has a line for each field that is set and is never empty, so the truthiness checks on it always pass; it says "(empty)" exactly when no field is set |
| RunState.FieldLines | packages/orchestrator/src/run-task.ts:749-756 | each of the five lines is there exactly if its field is set, and no other line is |
| RunState.FullBrowser | packages/orchestrator/src/run-task.ts:749-756 | with all fields set the text has the five lines in this order |
| RunState.TextFromBlocks | packages/orchestrator/src/run-task.ts:528-539 | the text an agent reads is one block after the other, a blank line between two, and then a rule and its own prompt; without blocks it is the prompt alone |
| RunState.RecordCompletedStageOutputs | packages/orchestrator/src/run-task.ts:542-554 | the recording loop folds the results into the two maps |
| RunState.RecordMirrors | packages/orchestrator/src/run-task.ts:542-554 | the maps hold, for each agent, the last text and the last browser state among its results, and nothing else |
| RunState.ApplyPredecessorContext | packages/orchestrator/src/run-task.ts:523-540 | the block loop puts each dependency's output before its browser state, in dependency order |
| RunState.BuildPrompt | packages/orchestrator/src/run-task.ts:484-496 | which of the three branches builds the prompt |
| RunState.InheritsAll | packages/orchestrator/src/run-task.ts:487-496 | without dependencies a prompt carries what everyone left: agents with text in order of first text, then those with a browser state only |
| SlimRun.Resolve | packages/orchestrator/src/run-task.ts:574-585 | no request means the team; else each requested agent once, at its first place, and failure exactly if one is not in the team |
| SlimRun.RunStage | packages/orchestrator/src/run-task.ts:344-421 | the loop body of one stage: replay a matching checkpoint, or stop with what `SlimRun.RunReports` says, or spawn |
| SlimRun.FinishStage | packages/orchestrator/src/run-task.ts:405-421 | a finished agent is recorded and, if it completed, checkpointed |
| SlimRun.RunSlimTask | packages/orchestrator/src/run-task.ts:313-425 | a whole run, whatever befalls it, keeps the store genuine, is on the track of the uninterrupted run, and returns and stores what `SlimRun.RunReports` says; a sequence that does not resolve yields one failure that names the unknown agents |
| SlimRun.RunReports | packages/orchestrator/src/run-task.ts:339-424 | by the fate of its stages alone: a run gets past a stage only without an agent, by a record of this very stage, agent, sequence and team, or by completing it; it returns the uninterrupted results of those, and then, unless it was aborted, one for the stage where it stopped, with the unknown agent, the spawn error, or the exit, text, browser state and error of the agent; it stores the uninterrupted checkpoint of each stage it completed itself and changes nothing else |
| SlimRun.IdealPrompt | packages/orchestrator/src/run-task.ts:381-390 | in the uninterrupted run a stage sees what every earlier stage left |
| SlimRun.ReplayIsRecord | packages/orchestrator/src/run-task.ts:353-365 | replaying a checkpoint changes the in-memory state as the run it stands for did |
| SlimRun.ArriveKeeps | packages/orchestrator/src/run-task.ts:339-394 | the first half of a stage keeps the run on track |
| SlimRun.SettleKeeps | packages/orchestrator/src/run-task.ts:405-421 | the second half keeps the run on track and every stored checkpoint genuine |
| SlimRun.CrashAndResume | packages/orchestrator/src/run-task.ts:339-424 | over any interleaving of any number of runs, sequences, aborts, failures and crashes, every checkpoint equals what the uninterrupted run of its own sequence and team yields, and a finished run has that run's results, outputs and browser states in the same insertion order |
| SlimRun.LoopFinishes | packages/orchestrator/src/run-task.ts:339-424 | a run that nothing befalls finishes |
| SlimRun.UndisturbedIsIdeal | packages/orchestrator/src/run-task.ts:339-424 | on any genuine store it finishes with the results and the state of the uninterrupted run |
| SlimRun.RerunEndsIdeally | packages/orchestrator/src/run-task.ts:313-425 | so a rerun that nothing befalls ends as the uninterrupted run, whatever runs, crashes and failures came before |
| SlimRun.Resumes | packages/orchestrator/src/run-task.ts:353-365 | a rerun gets past every stage the earlier run completed without starting an agent |
| AbortChain.RunSignals.Abort | packages/agent-runtime/src/concurrent.ts:15-31 | synchronous dispatch aborts exactly the least set closed under listeners of controllers not aborted before |
| AbortChain.AbortsUnique | packages/agent-runtime/src/concurrent.ts:15-31 | that description determines which controllers are aborted |
| AbortChain.AbortedIff | packages/orchestrator/src/run-task.ts:34-40 | after any sequence of registrations, concurrent runs and kills a controller is aborted if and only if the session was killed or the agent it serves was, before or after it was created, by the controller registered for it at that time |
| AbortChain.GroupReaches | packages/agent-runtime/src/concurrent.ts:22-38 | aborting a group reaches every member and its run |
| AbortChain.RunSignals.RegisterAgent | packages/orchestrator/src/run-task.ts:476-482 | an agent's controller is created aborted exactly if the session is, and else listens to it; no other controller changes |
| AbortChain.RunSignals.AddMember | packages/agent-runtime/src/concurrent.ts:22-31 | a member's two controllers follow the agent's, even when the group was aborted before they listen |
| AbortChain.RunSignals.RunConcurrent | packages/agent-runtime/src/concurrent.ts:15-40 | a group is created aborted exactly if the session is, every member gets its chain, aborted exactly if its agent's controller is, and listens to the group; no existing controller changes |
| AbortChain.RunSignals.KillSession | packages/orchestrator/src/run-task.ts:38-40 | every controller there is is aborted |
| AbortChain.RunSignals.KillAgent | packages/orchestrator/src/run-task.ts:35-37 | exactly the registered agent's chain is aborted; an unregistered agent cannot be killed |
| AbortChain.SessionReachesAll | packages/orchestrator/src/run-task.ts:476-482 | once the session is aborted, every controller created before or after is aborted |
| AbortChain.AgentAbortExact | packages/agent-runtime/src/shell.ts:22-27 | aborting an agent's controller reaches its members and their runs and nothing else |
| AbortChain.ChainsDisjoint | packages/agent-runtime/src/concurrent.ts:22-31 | two agents' chains share no controller |
| AbortChain.AbortKeepsValid | packages/agent-runtime/src/concurrent.ts:16-31 | every abort keeps "parent aborted, child aborted; else child listens" |
| AbortChain.CreatedValid | packages/orchestrator/src/run-task.ts:476-482 | check-then-listen keeps it too, whenever the controller is created |
| Sanitizer.SanitizeModelMessages | packages/agent-core/src/loop.ts:397-423 | the one-pass loop with its carried set computes the specified scan |
| Sanitizer.AnsweredParts | packages/agent-core/src/loop.ts:430-441 | of an assistant's parts exactly the calls without a result go |
| Sanitizer.AnsweredInOrder | packages/agent-core/src/loop.ts:433-437 | the others stay in order |
| Sanitizer.AnsweredCount | packages/agent-core/src/loop.ts:433-441 | a part stays as often as it is there, or goes altogether |
| Sanitizer.AnsweringParts | packages/agent-core/src/loop.ts:450-455 | of a tool message's parts exactly the results of pending calls stay |
| Sanitizer.AnsweringInOrder | packages/agent-core/src/loop.ts:450-455 | they stay in order |
| Sanitizer.AnsweringCount | packages/agent-core/src/loop.ts:450-455 | each as often as it is there |
| Sanitizer.SanitizePairs | packages/agent-core/src/loop.ts:397-474 | every output is well paired: each call has its result in the very next message, which is a tool message, and a tool message consists of results of calls of the assistant message before it |
| Sanitizer.SanitizeIdentity | packages/agent-core/src/loop.ts:397-474 | a well-paired history is returned unchanged |
| Sanitizer.SanitizeIdempotent | packages/agent-core/src/loop.ts:397-474 | sanitizing twice is sanitizing once |
| Sanitizer.SanitizeExact | packages/agent-core/src/loop.ts:397-474 | the carried state is equivalent to looking at a message's two neighbours in the input |
| Sanitizer.GoneOrKept | packages/agent-core/src/loop.ts:430-457 | an assistant message goes exactly if it has parts and all are calls without a result, a tool message exactly if no part is a result of a pending call, any other never; what stays keeps its role and text and is not emptied |
| Sanitizer.DroppedOnlyIfUnpaired | packages/agent-core/src/loop.ts:433-453 | a call is dropped if and only if the next input message has no result for it, a result if and only if the previous input message has no call for it |
| Sanitizer.SanitizeKeepsPlain | packages/agent-core/src/loop.ts:418-419 | user and system messages all stay, in order |
| Interrupts.MergeInterruptMessages | packages/agent-core/src/loop.ts:162-174 | the merged list is the next messages followed by the interrupts, whichever of the lists are the same object |
| Interrupts.PrepareStep | packages/agent-core/src/loop.ts:304-308 | after merging, the loop's own list is well paired and has lost no user or system message |
| Interrupts.InterruptBuffer.BeginHasInterrupts | packages/agent-core/src/loop.ts:242-243 | looking asks the source only when nothing is pending, and hands nothing over |
| Interrupts.InterruptBuffer.EndHasInterrupts | packages/agent-core/src/loop.ts:244-247 | what the source had becomes pending, in place of what is |
| Interrupts.InterruptBuffer.BeginLoadInterrupts | packages/agent-core/src/loop.ts:233-238 | whatever is pending is handed over, once and in order, before the source is asked again |
| Interrupts.InterruptBuffer.EndLoadInterrupts | packages/agent-core/src/loop.ts:239 | what the source had is handed over at once; all four keep every message taken handed over, pending or lost, and without overlapping calls in order and none lost |
| Interrupts.LostIff | packages/agent-core/src/loop.ts:233-248 | in every run of overlapping calls nothing is lost if and only if no look ends with something while something is pending; every message taken is handed over, pending or lost; nothing is lost unless two looks wait at once, and while no two calls do messages stay in order |
| Interrupts.TwoLooksLose | packages/agent-core/src/loop.ts:242-248 | two overlapping looks, of which the second to end overwrites what the first has read |
| CodexStream.RunBounded | packages/llm/src/codex-responses.ts:202-353 | in every run at most CODEX_WS_OPEN_RETRIES + 1 sockets are created, the fallback starts at most once, and the controller is closed or errored at most once, or at most twice after a cancel |
| CodexStream.SettledTwiceIff | packages/llm/src/codex-responses.ts:262-280 | the second time is exactly a fallback that ends well after a cancel |
| CodexStream.CancelledFallbackSettlesTwice | packages/llm/src/codex-responses.ts:262-280 | a run in which that happens |
| CodexStream.FailureOutcome | packages/llm/src/codex-responses.ts:248-337 | a failure of an undone response has exactly one effect: one more socket while nothing has arrived and attempts are left, the fallback when none are, an errored controller when something has arrived or the signal is aborted; a done response is left alone |
| CodexStream.HandlersEffect | packages/llm/src/codex-responses.ts:219-348 | the handlers, which call one another and recur, change the variables at each event exactly as a flat table says |
| CodexStream.FrameEffect | packages/llm/src/codex-responses.ts:285-304 | of a response under way an ordinary frame is passed on, a done event adds the end mark and closes, and a terminal error errors the controller, aborted or not |
| CodexStream.ReopensIff | packages/llm/src/codex-responses.ts:248-337 | in every run, cancelled or not, another socket can still be opened if and only if the signal is not aborted, no frame has arrived and attempts are left |
| CodexSource.NeverMixed | packages/llm/src/codex-responses.ts:219-346 | without a harmful send callback the body is frames of one single socket or all fallback bytes, the controller is never written to after its end, and until it is settled exactly one source feeds it |
| CodexSource.MixesIff | packages/llm/src/codex-responses.ts:312-331 | an event makes a mixed body possible if and only if it is a send callback that fails while the response streams, is neither done nor aborted, and waits for another socket |
| CodexSource.LateCallbackMixes | packages/llm/src/codex-responses.ts:326-328 | a concrete run in which a late send callback makes the body a mix |
| CodexStream.CancelStillReopens | packages/llm/src/codex-responses.ts:345-348 | a concrete run in which a cancelled response opens another socket |
| CodexHandlers.SocketStream.Handle | packages/llm/src/codex-responses.ts:219-348 | the handlers, closures over shared variables, keep at every event the bounds of every run, a sealed controller, and one source for the body unless a harmful callback has reported; a text frame has the outcome of `CodexStream.FrameEffect` |
| SseFraming.RoundTrip | packages/llm/src/codex-responses.ts:293 | reading the written stream by the WHATWG rules gives back the frames in order, with line breaks normalised |
| SseFraming.RoundTripIff | packages/llm/src/codex-responses.ts:293 | and it does so if and only if no frame has a lone carriage return |
| SseFraming.LoneReturnLost | packages/llm/src/codex-responses.ts:293 | a frame that is a lone carriage return does not survive |
| ErrorWalk.Walk.VisitValue | packages/agent-core/src/error-classification.ts:86-96 | the recursive visit with its shared list and set ends on cyclic graphs and collects the specified layers |
| ErrorWalk.WalkCollects | packages/agent-core/src/error-classification.ts:86-96 | the layers are exactly the objects reachable through cause and error, each once, the error first |
| ErrorWalk.WalkOrder | packages/agent-core/src/error-classification.ts:88-96 | each next layer is what the latest layer that leads to anything new leads to, its cause before its error |
| ErrorWalk.AllMessages | packages/agent-core/src/error-classification.ts:97-99 | every message of the layers counts, in their order |
| Collections.JoinConcat | packages/agent-core/src/error-classification.ts:100 | two lists of messages are joined with one separator between them |
| ErrorWalk.FirstsDecide | packages/agent-core/src/error-classification.ts:101-106 | the status and the address are those of the first layer that has one, and there is none exactly if no layer has one |
| ErrorWalk.ContextLengthFound | packages/agent-core/src/error-classification.ts:97-142 | a context-length code or name at any depth, or a known phrasing, decides the class if and only if neither the 404 nor the 400 rule comes first |
| ErrorSearch.ReturnsIff | packages/agent-core/src/error-classification.ts:56-82 | a search for a pending approval or input comes back if and only if no course through the error graph, to a cause or past a barren cause to an error, meets an object twice |
| ErrorSearch.OwnCauseNeverReturns | packages/agent-core/src/error-classification.ts:63-66 | an error that is its own cause keeps a search from coming back |
| ErrorSearch.EmptyIff | packages/agent-core/src/error-classification.ts:56-82 | it comes back empty-handed if and only if neither a cycle nor what it looks for can be reached |
| ErrorSearch.HitReachable | packages/agent-core/src/error-classification.ts:56-68 | what it finds is such an entry and can be reached |
| ErrorSearch.HitOnCourse | packages/agent-core/src/error-classification.ts:63-66 | and a course leads to it: an entry under the cause is found before one under the error |
| ErrorSearch.OneCourse | packages/agent-core/src/error-classification.ts:63-66 | courses lead to one such entry only, so which one is found is determined |
| ErrorSearch.ClassifierReachedIff | packages/agent-core/src/loop.ts:96-107 | the agent loop gets to classify exactly the errors that lead neither into a cycle nor to such an entry |
| ErrorWalk.Reclassified | packages/agent-core/src/error-classification.ts:110-140 | classifying the error the classifier throws gives the same class and message |
| ErrorWalk.RunAgentLoopWithRetry | packages/agent-runtime/src/loop-host.ts:62-83 | at most two calls and one hook call; a second call only after a context-length failure the hook could reduce; a second failure surfaces |
| CallQueue.Serialised | packages/mcp-client/src/connection.ts:87-115 | in every run at most one item's work is under way, items start in enqueue order, a waiting item has an active drainer, and no promise settles twice |
| CallQueue.OwnOutcome | packages/mcp-client/src/connection.ts:104-112 | each promise has the outcome of its own item's work |
| CallQueue.Drains | packages/mcp-client/src/connection.ts:91-102 | without further calls every step brings the end nearer, and where no step is possible every call has settled |
| CallQueue.Connection.EnqueueWork | packages/mcp-client/src/connection.ts:104-115 | enqueueing, from anywhere, keeps the queue's invariant and starts a drainer if there is none |
| CallQueue.Connection.EndWork | packages/mcp-client/src/connection.ts:106-112 | the end of an item's work, also by throwing, settles its own promise for the first time |
| CallQueue.Connection.ResumeDrain | packages/mcp-client/src/connection.ts:95-101 | the drain loop goes on with the next item or ends, in one step |
| CallQueue.TimedCall.Settle | packages/mcp-client/src/connection.ts:254-284 | the first of timeout, abort and the work's own end decides, with its own value, reason or message; timer and listener are then gone |
| Migrations.Database.RunMigrations | packages/context-store/src/db.ts:1796-1903 | the loop, stopped anywhere, leaves the database the specified run leaves, which `Migrations.RunFollowed` describes |
| Migrations.RunFollowed | packages/context-store/src/db.ts:1812-1902 | a run, stopped or not, on any list: there is a schema between any two migrations such that one that was recorded or whose guard holds leaves the schema as it is and any other changes it by its body, which takes effect then and only then; all are recorded; the run completes at the end of the list, is stopped when its budget is used up, and else throws before a migration whose body throws or whose id has just been recorded |
| Migrations.CrashAndResume | packages/context-store/src/db.ts:1804-1902 | after any number of stopped runs an unstopped one ends as a single uninterrupted run would have: same database, same record, same bodies in the same order, same way of ending |
| Migrations.AtMostOnce | packages/context-store/src/db.ts:1812-1902 | over any number of stopped runs each body takes effect at most once, in list order |
| Migrations.RepeatedIdThrows | packages/context-store/src/db.ts:1799 | any list that repeats an id throws, on every database that lacks it |
| ToolRewrite.RoleToolsExact | packages/context-store/src/db.ts:1963-1971 | a role's list comes out as exactly the ids that are not old, inherited, empty or baseline, each once |
| ToolRewrite.RenamedExactly | packages/context-store/src/db.ts:1923-1930 | two old ids become channel.close, four go, inherited names go, all others stay |
| Collections.FirstsInOrder | packages/context-store/src/db.ts:1970 | the ids stand in the order of their first occurrences |
| ToolRewrite.InheritedNameLost | packages/context-store/src/db.ts:1967 | a tool with the name of an inherited property is dropped |
| ToolRewrite.RewriteToolListIdempotent | packages/context-store/src/db.ts:1963-1971 | rewriting a rewritten list changes nothing |
| ToolRewrite.LastEntryWins | packages/context-store/src/db.ts:2001-2007 | colliding keys of the tools record collapse to one with the value of the last, and no key comes from nowhere |
| ToolRewrite.FirstEntryPlaces | packages/context-store/src/db.ts:2001-2007 | it stands at the place of the first |
| ToolRewrite.SpreadItems | packages/context-store/src/db.ts:1993-2010 | an array spread into an object keeps each item under its index |
| ToolRewrite.RewriteRecordIdempotent | packages/context-store/src/db.ts:2001-2007 | rewriting a rewritten record changes nothing, not even the key order |
| ToolRewrite.ConfigExact | packages/context-store/src/db.ts:1990-2010 | of a configuration the roles have their tool lists rewritten and the tools record its keys, as the rows above say; every other property of it and of a role is as it was, in the same place |
| ToolRewrite.RewriteConfigIdempotent | packages/context-store/src/db.ts:1983-2010 | the rewrite of a whole configuration, arrays included, which four migrations repeat, is idempotent |
| ToolRewrite.TeamConfigs.Migrate | packages/context-store/src/db.ts:1973-2011 | every stored configuration that parses is rewritten, the others are left |
| Replay.ReplayRefinesLogIff | packages/context-store/src/pending-events.ts:21-66 | every replay at a time answers exactly what it would over everything ever published, if and only if no purge dropped an event that has not lapsed by that time |
| Replay.ReplayUnderClock | packages/context-store/src/pending-events.ts:21-66 | a clock that does not go back is enough, and then publication order is an answer |
| Replay.BackwardClockMayKeep | packages/context-store/src/pending-events.ts:38 | a concrete history in which the clock goes back and no replay changes |
| Replay.PurgeInvisibleIff | packages/context-store/src/pending-events.ts:62-65 | a purge changes no replay at a time if and only if it drops no row that has not lapsed by then |
| Replay.BackwardClockLoses | packages/context-store/src/pending-events.ts:38 | a concrete history in which a clock that goes back loses an event |
| Replay.EventBus.Publish | packages/event-bus/src/index.ts:32-48 | an event is stored with its time to live, a day unless configured, and then every listener of its channel is called, unless its audit fails; publishing throws exactly then, or when nobody listens on the emitter's error channel |
| Replay.EventBus.Subscribe | packages/event-bus/src/index.ts:50-73 | a subscription is added behind those there are |
| Replay.EventBus.Unsubscribe | packages/event-bus/src/index.ts:73 | exactly that subscription goes |
| Replay.EventBus.Close | packages/event-bus/src/index.ts:82-84 | all subscriptions go |
| Subscribers.HearsExactly | packages/event-bus/src/index.ts:47-73 | every handler hears exactly the events emitted on its channel while it is subscribed, each once and in order |
| Subscribers.DeliveredInTurn | packages/event-bus/src/index.ts:47-64 | one emission calls exactly the listeners of its channel, once each, in the order in which they subscribed |
| Replay.EventBus.PurgeExpired | packages/context-store/src/pending-events.ts:62-65 | exactly the lapsed rows go, every other stays as often as it was there, and the number of those gone is returned |
| Replay.EventBus.Replay | packages/event-bus/src/index.ts:76-80 | the answer is exactly the rows of the channel that are not older than the time given and have not lapsed, by creation time |
| Replay.SelectCount | packages/context-store/src/pending-events.ts:26-31 | a row is selected as often as it is stored if it is of the channel, not older than asked for and not lapsed, and else not at all |
| Replay.UnexpiredCount | packages/context-store/src/pending-events.ts:38 | a purge deletes a row exactly if it has lapsed |
| StreamAdapter.DoStream | apps/vscode-extension/src/vscode-lm-language-model.ts:175-229 | the loop with its open-block flag emits the specified parts |
| StreamAdapter.Bracketed | apps/vscode-extension/src/vscode-lm-language-model.ts:188-223 | text is only inside a block, tool calls and finishes only outside, and the last block is closed if and only if the last delta that shows is not text |
| StreamAdapter.ShowsAll | apps/vscode-extension/src/vscode-lm-language-model.ts:175-227 | the stream shows every non-empty text, call and finish of the provider in order, a finish as tool calls, error or stop by its reason, and nothing else; no block is empty or closed only to be opened again; it ends in an error part exactly if the provider fails |
| StreamAdapter.ErrorInsideBlock | apps/vscode-extension/src/vscode-lm-language-model.ts:224-226 | a provider that fails after some text leaves the error part inside the block |
| StreamAdapter.CollectGenerateFromStream | apps/vscode-extension/src/vscode-lm-language-model.ts:118-146 | the content is the text, if any, then the tool calls; the finish reason is the last one or stop |
| StreamAdapter.CollectStream | apps/vscode-extension/src/vscode-lm-language-model.ts:118-146 | collecting an adapted stream gives all provider text in order, all tool calls in order, and the last finish |

## Left out

- RunState.BuildPrompt: the prompt is kept as its blocks and own text; `RunState.Text` spells out the text the agent reads, a function of these, so what is proved of prompts holds of their texts.
- SlimRun.CrashAndResume: assumes that a completed stage is a function of agent and prompt; what an agent reads from other stores while it works, and subprompts that a planner words differently on a rerun, are outside it.
- AbortChain.RunSignals.RunConcurrent: the handles are not part of this model, so `killAll` is only what `AbortChain.GroupReaches` says of its controller; nor is what an agent does once its signal is aborted.
- CodexSource.MixesIff: says which event first makes a mixed body possible, not what more may follow once one has; a socket whose `send` throws synchronously is not modelled.
- SseFraming.RoundTrip: strings stand for decoded text; UTF-8 and lone surrogates are not modelled.
- ErrorWalk.RunAgentLoopWithRetry: `instanceof` is read as the name every such error carries; the reduced messages reach the next call through `buildArgs`, which is a parameter.
- ErrorWalk.ContextLengthFound: the regular expressions are arbitrary predicates on the joined messages; extracting a model id from the url is left out.
- ErrorSearch.ReturnsIff: the depth of the call stack is not bounded; a search that does not come back ends in practice by exhausting it.
- CallQueue.Drains: that an item's work ever ends is the environment's; an item that awaits a call it has itself enqueued never ends.
- Migrations.CrashAndResume: the SQL of the migrations is abstract, a transaction is atomic, and nothing else changes the schema between runs.
- ToolRewrite.RewriteConfigIdempotent: the keys of an object are taken in the order in which JavaScript lists them; the time stamp of the row is not compared.
- Replay.EventBus.Publish: the awaits of one publication are one step; the ids of rows, a bus without a store, and the stored events a new subscription may ask for are left out.
- `deriveStatus`, the synthesis of the task output, approvals, planning prompts and JSON extraction: single-body decisions, or library behaviour.
- `packages/mcp-client/src/pool.ts`, subscriptions of `packages/context-store/src/context.ts`, the AI SDK's own loop, SQLite, WebSocket and MCP internals, user interfaces and packaging are not part of this model.
