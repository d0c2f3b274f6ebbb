# Verified model of the orchestration layer

The repository is a desktop AI workspace. Under its windows, schemas and network
clients lies a deterministic core: a scheduler for background tasks, a task
graph with the driver that runs it and the projection that rebuilds it from
events, an event bus, the projections that turn an event log into messages and
conversations, and three small algebraic pieces. This project models that core
in Dafny and proves what it is for.

| files | what they model |
|---|---|
| `Collections.dfy` | sequence helpers and the insertion-ordered JavaScript `Map` |
| `Graphs.dfy`, `Kahn.dfy` | dependency graphs, Kahn's algorithm as a rule and as the counting loop |
| `TaskGraphs.dfy` | the mutable `TaskGraph` |
| `Events.dfy`, `EventStream.dfy` | the event vocabulary, and sorting a stored stream |
| `TaskProjection.dfy`, `TaskContents.dfy`, `ReplayAgreement.dfy` | rebuilding a task graph from its log, what it then holds, and when that agrees with the live one |
| `RuntimeModel.dfy` | the live runtime as graph and log, cut at every await; what each segment keeps |
| `Openings.dfy` | how a task starts, and replans that come before its plan is announced |
| `RuntimeRuns.dfy` | runs and reachable states; what a store tells about them |
| `RuntimeProgress.dfy`, `DriverRounds.dfy` | what a stretch of a run leaves intact; node outcomes, rounds, budgets, reports |
| `NodeRuns.dfy` | the vocabulary and the history of one node run: turns, tool calls, verdicts |
| `AgentRuntime.dfy` | the agent runtime for one task: tool calls, node runs, driver, task |
| `BackgroundTasks.dfy`, `Scheduler*.dfy`, `LateSettlements.dfy`, `BackgroundTaskManager.dfy` | lifecycle tables, the scheduler as a transition system, its properties, the manager |
| `EventBus*.dfy` | the re-entrant bus as a transition system, its properties, the class |
| `Message*.dfy`, `Conversation*.dfy`, `Renderer.dfy` | message and conversation projections, what they hold, and the renderer's own reducer |
| `Template*.dfy`, `Sync.dfy`, `Ulid.dfy` | URI templates, last-writer-wins resolution, ULID time coding |

Code that awaits is modelled as atomic segments. A class method is one segment
or a sequence of segments with awaits between them; at an await any number of
other callers get in (`Await`). Each method is tied to a step of a transition
system on values, and the theorems over all runs are proved about that system.
Choices of the environment (model answers, tool replies, the permission
gateway, delegate outcomes, clocks and generated ids) are arbitrary values.

Where the code and its comments differ, the model follows the code:

- `addNode` inserts before it validates, so a rejected node stays behind
  (packages/agent-runtime/src/runtime/task-graph.ts:140-145); `AddAgreement` says exactly when that costs agreement.
- A drive whose rounds run out reports completion even with nodes still open
  (packages/agent-runtime/src/runtime/agent-runtime.ts:325); `DriveGraph` says so.
- Tool text shares its type with the words "blocked", "failed" and "cancelled"
  (packages/agent-runtime/src/runtime/agent-runtime.ts:628-631): a tool that answers one of
  them blocks, fails or cancels its node. The model keeps the strings.
- Tool outcome "failed-transient" and the text after the retry loop are never
  produced by the runtime itself (packages/agent-runtime/src/runtime/agent-runtime.ts:621-650):
  `ToolVerdict` leaves no room for them.
- An error that escapes a resumed drive leaves the task active with no terminal event
  (packages/agent-runtime/src/runtime/agent-runtime.ts:228-232).
- Recovery takes slots without a cap check (packages/agent-runtime/src/runtime/background-task-manager.ts:795-818).
- A settlement that arrives while a task is parked hides the later ones until the task is launched again
  (packages/agent-runtime/src/runtime/background-task-manager.ts:952-959); `SettlementEndsIff` says exactly when.
- A blocked task projects as active: the runtime's blocks name a node, and a node's block leaves the task's status alone
  (packages/ai-core/src/projections/task-graph.ts:260-271); `PublishedReplays` says so.
- Schemes are compared in lower case, but the match that follows is not
  (packages/ai-core/src/mcp-capabilities.ts:203-259); `SchemeSpelling` says exactly what that refuses.
- `isUlid` admits times beyond 48 bits (packages/shared/src/ids.ts:86-108).

Replay agreement is not free: `AgreementThroughout` gives its exact condition over runs,
and `OpeningAgreement` that of the time before the plan is announced. Whether an add is fit
can be checked before it is made: its id is known, or its dependencies exist. Whether a
replan may commit is known when it ends: no node it added has completed or failed by then;
a replan with nothing in between always may (`AtomicReplanAgrees`). Neither ids used again
nor other events in the store matter. Sound starts, and a driver that runs each node
once, do count on ids that are not used again, and say so.

## Model

| member | source | states |
|---|---|---|
| `RuntimeRuns.ReplayRebuildsLiveGraph` | packages/agent-runtime/src/runtime/agent-runtime.ts:154-164 | Main result. From the opening of a task on, after any adds, replan commits, node segments and other events that meet the conditions of `AgreementThroughout`, in any order and under any ids, projecting any store that holds the task's events, in any order and among those of other tasks and conversations, succeeds and gives the live graph: same nodes in the same order, same dependency sets, roots, goals and execution order, the same completed nodes with the same results, the same failed nodes with the same errors; and the task's title, with the status its events announced last |
| `RuntimeRuns.AgreementThroughout` | packages/agent-runtime/src/runtime/agent-runtime.ts:264-282 | From agreement on, over any sequence of segments, replay agrees with the live graph at every moment if and only if every add is refused or names existing dependencies only, every replan ends before a node it added has completed or failed, no finished node is cancelled, and no completed node is given another result |
| `RuntimeRuns.AtomicReplanAgrees` | packages/agent-runtime/src/runtime/agent-runtime.ts:264-282 | A replan with nothing between its adds and its commit, whose nodes are new and name existing dependencies, always keeps replay in agreement, whatever it removes |
| `Openings.OpeningAgreement` | packages/agent-runtime/src/runtime/agent-runtime.ts:150-164 | When replay survives replans that slip in before the initial plan is announced: exactly when, with the root still there, no node they added survives, and, with the root removed, no surviving node has lost its last dependency |
| `AgentRuntimes.AgentTask.PublishedReplays` | packages/agent-runtime/src/runtime/agent-runtime.ts:154-164 | The main result for the running object: from the announcement of the root on, at every await, any store that holds its `published` events projects to its `graph` under its title; the projected status is the one the task has ended with, and active before, blocked tasks included; and unless ids were used again every start so far was sound |
| `RuntimeModel.StepAgreement` | packages/agent-runtime/src/runtime/agent-runtime.ts:264-526 | From agreement, any one segment keeps agreement if and only if it meets its condition, for adds, commits, node segments and cancellations alike |
| `RuntimeModel.AddAgreement` | packages/agent-runtime/src/runtime/task-graph.ts:123-147 | Adding as coded, insertion first, then validation, then the announcement if accepted, keeps replay in agreement if and only if the id is known or every dependency exists |
| `RuntimeModel.StepKeepsGood` | packages/agent-runtime/src/runtime/agent-runtime.ts:342-526 | Every segment between two awaits keeps the graph a valid DAG and the replayed log in agreement with it, and, while no id is announced twice, every start in the log sound |
| `RuntimeRuns.SecondStartNeedsBlock` | packages/agent-runtime/src/runtime/agent-runtime.ts:218-233 | In every reachable state without reuse of ids, a node starts only when its dependencies have completed, and a second time only after it was blocked in between: at most once without resume |
| `RuntimeRuns.NewIdsStayFresh` | packages/agent-runtime/src/runtime/agent-runtime.ts:264-275 | A run whose adds use no id again announces each id at most once, if its opening did |
| `RuntimeModel.ReadyStartIsSound` | packages/agent-runtime/src/runtime/task-graph.ts:197-207 | A start of a ready node is sound by the log: its dependencies have completed and it is not running already |
| `RuntimeRuns.OpeningIsGood` | packages/agent-runtime/src/runtime/agent-runtime.ts:150-164 | The state after creation, start and announcement of the plan has all of the invariant, also after early replans that replay survives |
| `RuntimeRuns.StepReaches` | packages/agent-runtime/src/runtime/agent-runtime.ts:342-526 | Every allowed segment from a reachable state leads to a reachable state |
| `ReplayAgreement.CommitAgreement` | packages/agent-runtime/src/runtime/agent-runtime.ts:264-282 | Live replanning removes after adding, replay removes and re-adds as pending: the two agree if and only if no surviving added node completed or failed between its announcement and the replan event |
| `ReplayAgreement.RemovalAgrees` | packages/ai-core/src/projections/task-graph.ts:287-296 | Removing a node live and replaying its removal agree on nodes, dependency sets and roots |
| `ReplayAgreement.AnnouncedAgrees` | packages/agent-runtime/src/runtime/agent-runtime.ts:789-805 | Adding a new node live and replaying its announcement agree, on roots and repeated dependencies too |
| `ReplayAgreement.ReaddResets` | packages/ai-core/src/projections/task-graph.ts:297-318 | Replaying the added nodes of a replan resets exactly those that survive in the live graph and moves no key |
| `ReplayAgreement.AgreementGivesSameOrder` | packages/ai-core/src/projections/task-graph.ts:62-125 | Agreeing graphs validate alike and give the same execution order |
| `AgentRuntimes.AgentTask.DriveGraph` | packages/agent-runtime/src/runtime/agent-runtime.ts:288-326 | Between two round boundaries every node that was ready ran or was removed. A completed drive that did not run out of rounds leaves every node completed, and one that did has no failed node; a failed one has a failed node, was aborted, met a tool whose text is "cancelled", or saw a node removed; a blocked one has a blocked node or saw one removed; one that threw saw one removed. From any boundary on, when nothing fails, blocks, aborts or replans any more, as many rounds left as the longest dependency chain complete every node |
| `AgentRuntimes.AgentTask.DriveRound` | packages/agent-runtime/src/runtime/agent-runtime.ts:294-324 | One round: it stops the drive with a report as above, or has run or lost every node that was ready; after an abort it stops at once and does nothing |
| `AgentRuntimes.AgentTask.RunReadyNode` | packages/agent-runtime/src/runtime/agent-runtime.ts:311-319 | One node of a round: nodes still waiting in the round stay ready or vanish, unless ids are used again; a stop is justified by graph and log |
| `AgentRuntimes.AgentTask.AfterNode` | packages/agent-runtime/src/runtime/agent-runtime.ts:312-317 | The drive goes on after a completed node and after a failed one while some node is pending or active; it stops after any other, with the outcome that goes with it |
| `AgentRuntimes.AgentTask.WithoutReady` | packages/agent-runtime/src/runtime/agent-runtime.ts:298-308 | With nothing ready the drive is blocked exactly when some node is blocked, else failed exactly when some node has failed, else completed with every node completed |
| `AgentRuntimes.AgentTask.ShouldFailFast` | packages/agent-runtime/src/runtime/agent-runtime.ts:328-336 | True exactly when no node is pending or active |
| `DriverRounds.MarksStep` | packages/agent-runtime/src/runtime/agent-runtime.ts:310-324 | One more whole round adds one more boundary and takes every earlier one a level further down its graph |
| `DriverRounds.RoundAdvances` | packages/agent-runtime/src/runtime/agent-runtime.ts:310-319 | After a smooth round an unfinished node has a dependency chain below it one longer than before |
| `DriverRounds.RoundsSuffice` | packages/agent-runtime/src/runtime/agent-runtime.ts:293-326 | After as many smooth rounds as the longest chain is long, every node has completed |
| `DriverRounds.StallIsExplained` | packages/agent-runtime/src/runtime/agent-runtime.ts:303-308 | Nothing ready, nothing blocked, something open, and no node active or cancelled: some node has failed |
| `TaskGraphs.StallNeedsCasualty` | packages/agent-runtime/src/runtime/task-graph.ts:197-232 | Deadlock freedom: in a valid graph with no active or blocked and no ready node, every pending node waits, along dependencies, on a failed or cancelled one |
| `AgentRuntimes.AgentTask.RunNode` | packages/agent-runtime/src/runtime/agent-runtime.ts:342-526 | A node run starts its node and changes no other except by replanning; its outcome is the status of the node (completed, failed, blocked, cancelled) and is published as such, except for a cancellation; it throws only if a replan removed the node meanwhile; no node is left active. It begins where the node's result says, with a checkpoint's calls due first, and its history follows the order of turns and calls. It is done only after the model asked for nothing more, or the turns are used up with no call due, with no failed tool call in between, and publishes the transcript as the result; failed only by a failed tool call or a throwing model; blocked only by a blocked call; cancelled only by an abort or a cancelled call. After an abort it does nothing |
| `AgentRuntimes.AgentTask.TakeTurns` | packages/agent-runtime/src/runtime/agent-runtime.ts:364-511 | The body of a node run: it starts its node, a ready one unless ids were used again, begins with the checkpoint's calls if there are any, and completes the node when its turns run out |
| `NodeRuns.TurnsInOrder` | packages/agent-runtime/src/runtime/agent-runtime.ts:401-504 | In the history of any node run: the model is asked only when no call is due, with the transcript so far, and the calls it asks for are what the run does next, in their order, until it ends |
| `NodeRuns.ReplayedFirst` | packages/agent-runtime/src/runtime/agent-runtime.ts:379-413 | A run that begins with a checkpoint uses its calls, in order, before the model is asked |
| `NodeRuns.EndingsAreLast` | packages/agent-runtime/src/runtime/agent-runtime.ts:433-499 | Only the last act of a run may be a turn without calls, a model error, or a tool outcome that ends the node |
| `AgentRuntimes.AgentTask.TakeTurn` | packages/agent-runtime/src/runtime/agent-runtime.ts:401-437 | One turn uses the pending calls without asking the model, or asks the model once and uses the calls it asks for; after an abort it asks nobody |
| `AgentRuntimes.AgentTask.UseTools` | packages/agent-runtime/src/runtime/agent-runtime.ts:440-503 | The calls of one turn are used in order until one ends the node, each with the transcript the one before left |
| `AgentRuntimes.AgentTask.Rescue` | packages/agent-runtime/src/runtime/agent-runtime.ts:512-521 | A caught error cancels the node if the task was aborted and else fails it with that error published; it escapes exactly when the node is gone |
| `AgentRuntimes.AgentTask.UseTool` | packages/agent-runtime/src/runtime/agent-runtime.ts:439-503 | One requested call and what its outcome text does to the node, unless the node is gone: "failed" ends in a published node failure, "blocked" in a published block with the checkpoint of this call and transcript as the node's result, "cancelled" in a cancelled node; any other goes on with a transcript that ends in it. After an abort the call is not executed. Every tool start in the log is of a call the gateway let through and has its end |
| `AgentRuntimes.AgentTask.ExecuteToolCall` | packages/agent-runtime/src/runtime/agent-runtime.ts:570-651 | A call the gateway blocks publishes no tool event, invokes nothing and is "blocked"; any other publishes exactly one start and one end around at most two invocations, the second only after a transient failure that is no denial; the last reply, or an abort seen before the next attempt, decides outcome and end event. An aborted task invokes nothing |
| `NodeRuns.React` | packages/agent-runtime/src/runtime/agent-runtime.ts:610-645 | Which replies lead to a retry, and for every other the one outcome and end event it allows |
| `AgentRuntimes.AgentTask.RunTask` | packages/agent-runtime/src/runtime/agent-runtime.ts:119-180 | A run is announced as created, then started, then ended by exactly one event of the status that is reported, unless it blocks, and then by none; it ends as cancelled if and only if the abort came before that event, and else with the status the drive's outcome asks for; it blocks only unaborted; and what the drive has shown, from every round boundary, still holds |
| `AgentRuntimes.AgentTask.SettleTask` | packages/agent-runtime/src/runtime/agent-runtime.ts:185-212 | Settling takes the status the drive's outcome asks for, or cancelled if and only if an abort came before the terminal event, and keeps all the drive has shown |
| `AgentRuntimes.AgentTask.ResumeTask` | packages/agent-runtime/src/runtime/agent-runtime.ts:218-233 | Resumes blocked tasks only, from the state with blocked nodes pending, with all that the drive shows from there; across any block and resume history there is at most one terminal event; an error that escapes leaves the task active without one |
| `AgentRuntimes.AgentTask.CancelTask` | packages/agent-runtime/src/runtime/agent-runtime.ts:239-259 | Accepted exactly while the task has not ended; sets the abort flag and nothing else |
| `AgentRuntimes.AgentTask.ReplanAdd` | packages/agent-runtime/src/runtime/agent-runtime.ts:264-275 | One node of a replan, for any spec: added and announced exactly when its id is new and its dependencies exist; a known id changes nothing; a missing dependency leaves the node behind unannounced |
| `AgentRuntimes.AgentTask.ReplanCommit` | packages/agent-runtime/src/runtime/agent-runtime.ts:276-281 | The end of a replan, for any arguments: all removals, then one event that describes the surviving added nodes; the runtime's invariant survives it unless an added node has finished |
| `AgentRuntimes.AgentTask.StartTask` | packages/agent-runtime/src/runtime/agent-runtime.ts:150-164 | Creation, start and one announcement for each initial node, in that order, with removals by early replans in between |
| `AgentRuntimes.AgentTask.Emit` | packages/agent-runtime/src/runtime/agent-runtime.ts:691-699 | Each event gets the next sequence number of the task |
| `Kahn.ValidateTaskGraph` | packages/agent-runtime/src/runtime/task-graph.ts:41-97 | The counting algorithm with its queue, in-degrees and adjacency lists computes the verdict of the rule-based order, repeated dependencies included |
| `Kahn.JudgeSoundAndComplete` | packages/agent-runtime/src/runtime/task-graph.ts:41-97 | The verdict is an order if and only if every dependency exists, none is a self-dependency and the graph is acyclic; the order is then a permutation of the nodes with each dependency first; the stuck nodes reported are exactly those on a cycle or depending on one |
| `Kahn.RelaxRefinesRelease` | packages/agent-runtime/src/runtime/task-graph.ts:75-85 | Counting down in-degrees releases exactly the nodes whose dependencies are all done, in adjacency order |
| `Graphs.KahnSoundAndComplete` | packages/ai-core/src/projections/task-graph.ts:92-125 | A node is ordered if and only if no dependency chain from it reaches a cycle |
| `Graphs.KahnOrderIgnoresRepeats` | packages/ai-core/src/projections/task-graph.ts:78-90 | Lists with the same dependency sets give the same order: arrays with repeats and sets agree |
| `Kahn.SameDependenciesSameOrder` | packages/ai-core/src/projections/task-graph.ts:62-125 | The validators of the runtime and of the projection agree on graphs with the same dependency sets |
| `TaskGraphs.InsertionOutcomes` | packages/agent-runtime/src/runtime/task-graph.ts:123-147 | From a valid graph an insertion never ends in the cycle branch, and yields a valid graph exactly when every dependency is present |
| `TaskGraphs.RemovalKeepsDag` | packages/agent-runtime/src/runtime/task-graph.ts:149-161 | A removal keeps the graph closed and acyclic with no re-validation |
| `TaskGraphs.TaskGraph.AddNode` | packages/agent-runtime/src/runtime/task-graph.ts:123-147 | Refuses a known id; else inserts, then validates, and leaves the node behind when it is rejected |
| `TaskGraphs.TaskGraph.RemoveNode` | packages/agent-runtime/src/runtime/task-graph.ts:149-161 | Removes the node from the map, the roots and every dependency list, and says whether it was there |
| `TaskGraphs.TaskGraph.SetNodeStatus` | packages/agent-runtime/src/runtime/task-graph.ts:167-172 | Changes one status; throws for an unknown node and changes nothing |
| `TaskGraphs.TaskGraph.SetNodeResult` | packages/agent-runtime/src/runtime/task-graph.ts:181-186 | Changes one result; throws for an unknown node and changes nothing |
| `TaskGraphs.TaskGraph.SetNodeError` | packages/agent-runtime/src/runtime/task-graph.ts:188-193 | Changes one error; throws for an unknown node and changes nothing |
| `TaskGraphs.TaskGraph.ReadyNodes` | packages/agent-runtime/src/runtime/task-graph.ts:197-207 | The pending nodes with all dependencies completed, in insertion order |
| `TaskGraphs.ReadyMembers` | packages/agent-runtime/src/runtime/task-graph.ts:197-207 | The ready list is repeat-free and holds a node if and only if it is ready |
| `TaskGraphs.TaskGraph.CheckAllTerminal` | packages/agent-runtime/src/runtime/task-graph.ts:225-232 | True exactly when no node is pending, active or blocked |
| `TaskGraphs.TaskGraph.CheckHasFailed` | packages/agent-runtime/src/runtime/task-graph.ts:234-239 | True exactly when some node has failed |
| `TaskProjection.ProjectTaskGraph` | packages/ai-core/src/projections/task-graph.ts:154-382 | Sorting, selecting, folding the events in place and validating gives the projection of the whole stream, whose contents the rows below tell event by event |
| `TaskContents.StatusIsLast` | packages/ai-core/src/projections/task-graph.ts:179-336 | A task's status is the one its last status-bearing event announces: created is pending, started active, blocked without a node blocked, completed, failed and cancelled themselves; with none it is pending (`StatusStartsPending`) |
| `TaskContents.ProjectedStatus` | packages/ai-core/src/projections/task-graph.ts:158-336 | The same for a whole store in any order: the latest status-bearing event of the task decides |
| `TaskContents.TitleIsLast` | packages/ai-core/src/projections/task-graph.ts:179-189 | The title is that of the task's last creation |
| `TaskContents.PresentIffCreated` | packages/ai-core/src/projections/task-graph.ts:196-318 | A node is there if and only if an event created it, alone or in a replan, and no later replan dropped it |
| `TaskContents.NodeStatusIsLast` | packages/ai-core/src/projections/task-graph.ts:196-318 | A node's status is the one given by the last event about it: creation, start, completion, failure, progress, block or replan |
| `TaskContents.NodeResultIsLast` | packages/ai-core/src/projections/task-graph.ts:228-237 | A node's result is that of its last completion, or what it was created anew with since |
| `TaskContents.NodeErrorIsLast` | packages/ai-core/src/projections/task-graph.ts:239-247 | A node's error is that of its last failure, or what it was created anew with since |
| `TaskContents.NodeBirthIsLast` | packages/ai-core/src/projections/task-graph.ts:196-216 | Its goal and parent are those of its last creation |
| `TaskContents.DependencyIsLast` | packages/ai-core/src/projections/task-graph.ts:273-321 | It depends on a node if and only if it was last given that dependency and no later replan removed that node |
| `TaskContents.RootIffNamed` | packages/ai-core/src/projections/task-graph.ts:179-285 | The roots, each once, are the nodes named by a creation of the task or added without dependencies, and not removed by a replan since |
| `TaskContents.ProjectionErrors` | packages/ai-core/src/projections/task-graph.ts:158-167 | The projection refuses a stream exactly when some event has another schema version than 1, and finds no task exactly when no event is the task's |
| `TaskProjection.ApplyReplan` | packages/ai-core/src/projections/task-graph.ts:287-321 | Removals, additions and dependency updates of a replan, in that order |
| `TaskProjection.ReplayOwnEvents` | packages/ai-core/src/projections/task-graph.ts:174-178 | Events of other tasks make no difference |
| `TaskProjection.ProjectionIsOrderBlind` | packages/ai-core/src/projections/task-graph.ts:154-382 | With distinct keys the projection is the same for every permutation of the input |
| `SchedulerRuns.StepKeeps` | packages/agent-runtime/src/runtime/background-task-manager.ts:256-1072 | Every step, operations, passes, late settlements and recovery, keeps the books and moves entries along legal edges only: terminal entries are frozen, attempts count launches |
| `SchedulerRuns.LifecycleOverRuns` | packages/ai-core/src/background-tasks.ts:74-99 | Over every interleaving: all status changes are edges of the transition table, a task has exactly one terminal notice when it has ended and none before, cancel intent is passed on at most once, and no entry is ever seen cancelling |
| `SchedulerRuns.AttemptsAreLaunches` | packages/agent-runtime/src/runtime/background-task-manager.ts:872-888 | An entry's attempt number grows by exactly the number of times its delegate was launched |
| `SchedulerRuns.StepRespectsCaps` | packages/agent-runtime/src/runtime/background-task-manager.ts:857-883 | No step other than recovery takes the slots in use, overall or of a project, over the cap or further over it |
| `SchedulerRuns.CapsOverRuns` | packages/agent-runtime/src/runtime/background-task-manager.ts:857-883 | Hence over every run without recovery the slots never exceed the larger of the cap and what was in use at the start |
| `SchedulerRuns.EmptyManagerStaysWithinCaps` | packages/agent-runtime/src/runtime/background-task-manager.ts:223-237 | Slot safety: from an empty manager the global and per-project caps hold in every run without recovery |
| `SchedulerRuns.PassReachesFixpoint` | packages/agent-runtime/src/runtime/background-task-manager.ts:864-870 | After one left-to-right pass no queued entry could still be launched, and a second pass does nothing |
| `SchedulerRuns.PassIsFair` | packages/agent-runtime/src/runtime/background-task-manager.ts:864-883 | A younger entry is launched past an older one that stays queued only if the older one's project is at its cap |
| `SchedulerRuns.PassMakesProgress` | packages/agent-runtime/src/runtime/background-task-manager.ts:864-883 | A pass launches something whenever something queued can be launched |
| `SchedulerRuns.StartBoundsQueue` | packages/agent-runtime/src/runtime/background-task-manager.ts:280-328 | A start followed at once by its pass leaves at most `maxQueue` entries queued, or as many as there were |
| `SchedulerRuns.RecoveryKeeps` | packages/agent-runtime/src/runtime/background-task-manager.ts:795-818 | Recovery launches and cancels nothing, leaves known entries alone, and restores others queued or parked |
| `SchedulerRuns.RecoveryIsIdempotent` | packages/agent-runtime/src/runtime/background-task-manager.ts:726-829 | Once the records of a recovery have been restored, with any other steps between them and after, recovering any of them again changes no entry and emits nothing, and so does the whole recovery |
| `SchedulerRuns.SummaryIsTotal` | packages/agent-runtime/src/runtime/background-task-manager.ts:733-829 | The four counts of the summary add up to the number of records |
| `SchedulerRuns.RecoveryIgnoresCaps` | packages/agent-runtime/src/runtime/background-task-manager.ts:795-818 | Recovery raises the slots in use, at the cap or not, exactly when it restores a waiting entry: why the cap results exclude it |
| `LateSettlements.SettlementEndsIff` | packages/agent-runtime/src/runtime/background-task-manager.ts:942-1072 | Over every run from an empty manager: the settlement or rejection of its delegate run ends a running task if and only if none came in while the task was parked since that run was launched; otherwise it changes nothing. A task that a settlement ends is completed, failed or cancelled exactly as the run was, a rejected one failed, with the one matching notice published and no other effect |
| `LateSettlements.FlagTellsHistory` | packages/agent-runtime/src/runtime/background-task-manager.ts:952-959 | Over every such run the settled flag of a task that has not ended says exactly that: a report came in while it was parked, since its last launch |
| `LateSettlements.LateSettlementStrands` | packages/agent-runtime/src/runtime/background-task-manager.ts:580-680 | With room for one task there is such a run: started, launched, waiting for permission, settled there, permitted; no later report ends the task. Pausing, resuming and launching it again is a way out: the next report completes it |
| `SchedulerOutcomes.StrangersChangeNothing` | packages/agent-runtime/src/runtime/background-task-manager.ts:831-855 | An operation that does not name a task the manager knows together with that task's own project changes nothing |
| `SchedulerOutcomes.LaunchOutcome` | packages/agent-runtime/src/runtime/background-task-manager.ts:872-915 | A queued task is launched if and only if both caps leave room; then its attempt is one higher and the delegate is called once, with a started notice, and a failed one if it throws; no other task changes |
| `SchedulerOutcomes.CancelOutcome` | packages/agent-runtime/src/runtime/background-task-manager.ts:408-522 | Which tasks can be cancelled, and what a cancel leaves of task, notices and delegate |
| `SchedulerOutcomes.RecoveryOutcome` | packages/agent-runtime/src/runtime/background-task-manager.ts:740-825 | Which records come back, and as what |
| `SchedulerOutcomes.BatchRestores` | packages/agent-runtime/src/runtime/background-task-manager.ts:726-829 | After a whole batch the task of every record that qualifies is there, queued, waiting or paused as its record says, with its project and attempt |
| `SchedulerProperties.EvolvesTransitive` | packages/ai-core/src/background-tasks.ts:74-99 | Legal evolution composes: what holds for steps holds for runs |
| `SchedulerProperties.CancelKeeps` | packages/agent-runtime/src/runtime/background-task-manager.ts:408-522 | Cancelling a running or parked task goes through the legal edges, tells the delegate once and ends in one cancelled notice |
| `SchedulerProperties.PassKeeps` | packages/agent-runtime/src/runtime/background-task-manager.ts:864-915 | A whole pass keeps the invariant and only evolves entries legally |
| `BackgroundTaskManagers.BackgroundTaskManager.Start` | packages/agent-runtime/src/runtime/background-task-manager.ts:256-330 | Accepted exactly for valid input under a new id while a slot is free or the queue has room; then one new queued entry, last in line, and its notice, and a pass to follow; else nothing changes, with the errors in the order of the code |
| `BackgroundTaskManagers.BackgroundTaskManager.Pause` | packages/agent-runtime/src/runtime/background-task-manager.ts:336-373 | Accepted exactly for running and waiting tasks named with their project: paused, with one notice; else nothing changes. All other entries stay, the books stay in order, no slot count grows |
| `BackgroundTaskManagers.BackgroundTaskManager.Resume` | packages/agent-runtime/src/runtime/background-task-manager.ts:379-400 | Accepted exactly for paused tasks named with their project: queued again, whatever the length of the queue, with one notice; else nothing changes |
| `BackgroundTaskManagers.BackgroundTaskManager.Cancel` | packages/agent-runtime/src/runtime/background-task-manager.ts:408-522 | Accepted exactly for tasks that have not ended, named with their project and a fit reason: cancelled, with one notice, and the delegate told once unless the task was only queued; else nothing changes |
| `BackgroundTaskManagers.BackgroundTaskManager.RespondInput` | packages/agent-runtime/src/runtime/background-task-manager.ts:525-577 | Accepted exactly for a fit answer to a task waiting for input: running again, in the slot it holds, with one notice; else nothing changes |
| `BackgroundTaskManagers.BackgroundTaskManager.NotifyPermissionWaiting` | packages/agent-runtime/src/runtime/background-task-manager.ts:580-628 | Accepted exactly for running tasks: waiting for permission, in the slot it holds, with one notice; else nothing changes |
| `BackgroundTaskManagers.BackgroundTaskManager.NotifyPermissionResolved` | packages/agent-runtime/src/runtime/background-task-manager.ts:635-680 | Accepted exactly for tasks waiting for permission: running again, in the slot it holds, with one notice; else nothing changes |
| `BackgroundTaskManagers.BackgroundTaskManager.Schedule` | packages/agent-runtime/src/runtime/background-task-manager.ts:864-870 | The launch loop over a snapshot of the entries is the left-to-right pass: afterwards no queued entry could be launched, no slot count has passed its cap, and entries have only evolved legally |
| `BackgroundTaskManagers.BackgroundTaskManager.TryLaunch` | packages/agent-runtime/src/runtime/background-task-manager.ts:872-915 | Launches the entry if and only if it is queued and both caps allow: one call of the delegate, running then, or failed if the delegate throws; slots stay within the caps, the attempt counts the launch |
| `BackgroundTaskManagers.BackgroundTaskManager.HandleLaunchThrow` | packages/agent-runtime/src/runtime/background-task-manager.ts:917-940 | A delegate that throws fails the launch once, with one terminal notice; an entry that has ended is untouched |
| `BackgroundTaskManagers.BackgroundTaskManager.HandleRuntimeSettled` | packages/agent-runtime/src/runtime/background-task-manager.ts:942-1032 | A settlement of a running task that has heard of no end since its launch ends it as the run ended, completed, failed or cancelled, with the one matching notice; a parked task remembers it; a settled or ended one is untouched; no other entry changes |
| `BackgroundTaskManagers.BackgroundTaskManager.HandleRuntimeRejected` | packages/agent-runtime/src/runtime/background-task-manager.ts:1034-1072 | A rejection ends such a task as cancelled if that was asked for or its signal aborted, and else as failed, with the one matching notice |
| `BackgroundTaskManagers.BackgroundTaskManager.Recover` | packages/agent-runtime/src/runtime/background-task-manager.ts:726-829 | Restores the records one by one with anything in between; the summary depends on the records alone and counts each of them once |
| `BackgroundTaskManagers.BackgroundTaskManager.RestoreOne` | packages/agent-runtime/src/runtime/background-task-manager.ts:740-825 | One record enters exactly if it is readable, clean, first of its id, not of an ended task, and its task is unknown: queued if it was queued or running and launched at most once, waiting if it was waiting, else paused, with one notice; otherwise nothing changes |
| `BackgroundTaskManagers.BackgroundTaskManager.ActiveCount` | packages/agent-runtime/src/runtime/background-task-manager.ts:223-229 | The number of entries that hold a slot |
| `BackgroundTaskManagers.BackgroundTaskManager.ActiveCountForProject` | packages/agent-runtime/src/runtime/background-task-manager.ts:231-237 | The same for one project |
| `BackgroundTaskManagers.BackgroundTaskManager.HasFreeSlot` | packages/agent-runtime/src/runtime/background-task-manager.ts:857-861 | True exactly when both caps leave room |
| `EventBusProperties.DeliveryOrderOverRuns` | packages/agent-runtime/src/events/event-bus.ts:184-249 | Whatever listeners do during delivery: dispatches follow publication order without repeats, each subscriber is called with an increasing subsequence of the published events that pass its filter, and a once subscriber at most once |
| `EventBusProperties.StepKeeps` | packages/agent-runtime/src/events/event-bus.ts:184-249 | Every publish, subscribe, unsubscribe, clear, listener call and handler failure keeps the order of queue, cursor and deliveries |
| `EventBusProperties.UnsubscribeIsFinal` | packages/agent-runtime/src/events/event-bus.ts:124-149 | After unsubscribing a listener is never called again, and doing it twice is doing it once |
| `EventBusProperties.RemovedIsNeverCalled` | packages/agent-runtime/src/events/event-bus.ts:230-240 | A subscriber removed in any way stays removed and uncalled, even in the middle of a dispatch |
| `EventBusProperties.NothingIsLost` | packages/agent-runtime/src/events/event-bus.ts:184-210 | While nobody clears and no error handler throws: every event is dispatched once and in order, the queue is empty when the draining publish returns, and each live subscriber got every matching event since it subscribed |
| `EventBusProperties.SeenIncreasing` | packages/agent-runtime/src/events/event-bus.ts:217-249 | Ordered deliveries give each subscriber an increasing, hence repeat-free, sequence, with nothing left out |
| `EventBusProperties.OnceSeenAtMostOnce` | packages/agent-runtime/src/events/event-bus.ts:151-176 | A subscriber with no two deliveries in the log has seen at most one event |
| `EventBuses.EventBus.Subscribe` | packages/agent-runtime/src/events/event-bus.ts:124-149 | Adds a listener under a number never used before; everybody else stays subscribed and nobody is called |
| `EventBuses.EventBus.Once` | packages/agent-runtime/src/events/event-bus.ts:151-176 | The same for a listener that is removed before its first call |
| `EventBuses.EventBus.Unsubscribe` | packages/agent-runtime/src/events/event-bus.ts:139-148 | The listener is gone, also during a dispatch, everybody else stays, and the order of deliveries is kept |
| `EventBuses.EventBus.Publish` | packages/agent-runtime/src/events/event-bus.ts:184-210 | Queues the event behind all others, under a number above every dispatched or queued one, and starts a drain unless one is running; refuses what is no event; calls nobody |
| `EventBuses.EventBus.Clear` | packages/agent-runtime/src/events/event-bus.ts:212-215 | Nobody is subscribed and nothing is queued any more; the dispatch in progress stays where it is |
| `EventBuses.EventBus.Advance` | packages/agent-runtime/src/events/event-bus.ts:217-249 | A call goes to a listener that is still subscribed, with an event that passes its filter, after every earlier call in publication and then subscription order; a once listener is gone by then |
| `EventBuses.EventBus.AbandonDrain` | packages/agent-runtime/src/events/event-bus.ts:198-209 | An error handler that throws ends the drain; queue, subscribers and past deliveries stay |
| `EventStream.PrepareIsOrderBlind` | packages/ai-core/src/projections/helpers.ts:50-68 | With distinct (conversation, sequence, event) keys any permutation prepares to the same stream |
| `EventStream.SortSpec` | packages/ai-core/src/projections/helpers.ts:50-68 | Sorting gives an ordered permutation |
| `EventStream.RefusedIff` | packages/ai-core/src/projections/helpers.ts:25-57 | A stream is refused if and only if some event has another schema version than 1 |
| `EventStream.SortedUnique` | packages/ai-core/src/projections/helpers.ts:50-68 | With distinct keys there is only one such permutation |
| `EventStream.SortedIsFixed` | packages/ai-core/src/projections/helpers.ts:50-68 | A stream in order is left as it is |
| `EventStream.FilterSort` | packages/ai-core/src/projections/conversation.ts:56-66 | With distinct keys or not, selecting one conversation and sorting commute |
| `Messages.ApplyEventToMessages` | packages/ai-core/src/projections/messages.ts:52-225 | Only the message an event names can change, or appear at the end; every other keeps its value and place; other events, and the completion of an unknown message, change nothing; an event without a message id is refused |
| `Messages.ProjectMessages` | packages/ai-core/src/projections/messages.ts:236-246 | Sorting, folding in place and listing gives the projection, whose contents the rows below tell message by message |
| `Messages.MessageDependsOnOwnEvents` | packages/ai-core/src/projections/messages.ts:52-225 | A message's state depends on its own events only, whatever is interleaved |
| `Messages.ContentClosedForm` | packages/ai-core/src/projections/messages.ts:105-140 | A message's content is what it was last given, by a created or a first started event, with all later delta text joined into one trailing text part; completion, failure and cancellation do not enter |
| `MessageContents.ListedIff` | packages/ai-core/src/projections/messages.ts:236-246 | A message is listed if and only if an event other than a completion names it |
| `MessageContents.ListedMessage` | packages/ai-core/src/projections/messages.ts:236-246 | Each message listed is the outcome of its own events |
| `MessageContents.ListedInOrder` | packages/ai-core/src/projections/messages.ts:244-245 | Messages are listed in the order in which they came into being |
| `MessageContents.MessageStatusIsLast` | packages/ai-core/src/projections/messages.ts:52-225 | A message's status is the one announced last, first events that fail or cancel it included; deltas announce none, and a message only they speak of is streaming (`MessageStreams`) |
| `MessageContents.MessageOrigin` | packages/ai-core/src/projections/messages.ts:52-225 | Conversation and creation time are those of its first event, the update time that of its last; without a created event the role is that of its first event, assistant where that has none |
| `MessageContents.MessageRoleIsLast` | packages/ai-core/src/projections/messages.ts:82-104 | The role is that of the last created event |
| `MessageContents.MetadataIsLast` | packages/ai-core/src/projections/messages.ts:142-218 | Each metadata key holds the value last told: finish reason, tokens, error, code, cancellation reason; a key never told is not there (`MetadataIsTold`) |
| `MessageContents.ProjectionFailsIff` | packages/ai-core/src/projections/messages.ts:52-246 | The projection fails if and only if some event has another schema version than 1 or is a message event without message id |
| `Messages.RechunkingIsInvisible` | packages/ai-core/src/projections/messages.ts:105-140 | Whole streams: splitting a delta in two, with events of other messages, tools and tasks between the parts and other sequence numbers after, projects to the same messages in the same order, or fails alike |
| `Messages.ProjectionIsOrderBlind` | packages/ai-core/src/projections/messages.ts:236-246 | With distinct keys the messages are the same for every permutation of the input |
| `Conversations.ProjectConversation` | packages/ai-core/src/projections/conversation.ts:39-103 | Title, times, last sequence, metadata and messages of one conversation, with the error cases; the rows below tell each |
| `ConversationContents.ConversationMessages` | packages/ai-core/src/projections/conversation.ts:58-91 | The subject is the target, or the conversation of the first sorted event; its messages are those its own events project to |
| `ConversationContents.ConversationTitle` | packages/ai-core/src/projections/conversation.ts:80-83 | The title is the last non-empty one a creation of the conversation carries; without one there is none (`UntitledConversation`) |
| `ConversationContents.ConversationCreation` | packages/ai-core/src/projections/conversation.ts:69-81 | It was created when its last creation says, or else when its first event does (`UncreatedConversation`) |
| `ConversationContents.ConversationMetadata` | packages/ai-core/src/projections/conversation.ts:84-86 | Each metadata key holds the value given last |
| `ConversationContents.ConversationMetadataIsGiven` | packages/ai-core/src/projections/conversation.ts:84-86 | No key is there that was never given, and no metadata at all if and only if no creation carries any |
| `ConversationContents.ProjectionFailsIff` | packages/ai-core/src/projections/conversation.ts:43-64 | The projection fails if and only if some event of the stream has another schema version than 1, there is no subject with events (an empty stream without target, or a target only others' events surround), or a message event of the subject has no message id |
| `Conversations.SelectionCommutes` | packages/ai-core/src/projections/conversation.ts:45-66 | Projecting one conversation out of a mixed stream equals projecting its events alone if and only if it has any, or the mixed stream is empty |
| `Conversations.EndsAtLastEvent` | packages/ai-core/src/projections/conversation.ts:68-90 | Last sequence and update time are those of the last event, and no event has a higher sequence |
| `Conversations.ProjectionIsOrderBlind` | packages/ai-core/src/projections/conversation.ts:39-103 | With distinct keys the conversation is the same for every permutation of the input |
| `Renderer.HandleStreamEvent` | apps/desktop/src/renderer/App.tsx:1198-1331 | The incremental reducer over the list shown, case by case |
| `Renderer.StepAgreement` | apps/desktop/src/renderer/App.tsx:1198-1331 | From agreeing states one event keeps live list and replayed map in agreement if and only if it is in order: a delta, failure or cancellation finds its message, and a non-empty delta finds it streaming |
| `Renderer.LiveAgreesWithReplay` | apps/desktop/src/renderer/App.tsx:1198-1331 | Over a stream the two agree at every moment, on order, role, content and status, if and only if every event was in order |
| `Renderer.LiveListIsTheProjection` | apps/desktop/src/renderer/App.tsx:1198-1331 | What is shown after a sorted, well-formed stream is what a reload projects |
| `Templates.ValidateResourceTemplateUri` | packages/ai-core/src/mcp-capabilities.ts:227-260 | Accepts a URI if and only if it passes the guards and some non-empty, slash-free value for each placeholder turns the template into it |
| `Templates.MatchIsProduction` | packages/ai-core/src/mcp-capabilities.ts:208-219 | The backtracking match of the built pattern accepts exactly what the template can produce |
| `Templates.PatternReadsBack` | packages/ai-core/src/mcp-capabilities.ts:208-219 | The built source is a well-formed pattern that means the template: every literal character is escaped or needs no escape |
| `Templates.TemplateToRegExpSource` | packages/ai-core/src/mcp-capabilities.ts:208-219 | The loop builds the escaped parts with one segment pattern between each two |
| `Templates.SplitIsLossless` | packages/ai-core/src/mcp-capabilities.ts:209-210 | Parts and placeholders together are the template, and no placeholder holds a slash |
| `Templates.CountIsRedundant` | packages/ai-core/src/mcp-capabilities.ts:248-250 | The segment count never rejects what the matcher would accept |
| `TemplateGuards.SchemeSpelling` | packages/ai-core/src/mcp-capabilities.ts:203-260 | The guards take any two spellings of a scheme for the same, the match does not: a URI under the template's scheme is accepted if and only if it spells the scheme as the template does and would be under any other spelling they share |
| `TemplateGuards.CaseMatters` | packages/ai-core/src/mcp-capabilities.ts:203-260 | So a URI may be refused for the letter case of its scheme alone: `a:x` under the template `A:x`, which passes every guard |
| `TemplateGuards.DangerousSchemesAreRefused` | packages/ai-core/src/mcp-capabilities.ts:193-246 | Nothing under a dangerous scheme passes, in no spelling and under no template |
| `TemplateGuards.TrimSpec` | packages/ai-core/src/mcp-capabilities.ts:231-232 | Trimming cuts all white space off both ends and nothing else |
| `Sync.MergesConverge` | packages/ai-core/src/sync.ts:281-292 | Resolving the same records in any order, grouping and multiplicity gives the same winning key |
| `Sync.WinnerIsBest` | packages/ai-core/src/sync.ts:281-292 | The winner is one of the records and none beats it |
| `Sync.DeliveriesConverge` | packages/ai-core/src/sync.ts:281-292 | Two replicas that were delivered the same records hold the same winning key |
| `Sync.DistinctKeysConverge` | packages/ai-core/src/sync.ts:281-292 | They hold the same record when no two share the whole key |
| `Sync.CommutesIff` | packages/ai-core/src/sync.ts:288-291 | Order decides the record exactly on a full tie of different records |
| `Sync.TieKeepsLocal` | packages/ai-core/src/sync.ts:291-291 | On a full tie the local record stays |
| `Sync.FirstBestWins` | packages/ai-core/src/sync.ts:281-292 | Over a list of incoming records: of those no other beats, the one that came first wins |
| `Ulid.EncodeTime` | packages/shared/src/ids.ts:48-62 | The digit loop writes the ten base-32 digits of the whole milliseconds, and refuses what is out of range |
| `Ulid.GetUlidTimestamp` | packages/shared/src/ids.ts:93-108 | The digit loop reads the value of the first ten characters, and refuses what is no ULID |
| `Ulid.DecodeInvertsEncode` | packages/shared/src/ids.ts:48-108 | Decoding gives back the whole milliseconds, whatever random part follows, in either case |
| `Ulid.EncodeInvertsDecode` | packages/shared/src/ids.ts:86-108 | Encoding gives back the time part if and only if the first character is at most 7: the syntax check admits times beyond 48 bits |
| `Ulid.UlidsSortByTime` | packages/shared/src/ids.ts:48-82 | String order of the time parts is numeric order, and an earlier millisecond sorts first whatever the random parts |
| `Ulid.NumeralsSort` | packages/shared/src/ids.ts:48-62 | Equal-length numerals compare as strings as their values do |

## Left out

- Timestamps of nodes and of the projected task, node titles and descriptions, and the attempt counter: no decision reads them.
- The texts of task summaries and collected failures: arbitrary strings.
- Titles, goals, error texts, results and conversation ids of background records, `get` and `list`, and persistence callbacks: they do not influence scheduling.
- A missing event sink, and sinks or delegates that call back before they return: published events are recorded at the call.
- A throwing event sink in the agent runtime: the runtime has no defence against it.
- Running several tasks in one `AgentRuntime`: each task owns its graph, log and abort flag, and the map only finds it.
- Node abort controllers: they are aborted only together with the task's own, so one flag stands for both.
- Memory retrieval and the prompt built for the model: they reach the model only.
- The JSON of node checkpoints: `writeCheckpoint` and `readCheckpoint` are arbitrary functions.
- Patterns for secrets, transient failures and denials: whether a text matches is an arbitrary flag of the reply or input.
- Listener bodies, asynchronous listener errors and logging of the bus: a listener call is the point where anything may happen.
- Frozen copies handed out by the projections, and the lookup closures of the projected graph: values have no aliases.
- Collation of ids in `localeCompare`: conversation and event ids stand for their rank.
- The second copy of Kahn's algorithm in the projection (packages/ai-core/src/projections/task-graph.ts:62-125) is the same member as the first.
- In-flight delegate runs against the caps, and matching settlements to attempts: the code does not ensure either.
- Termination of tasks that settle while parked: false of the code, with the exact condition in `LateSettlements.SettlementEndsIff`.
- Under which id the delegate is told of a cancel (packages/agent-runtime/src/runtime/background-task-manager.ts:1074-1082): it is one call, and the abort signal carries the intent.
- Non-BMP characters count once, not twice, towards the length limit of URIs and templates.
- Random parts of ULIDs, the branded wrappers, conflict classification and payload diffs: settled by reading one branch or loop.
- `AgentRuntimes.AgentTask.RunTask`: at an await it lets in every abort and every add and commit that replay survives, and none of the others, after which the invariant is gone (`AgreementThroughout`).
- `AgentRuntimes.AgentTask.StartTask`: before the plan is announced it lets in aborts and replans that only remove; those that add are `Openings.OpeningAgreement`.
- `AgentRuntimes.AgentTask.PublishedReplays`: says nothing of the two awaits before the root is announced, where the graph is ahead of the log.
- Windows, preload, schemas, hosts for MCP and execution, model and tool providers: plumbing.
