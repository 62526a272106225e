# Verified model of protonMAN's coordination core

protonMAN is a coding agent written in Go. This project models the parts of it whose correctness rests
on many states, interleavings or arithmetic rather than on any single branch, and proves what those
parts promise. Go objects that update their fields are Dafny classes, in-place loops are Dafny loops,
goroutines and channels are state machines with one step per channel operation, cancellation or
locked region, and every model, tool, store, clock and estimator is an arbitrary input.

| file | what it models |
|---|---|
| `WorkspaceScheduler.dfy`, `SchedulerRuns.dfy` | scheduling of child agents: dependency waits, concurrency slots, and a readers/writer workspace gate made of three counting channels |
| `Lifecycle.dfy`, `LifecycleCoordinator.dfy` | the event-sourced life of a child: edges, journal, snapshot, replay, recovery |
| `LifecycleRuns.dfy`, `LifecycleMeaning.dfy` | whole runs of that life, crashes and compactions included: when recovery still works, and what the events say of an agent |
| `Resume.dfy` | concurrent resumption of one interrupted record |
| `ResultStream.dfy`, `Synthesis.dfy` | the bounded result mailbox and its exactly-once consumer |
| `TurnLoop.dfy`, `TurnLoopProperties.dfy`, `TurnDecisions.dfy`, `TurnTranscript.dfy` | the model/tool loop of a turn: its bounds, the decision of every round, its messages |
| `ProgressGuard.dfy`, `ProgressMeaning.dfy` | repetition detection against a full log of executions |
| `ConcurrentExecution.dfy` | the worker pool that runs tool calls in parallel |
| `Retention.dfy`, `CompactionText.dfy`, `ContextBudget.dfy`, `ContextMeaning.dfy` | trimming of conversation history, and fitting a request to a model's window |
| `Truncate.dfy`, `Utf8Meaning.dfy`, `ToolResultBudget.dfy`, `ToolResultMeaning.dfy` | byte truncation of UTF-8 text and the byte budget of tool results |
| `Glob.dfy`, `Permission.dfy`, `PermissionMeaning.dfy`, `ToolCallService.dfy` | wildcard matching, static policy, authorisation and session grants |
| `ImageCache.dfy`, `ImageDimensions.dfy`, `ImageMeaning.dfy` | the cache of prepared images and the output-size arithmetic |
| `Text.dfy` | string helpers |

The modules named after a meaning, a transcript, decisions or runs state what the operations come to in the
fields and events involved, without the functions the operations are written with.

Verify with `dafny verify dfyconfig.toml`. Automatic induction is switched off on every lemma, so each
inductive step is written in its body.

## Where the code falls short of what it suggests

Each of these is kept as the code has it, shown by an input and bounded by an exact condition.

- The matcher tests literal equality before `*`, so a `*` in the value can consume the pattern's star:
  `a*b` does not match `a*xb`. All patterns are answered correctly on a value exactly when the value
  holds no `*` (`Glob.ExactForStarFreeValues`).
- `Cancel` checks only for a missing or terminal record. On a resuming one it appends a journal event
  that no edge accepts, after which recovery of that session stops with an edge error
  (`LifecycleCoordinator.CancelWhileResumingExample`). `CancelByParent` and the cancels by reference,
  turn and session in `scope.go` take the same step. A run without such a cancel can always recover;
  at any moment recovery works if and only if the stored snapshot represents every rejected event
  still in the journal, so a later completed compaction heals it (`LifecycleRuns.RunRecoverability`,
  `LifecycleRuns.CompactionHeals`).
- A result lookup that fails midway leaves earlier references marked as delivered although their batch
  is dropped (`Synthesis.LosesResultsIffLaterLookupFails`); no later drain hands them out.
- The safety-budget fallback may complete a turn that still lacks required evidence: exactly when the
  model asks for more calls than the ceiling leaves (`TurnLoopProperties.CompletesUngroundedIffOverflowing`).
- A result carrying both its own output and recovery evidence can exceed the budget it is cut to and
  escape the ledger (`ToolResultBudget.DualResultExample`, `ToolResultBudget.LedgerIsExactIffNoDual`).
  Nothing in the repository builds such a result: its one producer of recovery evidence
  (`internal/engine/toolcall/recovery.go:87-96`) returns no output of its own.
- `TruncateBytes` documents a valid UTF-8 result but returns short malformed text as it is
  (`Truncate.TruncatedExample`, `Truncate.TruncatedIsValidIff`). Only tests call it.
- A policy outside the exact condition of `ImageDimensions.SafeForAllImagesIffRoomy` lets the longest
  one-pixel strip through above its own limits. The three built-in policies satisfy the condition.

## Model

| member | source | states |
|---|---|---|
| WorkspaceScheduler.StepMovesOwnership | internal/feature/agent/scheduler.go:5-66 | every channel operation and every cancellation branch changes what a child owns by exactly what it does to the channel |
| WorkspaceScheduler.StepKeepsInv | internal/feature/agent/lifecycle.go:117-223 | in every interleaving each channel holds precisely the tokens its children own, within capacity |
| WorkspaceScheduler.WriterExcludesAll | internal/feature/agent/scheduler.go:5-66 | a mutating child that has the workspace excludes every other child, in every state of every run |
| WorkspaceScheduler.ReadersCannotOvertake | internal/feature/agent/scheduler.go:24-52 | while a writer collects the gate no other child ever holds more gate tokens than when it began |
| WorkspaceScheduler.AllDoneReturnsEverything | internal/feature/agent/scheduler.go:5-66 | after any mix of success, cancellation and timeout nothing is left in the channels |
| WorkspaceScheduler.NoDeadlock | internal/feature/agent/dependencies.go:29-72 | some child can always step, with nobody cancelled, unless all are done |
| WorkspaceScheduler.RunsAreBounded | internal/feature/agent/lifecycle.go:117-223 | no run has more steps than the lifetimes of the children it admitted |
| WorkspaceScheduler.StuckMeansDone | internal/feature/agent/lifecycle.go:117-223 | a run that can go no further has finished all children and returned all tokens |
| SchedulerRuns.DependenciesComeFirst | internal/feature/agent/dependencies.go:53-72 | in every state of every run a waiting child has seen the dependencies it passed succeed, and any other child that has not failed has seen all of them succeed |
| SchedulerRuns.FailedDependencyIsFatal | internal/feature/agent/dependencies.go:53-72 | once a dependency failed the child waits or fails, in every later state |
| SchedulerRuns.SucceedsIffItsRunDid | internal/feature/agent/lifecycle.go:117-223 | a child ends in success if and only if the run it executed returned success |
| SchedulerRuns.FailureHasACause | internal/feature/agent/lifecycle.go:117-223 | no child fails unless it was cancelled, timed out in the queue, failed in its run, was turned back before it started, or lost a dependency |
| SchedulerRuns.WaitFailsOnlyForCause | internal/feature/agent/lifecycle.go:122-140 | the queue timeout does not end a wait for dependencies |
| SchedulerRuns.CancelledNeverStarts | internal/feature/agent/lifecycle.go:166-178 | a child cancelled before it executes never executes |
| SchedulerRuns.WaitsEndWithTheirContext | internal/feature/agent/scheduler.go:5-52 | every wait ends when its context is done and not otherwise, and ends in failure |
| SchedulerRuns.ConcurrencyIsLimited | internal/feature/agent/lifecycle.go:141-152 | at no time are more children in flight than the configured limit |
| SchedulerRuns.ReadersShare | internal/feature/agent/scheduler.go:5-66 | any number of readers up to the limit do get to execute together |
| SchedulerRuns.ChildIsAsAdmitted | internal/feature/agent/lifecycle.go:19-115 | a child keeps the dependencies and the exclusiveness its admission asked for |
| SchedulerRuns.AdmissionMeans | internal/feature/agent/dependencies.go:29-51 | a child is admitted only behind children that exist and have not failed |
| Lifecycle.NextEventAppliesOnValidEdges | internal/feature/agent/transition.go:20-54 | an event built from the current status is accepted if and only if the edge table has the move |
| Lifecycle.ReplayConcat | internal/feature/agent/recovery.go:75-100 | replay may be split at any point of the journal |
| Lifecycle.ReplayRepresents | internal/feature/agent/recovery.go:75-100 | a fact once replayed stays represented: agents are never forgotten, versions never fall |
| Lifecycle.RepresentedFactsAreSkipped | internal/feature/agent/recovery.go:75-100 | replaying facts a table already represents changes nothing and cannot fail |
| Lifecycle.SnapshotPlusSuffixRebuilds | internal/feature/agent/recovery.go:41-117 | a snapshot plus any journal suffix starting no later than it rebuilds state, version, times and links of the whole history, or fails with the same error |
| Lifecycle.HistoryAppend | internal/feature/agent/domain_event.go:84-128 | appending one fact moves the projection of a history as it moves any table equal to it |
| LifecycleCoordinator.InterruptionIsApplied | internal/feature/agent/transition.go:20-54 | every non-terminal status accepts the interruption recovery issues, and becomes exactly the interrupted status |
| LifecycleCoordinator.Coordinator.PersistAndApply | internal/feature/agent/lifecycle_store.go:26-30 | write-ahead: the table equals the projection of the journal afterwards exactly when an appended event was accepted |
| LifecycleCoordinator.Coordinator.PersistTransition | internal/feature/agent/lifecycle_store.go:32-44 | the same for a transition event built from the entry's own status |
| LifecycleCoordinator.Coordinator.Spawn | internal/feature/agent/lifecycle.go:19-115 | admission succeeds if and only if the id is new and the append is accepted; it then adds one queued agent at version one, otherwise nothing changes |
| LifecycleCoordinator.Coordinator.Cancel | internal/feature/agent/lifecycle.go:367-387 | a live record is canceled if and only if its append is accepted and it is not resuming; the table still equals the history afterwards, except exactly when a resuming record got an accepted append |
| LifecycleCoordinator.CancelWhileResumingPoisonsTheJournal | internal/feature/agent/lifecycle.go:367-387 | after that append, replay of every suffix over every snapshot taken before it stops with the edge error |
| LifecycleCoordinator.CancelWhileResumingExample | internal/feature/agent/lifecycle.go:367-387 | any agent queued, interrupted, asked to resume and then cancelled leaves a history that no longer replays |
| LifecycleCoordinator.Coordinator.Compact | internal/feature/agent/lifecycle_store.go:46-71 | a crash or error at any point of compaction leaves a durable part that still rebuilds the history |
| LifecycleCoordinator.Coordinator.Rebuild | internal/feature/agent/recovery.go:41-100 | from an empty table the durable part alone gives back the state of everything ever appended |
| LifecycleCoordinator.Coordinator.InterruptLive | internal/feature/agent/recovery.go:100-117 | every live agent becomes interrupted at the next version, terminal ones are untouched, in any order |
| LifecycleCoordinator.Coordinator.RecoverLifecycle | internal/feature/agent/recovery.go:14-119 | recovery yields the whole history with each live agent interrupted, all terminal; it can fail only on a refused append |
| LifecycleCoordinator.Coordinator.RecoverAgain | internal/feature/agent/recovery.go:14-119 | a second crash and recovery appends nothing and brings the same table back |
| LifecycleRuns.OnlyCancelLacksAnEdge | internal/feature/agent/lifecycle.go:117-293 | of all the steps the guards and goroutines let through, only the cancel of a resuming record has no edge |
| LifecycleRuns.StepKeepsInv | internal/feature/agent/lifecycle.go:19-387 | admission, start, terminal store, cancel, resume, interruption, snapshot, compaction and crash keep the accepted part of the journal rebuilding the table |
| LifecycleRuns.RecoverableIffStraysRepresented | internal/feature/agent/recovery.go:41-100 | recovery rebuilds the table if and only if the snapshot represents every rejected event in the journal, and otherwise stops with the edge error |
| LifecycleRuns.RunStaysRecoverable | internal/feature/agent/recovery.go:14-119 | a run none of whose cancels hits a resuming record can crash at any moment and recover the table it had |
| LifecycleRuns.RunRecoverability | internal/feature/agent/recovery.go:14-119 | the same condition at every moment of every run, whatever was cancelled |
| LifecycleRuns.CancelOfResumingHarms | internal/feature/agent/lifecycle.go:344-387 | from any reachable state such a cancel leaves the table alone and recovery impossible |
| LifecycleRuns.CompactionHeals | internal/feature/agent/lifecycle_store.go:46-71 | a completed compaction makes every reachable state recoverable again; one stopped halfway does if and only if the agents of the rejected events have moved on |
| LifecycleMeaning.AcceptedIffItFits | internal/feature/agent/transition.go:20-40 | an event is accepted exactly when it is the next one of its agent and finds one of the states listed for its kind |
| LifecycleMeaning.EventLeaves | internal/feature/agent/domain_event.go:60-128 | the state each kind of event leaves, and when start and end times are set |
| LifecycleMeaning.EventKeeps | internal/feature/agent/domain_event.go:84-128 | an event never changes what the admission said, and replaces links only by its own |
| LifecycleMeaning.FirstEventLeaves | internal/feature/agent/domain_event.go:95-107 | the first event of an agent is its admission, and the status is made of it |
| LifecycleMeaning.TransitionMeans | internal/feature/agent/lifecycle.go:117-387 | start, terminal store, cancel, resume and interruption each record their own kind of event and move the agent they name, and no other, to its state |
| LifecycleMeaning.GoroutineSteps | internal/feature/agent/lifecycle.go:117-293 | in every reachable state, when the goroutine of an agent may start it, complete it or store another end |
| LifecycleMeaning.RecordSteps | internal/feature/agent/lifecycle.go:344-387 | in every reachable state, when an agent may be cancelled, asked to resume, bound, rolled back or interrupted |
| LifecycleMeaning.StepsAttend | internal/feature/agent/lifecycle.go:117-293 | which agents have a goroutine or a resumption under way after a step |
| LifecycleMeaning.AdmissionMeans | internal/feature/agent/lifecycle.go:19-115 | an accepted admission adds one queued agent made of what was asked for |
| LifecycleMeaning.StatusTellsTheEvents | internal/feature/agent/recovery.go:14-119 | over every run, crashes and compactions included, a status is what the accepted events tell: state, version, reason, start and end |
| LifecycleMeaning.CompletedIffLastEventSaysSo | internal/feature/agent/lifecycle.go:265-294 | over every run an agent is completed if and only if the last accepted event about it is a completion; likewise for each other state |
| LifecycleMeaning.ReplayMeans | internal/feature/agent/recovery.go:75-100 | which journal facts replay passes over, knows already, applies, or refuses as a gap |
| LifecycleMeaning.RecordIsInstalled | internal/feature/agent/recovery.go:41-74 | which snapshot records are put back, and what is filled in |
| Resume.StepKeepsInv | internal/feature/agent/resume.go:14-101 | each locked region, admission, rollback, pruning and restart, with every append accepted or refused, keeps passes, admissions and bindings in step with interruptions |
| Resume.OnePassPerInterruption | internal/feature/agent/resume.go:14-80 | calls in flight are one call, each interruption lets at most one through, each pass admits at most one child |
| Resume.AllHandlesAgree | internal/feature/agent/resume.go:14-80 | any two handles ever returned over a whole run, restarts included, name the same child |
| Resume.RetryReturnsSameHandle | internal/feature/agent/resume.go:14-40 | a later call, restarts in between included, gets the same handle while the child is retained and a not-found answer otherwise |
| Resume.FailedAdmissionIsResumableIffRolledBack | internal/feature/agent/resume.go:94-101 | after a failed admission the record can be resumed again if and only if the rollback append was accepted |
| Resume.BeginAnswers | internal/feature/agent/resume.go:22-50 | the first answer of a call for each state of the record |
| Resume.UndisturbedResumeSucceeds | internal/feature/agent/resume.go:14-80 | a resumption nothing gets in the way of ends resumed as the child it admitted, and its caller has the handle |
| Resume.FailedAdmissionIsTold | internal/feature/agent/resume.go:52-101 | a failed admission is told to its caller; the record is interrupted again, with its reason and time, unless the store refuses |
| Resume.RefusedBindingIsTold | internal/feature/agent/resume.go:62-80 | a refused binding is told to its caller and leaves the record resuming |
| Resume.RestartMeans | internal/feature/agent/recovery.go:100-117 | a restart forgets the calls and leaves the record resuming only if the store refuses |
| ResultStream.Mailbox.RecordEvent | internal/feature/agent/result_stream.go:118-133 | the mailbox is always the newest part, up to capacity, of everything recorded |
| ResultStream.Mailbox.EventsAfter | internal/feature/agent/result_stream.go:86-102 | a cursor gets exactly the recorded events past it that are still held, and truncation is reported if and only if one is lost |
| ResultStream.Mailbox.Consume | internal/feature/agent/result_stream.go:30-84 | a look yields events, or a channel that any event past the cursor would already have closed |
| ResultStream.NoLostWakeup | internal/feature/agent/result_stream.go:30-84 | in every interleaving a sleeper with an unseen event sleeps on a closed channel |
| ResultStream.WakesForNewsOnly | internal/feature/agent/result_stream.go:30-84 | a sleeper can wake exactly when an event was recorded since it looked |
| ResultStream.HeldEvents | internal/feature/agent/result_stream.go:104-133 | the mailbox holds exactly the newest 128 events, numbered from one |
| Synthesis.Source.RefsForTurn | internal/feature/agent/result_store.go:88-115 | exactly the retained valid references, each once |
| Synthesis.MergeRefs | internal/feature/agent/synthesis.go:168-184 | the union of both lists without duplicates or invalid references |
| Synthesis.RequestedMeans | internal/feature/agent/synthesis.go:100-117 | which references a drain asks for, with and without lost events |
| Synthesis.Consumer.ResolveUnseen | internal/feature/agent/synthesis.go:186-212 | on success the batch is exactly the unseen references, each once; on failure exactly those before the first missing one stay marked |
| Synthesis.Consumer.DrainReady | internal/feature/agent/synthesis.go:73-88 | the batch holds exactly the retained references not yet delivered, each once with its stored payload; it fails if and only if one of those is not stored |
| Synthesis.Consumer.Drain | internal/feature/agent/synthesis.go:90-117 | the batch holds exactly the requested references not yet delivered, with their stored payloads, so a lost one stays lost; it fails if and only if one of those is not stored; with a complete source every event up to the cursor is delivered even after truncation; the cursor moves only on success |
| Synthesis.Consumer.MarkConsumed | internal/feature/agent/synthesis.go:121-155 | consumption of a reference is announced once in a consumer's life |
| Synthesis.LosesResultsIffLaterLookupFails | internal/feature/agent/synthesis.go:186-212 | a failed resolve loses results if and only if the first unseen reference resolves and a later unseen one does not |
| Synthesis.LostResultExample | internal/feature/agent/synthesis.go:199-204 | two unseen results, the second missing: the first is lost |
| TurnLoop.SafetyBudget.ObserveRound | internal/engine/turn/safety_budget.go:26-44 | the stagnant count restarts if and only if some executed call advanced |
| TurnLoop.Grounding.Observe | internal/engine/turn/grounding.go:40-61 | evidence is recorded once, exactly when a call that ran supplied the required kind |
| TurnLoop.MergeExecutions | internal/engine/turn/round_execution.go:126-149 | suppressed and dispatched calls come back in call order, none lost or doubled |
| TurnLoop.RunRound | internal/engine/turn/round_execution.go:71-149 | duplicates, the call ceiling, malformed calls and dispatch are settled as the round specification says |
| TurnLoop.Run | internal/engine/turn/loop.go:431-640 | the loop with its mutable budget and grounding state refines the round-by-round specification for every script |
| TurnDecisions.RoundDecides | internal/engine/turn/loop.go:431-640 | every round takes the decision of one flat table over its inputs and what came before: run, miss, postpone, answer, or the first of the listed reasons to fail |
| TurnDecisions.CallsAreCounted | internal/engine/turn/round_execution.go:71-149 | on every exit all calls of a round that ran are counted, those of a round that failed afterwards included, and no others |
| TurnTranscript.MessagesTellTheRounds | internal/engine/turn/loop.go:551-640 | under every script the returned messages are those of its rounds in order, nothing missing and nothing added, and then what the last round leaves |
| TurnTranscript.CompletedTurnAnswers | internal/engine/turn/loop.go:575-607 | a completed turn ends with one assistant message without calls: the last round's text, and the notice of the guard that stopped its calls |
| TurnTranscript.NoticeIffCallsWereStopped | internal/engine/turn/loop.go:484-512 | the notice is there exactly when the model asked for calls a guard had turned off |
| TurnLoopProperties.TurnIsBounded | internal/engine/turn/loop.go:431-640 | with a hard limit H and D deferred rounds: at most H calls reach the tools in the turn, those of a round that fails after dispatch included, and at most H + D + 2 rounds |
| TurnLoopProperties.BothConfiguredLimitsHold | internal/engine/turn/loop.go:373-377 | the calls that reach the tools respect each of the two configured limits that is set, on every exit |
| TurnLoopProperties.StagnantTurnIsBounded | internal/engine/turn/safety_budget.go:26-44 | with a stagnation budget S, and no hard limit needed, P progressing and D deferred rounds end the turn after at most (P + 1)·S + D + 2 rounds |
| TurnLoopProperties.SafetyIsFinal | internal/engine/turn/loop.go:431-640 | once the safety budget ran out no tool runs again for the rest of the turn |
| TurnLoopProperties.StalledRoundIsFollowedByTheLast | internal/engine/turn/loop.go:536-600 | after a stalled round that ran tools in a turn owing no evidence the next round ends the turn, unless context arrives or completion is deferred |
| TurnLoopProperties.CompletesUngroundedIffOverflowing | internal/engine/turn/loop.go:551-600 | a round completes a turn lacking evidence if and only if the model overflowed the ceiling while evidence was pending |
| TurnLoopProperties.CompletionIsGroundedUnlessBudgetFallback | internal/engine/turn/loop.go:551-600 | every completion not made by the safety-budget fallback is grounded |
| TurnLoopProperties.UngroundedCompletionExample | internal/engine/turn/loop.go:551-600 | a limit of one call and a first response with two calls completes without evidence |
| TurnLoopProperties.RoundIsCompleteIffIDsTrimmed | internal/engine/turn/round_result.go:72-101 | the replies of an executed round answer its calls one for one, in order, if and only if the ids came trimmed |
| TurnLoopProperties.EveryExitIsProtocolComplete | internal/engine/turn/loop.go:361-366 | on every exit, success or failure, each tool call in the returned messages has its one reply in order |
| ProgressGuard.Guard.Note | internal/engine/turn/progress_guard.go:123-174 | the per-call observation summarises the full log: last result and length of its run since the last bump |
| ProgressGuard.Guard.Observe | internal/engine/turn/progress_guard.go:123-174 | a call is logged, ignored, or taken as progress as its semantics and outcome require, and stalls only at its limit |
| ProgressGuard.Guard.ObserveRound | internal/engine/turn/progress_guard.go:56-103 | synthesis is forced if and only if this and enough directly preceding rounds brought nothing new |
| ProgressGuard.Guard.Suppress | internal/engine/turn/progress_guard.go:176-233 | a call is cut short if and only if its current run of identical results reached the limit for that kind of result |
| ProgressGuard.Guard.ObserveExternalProgress | internal/engine/turn/progress_guard.go:115-121 | new runtime context ends every run and every stalled streak |
| ProgressGuard.TrailingStalledMeansConsecutive | internal/engine/turn/progress_guard.go:90-103 | the stalled counter reaches n exactly when the last n rounds were all stalled |
| ProgressGuard.RunCountsIdenticalResults | internal/engine/turn/progress_guard.go:123-174 | the counted run is the longest tail of identical results of the call since the last bump |
| ProgressMeaning.SameKeyMeans | internal/engine/turn/progress_guard.go:253-264 | calls are the same if and only if name and arguments are |
| ProgressMeaning.SameDigestMeans | internal/engine/turn/progress_guard.go:266-287 | results are the same if and only if their content is, or for failures code, retryability, recovery and evidence |
| ProgressMeaning.EntryMeans | internal/engine/turn/progress_guard.go:123-143 | which executions are progress, which are counted, and which leave no trace |
| ProgressMeaning.StallsMeans | internal/engine/turn/progress_guard.go:145-174 | a result stalls when it ends a run of at least two identical results that reached the limit for its kind |
| ProgressMeaning.ReachedLimitMeans | internal/engine/turn/progress_guard.go:189-200 | when the next call is cut short, for each kind of last result |
| ProgressMeaning.ReasonMeans | internal/engine/turn/progress_guard.go:216-225 | which reason is given for it |
| ConcurrentExecution.StepKeepsInv | internal/engine/turn/tool_execution.go:68-133 | every call already sent is running or finished exactly once, no other call is |
| ConcurrentExecution.EachCallAtMostOnce | internal/engine/turn/tool_execution.go:68-133 | no interleaving executes a call twice |
| ConcurrentExecution.NoDeadlock | internal/engine/turn/tool_execution.go:68-133 | some goroutine can step, without a cancellation, until all have returned |
| ConcurrentExecution.EveryRunEnds | internal/engine/turn/tool_execution.go:68-133 | no interleaving exceeds 2·calls + workers + 2 steps |
| ConcurrentExecution.ExecuteConcurrent | internal/engine/turn/tool_execution.go:68-133 | one entry per call in input order, cancelled exactly for the calls that never ran |
| ConcurrentExecution.EveryCallOnceUnlessCancelled | internal/engine/turn/tool_execution.go:68-133 | when nobody cancels, every call has been executed exactly once in the end |
| Retention.CompactHistory | internal/core/conversation/retention.go:97-169 | the index loops compute the compacted history of the specification |
| Retention.CompactionShape | internal/core/conversation/retention.go:97-169 | leading systems and recent tail survive unchanged, the tail starts outside any group, and no tool protocol is left before it |
| Retention.CompactionIsIdempotent | internal/core/conversation/retention.go:97-169 | compacting twice changes nothing more |
| Retention.ResultsReportedOnceIffUnambiguous | internal/core/conversation/retention.go:128-187 | each result of a group is told exactly once if and only if no id joining calls and results is repeated |
| Retention.EntryTellsItsSources | internal/core/conversation/retention.go:125-162 | an entry of tool history becomes the assistant's own text and then one text for each of its results, in order |
| Retention.RangeToldOnceIffUnambiguous | internal/core/conversation/retention.go:125-187 | over the whole compacted range each result is told exactly once if and only if every group in it has unambiguous ids |
| Retention.RangeTellsItsSources | internal/core/conversation/retention.go:123-166 | the compacted range is exactly what is kept, in order, merged with one text for each of its sources, in order |
| CompactionText.CompactionSaysEverything | internal/core/conversation/retention.go:97-169 | which messages are old, and that their place is taken by everything they said, in order, merged with the texts of their results |
| CompactionText.EveryMessageHasItsPlace | internal/core/conversation/retention.go:123-166 | every old message has its place: what it says unchanged but for its calls, then one text per call and per stray result, with the fields of each |
| CompactionText.KeptIsSaid | internal/core/conversation/retention.go:125-130 | what stays besides tool results is exactly the plain messages and the words of assistants that called tools |
| CompactionText.MessageWeighs | internal/core/conversation/retention.go:440-459 | what a message counts for in bytes |
| CompactionText.BoundariesFollowEntries | internal/core/conversation/retention.go:421-438 | a history may be cut behind its systems and behind each call/result group or message, nowhere else |
| CompactionText.TrimmedFits | internal/core/conversation/retention.go:48-90 | a trimmed history is within both limits or down to its newest entry, and no longer suffix is |
| Retention.CompactionKeepsProtocol | internal/core/conversation/retention.go:97-169 | compaction of well-formed history leaves no reply without its assistant |
| Retention.BuildSpans | internal/core/conversation/retention.go:421-438 | spans cover the history without gap or overlap, one per call/result group, with exact sizes |
| Retention.DropOldest | internal/core/conversation/retention.go:60-90 | the running counters always equal the recomputed sizes, and no span is dropped that could have stayed |
| Retention.Retain | internal/core/conversation/retention.go:48-90 | the earliest span boundary that meets the limits, or the newest span alone; well-formed history stays well-formed |
| Retention.RetainByCost | internal/core/conversation/cost_retention.go:19-67 | the same cut under an arbitrary cost estimator; it fails if and only if the estimator has no answer for a cut reached before one within the budget |
| Retention.EarliestCutKeepsProtocol | internal/core/conversation/cost_retention.go:47-67 | no cut at a span boundary separates a reply from its assistant |
| ContextBudget.OutputReserve | internal/engine/turn/context_budget.go:144-162 | the reserve never exceeds the window |
| ContextBudget.ValidatorAgreesWithBudget | internal/engine/turn/context_budget.go:27-54 | within the output limit, acceptance means fitting the effective budget for all estimates if and only if a window or input limit is set |
| ContextBudget.PlanIsSafe | internal/core/conversation/compaction.go:26-49 | a request left alone fits the budget, and the compaction target never exceeds it |
| ContextBudget.CompactRequest | internal/engine/turn/context_budget.go:186-230 | it fails if and only if the estimator does on something it is asked; otherwise the history comes back unchanged when no compaction is due, and else as the compacted history cut at the earliest boundary that meets the target, or down to the newest span; the tool protocol survives |
| ContextBudget.PrepareRequest | internal/engine/turn/context_budget.go:186-230 | the same for the prepared history, with the verdict of the validator on it; refusal means an empty budget or, past a compaction threshold, a fixed part that reaches the target or nothing left to cut |
| ContextMeaning.ReserveMeans | internal/engine/turn/context_budget.go:144-162 | a stated request is set aside in full; an unstated one takes an eighth of the window within bounds |
| ContextMeaning.ValidatorMeans | internal/engine/turn/context_budget.go:27-54 | a request goes out if and only if it is within every limit that is set, and the first one broken names the refusal |
| ContextMeaning.StageMeans | internal/core/conversation/compaction.go:26-49 | the stage is the highest threshold the input reaches |
| ContextMeaning.TargetMeans | internal/core/conversation/compaction.go:26-49 | the target is the share of the budget in whole tokens, and never nothing |
| ContextMeaning.CompactedMeansShortEnough | internal/engine/turn/context_budget.go:186-230 | in tokens: a compacted request meets the goal or cannot be cut further, and no longer cut meets it |
| Truncate.ToValidCleans | internal/base/strutil/truncate.go:25-26 | cleaning yields well-formed text and is the identity exactly on well-formed text |
| Truncate.CutBack | internal/base/strutil/truncate.go:16-19 | dropping last bytes stops at the longest well-formed prefix |
| Truncate.CutBackLosesAtMostThree | internal/base/strutil/truncate.go:16-19 | cutting well-formed text costs at most three bytes of the limit |
| Truncate.TruncateBytes | internal/base/strutil/truncate.go:9-21 | the loop computes the truncation of the specification |
| Truncate.TruncatedIsValidIff | internal/base/strutil/truncate.go:8-21 | a prefix within the limit, well-formed if and only if the text was cut or was well-formed already |
| Truncate.TruncatedExample | internal/base/strutil/truncate.go:8-21 | a lone malformed byte within the limit comes back malformed |
| Truncate.TruncateBytesWithMarker | internal/base/strutil/truncate.go:25-47 | the loop computes the marked truncation of the specification |
| Truncate.WithMarkerFits | internal/base/strutil/truncate.go:25-47 | the byte limit holds for every text, limit and marker |
| Truncate.WithMarkerIsValid | internal/base/strutil/truncate.go:23-47 | with an ASCII marker the result is well-formed even from malformed text, and a cut is always marked |
| Truncate.WithMarkerKeepsMost | internal/base/strutil/truncate.go:36-47 | a cut keeps the longest well-formed prefix that leaves room for newline and marker, without its last newlines |
| Utf8Meaning.ValidMeansEncoded | internal/base/strutil/truncate.go:16-26 | text is well formed if and only if it is the UTF-8 encoding of some Unicode scalar values |
| ToolResultBudget.CutSize | internal/engine/turn/tool_result_budget.go:55-127 | what a cut may leave behind, for every allowance; a reported failure is never lost |
| ToolResultBudget.CutFitsIffNotDual | internal/engine/turn/tool_result_budget.go:55-127 | a result fits every allowance it can be cut to if and only if it does not carry both kinds of output |
| ToolResultBudget.LedgerIsExactIffNoDual | internal/engine/turn/tool_result_budget.go:20-45 | the ledger counts the retained bytes under every limit exactly for rounds without such a result |
| ToolResultBudget.DualResultExample | internal/engine/turn/tool_result_budget.go:55-127 | a result with one byte of output and two of evidence, cut to nothing, keeps both bytes uncharged |
| ToolResultBudget.FittingRoundIsUntouched | internal/engine/turn/tool_result_budget.go:20-45 | a round within both limits is charged in full and not cut |
| ToolResultBudget.TurnKeepsItsBudget | internal/engine/turn/tool_result_budget.go:20-45 | over any rounds the total is what was retained, each round within its limit and all within the turn's |
| ToolResultBudget.Budget.ApplyRound | internal/engine/turn/tool_result_budget.go:20-45 | the in-place loop refines the round specification and keeps both bounds |
| ToolResultMeaning.PayloadCut | internal/engine/turn/tool_result_budget.go:55-101 | every field of a cut result with output of its own |
| ToolResultMeaning.EvidenceCut | internal/engine/turn/tool_result_budget.go:103-127 | every field of a cut result with nothing but recovery evidence |
| ToolResultMeaning.AllowanceIs | internal/engine/turn/tool_result_budget.go:24-37 | what a result may keep: all of it, or just what the tighter limit that is set leaves |
| Glob.Match | internal/base/glob/glob.go:10-64 | fast paths included: never a false match, and exact for values without a star |
| Glob.MatchElements | internal/base/glob/glob.go:75-127 | the single-backtrack loop ends and answers as the recursive scan |
| Glob.ScanSound | internal/base/glob/glob.go:31-64 | a positive scan is a match of the declarative semantics |
| Glob.ScanComplete | internal/base/glob/glob.go:31-64 | on star-free values the greedy scan with one backtrack point misses no match |
| Glob.StarInValueMisses | internal/base/glob/glob.go:40-41 | `a*b` against `a*xb` is a missed match |
| Glob.StarInValueIsMissedBySomePattern | internal/base/glob/glob.go:40-41 | every value holding a star has a pattern it matches and the code says it does not |
| Glob.ExactForStarFreeValues | internal/base/glob/glob.go:10-64 | all patterns are answered correctly on a value if and only if it holds no star |
| Permission.CanonicalPattern | internal/core/permission/permission.go:710-730 | configured and later-added spellings of a rule share one canonical pattern, a fixed point of normalisation |
| Permission.CanonicalMatchesAlike | internal/core/permission/permission.go:656-679 | re-normalising a stored rule changes no match |
| Permission.RuleMatchesItsCoverage | internal/core/permission/permission.go:656-679 | a rule never applies outside its declared coverage, and to all of it on star-free requests |
| Permission.NewPolicy | internal/core/permission/permission.go:509-568 | refused if and only if the default or some rule is invalid, otherwise every rule is stored compiled |
| Permission.Policy.Evaluate | internal/core/permission/permission.go:571-609 | one pass with early exit gives the order-free verdict: deny over ask over allow over defaults |
| Permission.VerdictIgnoresOrderAndSpelling | internal/core/permission/permission.go:571-609 | permuting, repeating or re-normalising rules never changes a verdict |
| Permission.StricterRuleWins | internal/core/permission/permission.go:571-609 | joining two rule lists gives the stricter verdict of those that match |
| Permission.Policy.AddRule | internal/core/permission/permission.go:613-645 | afterwards the policy answers every request as if the rule had been configured from the start |
| PermissionMeaning.VerdictMeans | internal/core/permission/permission.go:571-609 | for each verdict exactly when it is given, the defaults for computing and questions included |
| PermissionMeaning.RuleMeans | internal/core/permission/permission.go:656-679 | which requests a rule applies to: tool, detail or lower-case host, and the name of an MCP tool |
| PermissionMeaning.PlainRuleMeans | internal/core/permission/permission.go:656-679 | a rule without wildcards applies to equal texts only |
| PermissionMeaning.AcceptedRules | internal/core/permission/permission.go:509-568 | which rules are accepted |
| PermissionMeaning.StoredAs | internal/core/permission/permission.go:509-568 | what an accepted rule is stored as |
| ToolCallService.Service.Authorize | internal/engine/toolcall/authorize.go:23-107 | the ordered branches allow a call if and only if policy allows it or one of the listed grounds holds; a stored grant is the ground exactly where nothing earlier settles the call; a matching deny rule wins in every mode and with every grant |
| ToolCallService.Service.AddRule | internal/engine/toolcall/service.go:153-158 | rules only accumulate: a request once denied by a rule stays denied |
| ToolCallService.Service.Call | internal/engine/toolcall/service.go:215-335 | a grant lets a call through only if the user approved the very same call for the session earlier; grants grow exactly by session-approved eligible requests; the logged entry says what policy, approvals and outcome were, and the history stays justified |
| ToolCallService.HistoryGrows | internal/engine/toolcall/service.go:309-334 | over whole runs every approval by grant follows a session approval of the same key, and the grants are exactly those keys |
| ToolCallService.GrantsAreHarmless | internal/engine/toolcall/service.go:332-334 | every stored grant is read-only and of normal risk |
| ToolCallService.GrantActsOnlyWhereTheUserDecides | internal/engine/toolcall/authorize.go:41-66 | a grant changes the outcome only where the user would be asked, and then as one approval would |
| ToolCallService.KeyIsTheCall | internal/core/permission/permission.go:475-484 | two requests have one key if and only if tool name, kind, detail, arguments, effect, risk and scope agree |
| ToolCallService.GrantCoversApprovedCalls | internal/core/permission/permission.go:387-389 | a grant covers exactly the calls the user approved for the session, field by field |
| ToolCallService.GrantedCallWasApproved | internal/engine/toolcall/authorize.go:41-66 | in every history a call let through by a grant repeats one the user approved for the session before |
| ToolCallService.UnattendedCallsAreListed | internal/engine/toolcall/authorize.go:41-66 | without an approval, which calls run in the asking modes |
| ToolCallService.OtherModesNeverAsk | internal/engine/toolcall/authorize.go:33-75 | what runs in deny mode, always-approve mode and an unknown mode |
| ToolCallService.Service.Clone | internal/engine/toolcall/service.go:74-97 | a copy keeps policy and mode and inherits no grant |
| ImageCache.Evict | internal/feature/imageprep/prepare.go:145-153 | the longest most-recent prefix within both bounds is kept |
| ImageCache.NewestSurvives | internal/feature/imageprep/prepare.go:123-154 | the entry just stored is never evicted |
| ImageCache.BoundsMean | internal/feature/imageprep/prepare.go:123-154 | the two bounds in entries and bytes |
| ImageCache.RecencyIsByLastUse | internal/feature/imageprep/prepare.go:112-154 | the recency order of a history lists every used key once, by its last use |
| ImageCache.UseFollowsRecency | internal/feature/imageprep/prepare.go:112-144 | moving or pushing an entry to the front keeps the list a prefix of the recency order |
| ImageCache.Cache.Get | internal/feature/imageprep/prepare.go:112-121 | a hit returns the last accepted value of the key and makes it most recent; map, list and byte count stay in step |
| ImageCache.Cache.Put | internal/feature/imageprep/prepare.go:123-154 | an accepted value is in front, both bounds hold, and only least recently used entries left; others change nothing |
| ImageDimensions.CapSideShrinks | internal/feature/imageprep/prepare.go:280-287 | the side cap never enlarges and stays within the dimension limit |
| ImageDimensions.BothWholeIsGood | internal/feature/imageprep/prepare.go:289-299 | with whole patches both ways the patch cap fits and never enlarges, under any policy |
| ImageDimensions.RoomyPolicyIsSafe | internal/feature/imageprep/prepare.go:272-309 | with a patch budget of at least one row of the longest side every positive size ends within the limits and is never enlarged |
| ImageDimensions.SafeForAllImagesIffRoomy | internal/feature/imageprep/prepare.go:272-309 | the exact condition on a policy under which that holds for all images |
| ImageDimensions.ShippedPoliciesAreSafe | internal/feature/imageprep/prepare.go:45-61 | the default, the original-quality and the adaptive-thinking policy (`internal/core/modelprofile/builtin.go:193`) meet it |
| ImageMeaning.NoMoreThanNeeded | internal/feature/imageprep/prepare.go:272-299 | a fitting image is left alone, and the patch cap comes only after the side cap did not suffice |
| ImageMeaning.SideCapKeepsShape | internal/feature/imageprep/prepare.go:280-287 | capped sides: the longest becomes the limit, the other stays proportional to half a pixel |
| ImageMeaning.PatchCapKeepsShape | internal/feature/imageprep/prepare.go:289-309 | capped patches: both sides shrink by one factor, more than half of the one that fills the budget |
| ImageMeaning.FitsMeans | internal/feature/imageprep/prepare.go:302-309 | when an image fits, in covering patches |

## Left out

- Concurrency of the scheduler, resume, the tool pool and mailbox waiters is modelled by state machines over values; a class with locks and channels is not, and fairness between goroutines is not stated.
- NoDeadlock: says that a step exists, not that a fair scheduler takes it; the run bounds turn it into termination once admissions stop.
- SchedulerRuns.AdmissionMeans: all children share one session and parent, so the refusal of dependencies outside that scope is not modelled; a dependency is a position, so it is never blank or the child itself, and naming one twice changes nothing.
- Cancel: one session per coordinator is modelled; several sessions share nothing but the table. Cancels by parent, turn or session are that many single cancels.
- RunRecoverability: pruned agents and restored chat snapshots are not steps of a run.
- Drain: a wait that times out is a drain over no new events; atomicity of draining and the pending check is not claimed, so a completed turn may leave a late child result unread.
- CompactionShape: the JSON shortening of a tool result is an arbitrary text function of name, content and limit.
- Retain: message ids of placeholder texts are one fresh-id value, and message cloning is not modelled.
- PrepareRequest: token estimation is an oracle, with vision and tool definitions inside its fixed part; ratios are real numbers.
- SafeForAllImagesIffRoomy: real arithmetic with an exact square root; floating-point rounding is not modelled.
- Cache: list elements are values, so pointers from the map into the list are modelled by equal entries.
- Match: text is a sequence of code points; the byte loop for ASCII and the rune loop share one model, and malformed UTF-8 is not matched.
- CanonicalPattern: case folding and spaces are ASCII.
- Call: registry lookup, schema validation, the workspace mutation gate, execution and recovery of calls around the permission decision.
- Stored `uint64` counters, epochs and versions are unbounded numbers.
- A store append either happens or is refused; partially written appends and unreadable stores are not modelled.
- The agent limit, generated ids, terminal result payloads in the journal, and time-based pruning of agents and mailboxes.
- The order of `ResultRefsForTurn`; references are compared as sets.
- Verification, task-plan and goal prompts of the turn loop, and the separate copy of history that carries them.
- The truncation of terminal reasons and snapshot task text is by characters.
- Rune truncation with an ellipsis, rule persistence from a request, and the parsers of configuration words.
- Model streaming, provider clients, telemetry, user interfaces, configuration files, filesystem and sandbox code, skill ranking, model tables and shell-command classification.
