# LuminaCode agent runtime: a verified model

This project models the concurrent protocols and sequence transformations at the heart of
LuminaCode's agent runtime, and proves what they promise over every run, every interleaving, every
history and every journal.

- **Tool scheduler.** Tool calls move from queued over executing to completed or aborted and are
  then yielded. Calls that are not concurrency-safe are exclusive barriers. The decision to launch
  and the launch are separate critical sections, and the model keeps them apart.
- **Run state and published state.** Phases with an overlay of pending permissions, cancellation,
  permission tickets, and publication of drafts fenced by generation, revision and run token.
- **Clear protocol.** Session epochs and leases, child admission, task shutdown, and the journal.
- **Tool-call repair and provider conversion.** From an arbitrary block history to a chat in which
  every call is followed by its answers.
- **Query loop.** Retries and continuations against an arbitrary provider.
- **Context compaction.** Where a history may be cut, and what a shorter history keeps.
- **Journal and replay.** The run and step lifecycle, and recovery from a checkpoint and its tail.
- **Layout migration and JSON scanners.** A transaction with undo, and two byte scanners.

## How the model is built

Each component has a value-level state machine or specification function, the source's own loops and
objects as methods and classes proved equal to it, and theorems about all runs or all inputs.
The theorems state the outcome from outside wherever they can: from the steps of a run, the items of a
stream, the blocks of a history or the events of a journal, without the functions that compute it.
Goroutines become steps of a state machine, one step per critical section, so a theorem about all
step sequences covers all interleavings. Clocks, randomness, storage and the network are parameters:
an append either succeeds or fails as a whole, new ids are required to be new, and a provider is an
arbitrary function from request numbers to finite streams. Strings that the source only compares are
numbers (`Name`, `Text`), with `NoName` for the empty string. Counters are unbounded.

`dafny verify dfyconfig.toml` checks the whole project.

## Where the source falls short of a wished-for property

The model follows the code. Where a natural property is false, a lemma states exactly when it holds;
where that condition does not show the failing case at once, another lemma gives a concrete run.

- A denial completes a call whose body is already running, after which an exclusive tool body can run
  beside that body (`DenialInFlightOverlaps`). Some continuation without another such denial reaches
  two conflicting bodies if and only if the denied call has a running safe body and nothing is
  cancelled; when no more calls arrive, if and only if an exclusive call also waits in the queue
  (`DenialOverlapsExactly`). Denying a reserved call, or a running exclusive one, is harmless.
- A turn can be committed while a granted call is still queued and has no result
  (`GrantedCallGoesUnanswered`): both loops of the wait end when a look finds nothing executing, and
  the last call can end just before the look while its goroutine has not drained yet. When the
  executor is settled, and the wait can be woken before everything that executes has ended, a turn can
  lose a call if and only if three unfinished calls each wait for the one before; when it cannot be
  woken early and no skill asks for permission, if and only if four do (`TurnLosesExactly`).
- A call that was aborted while running can be yielded twice (`RawYieldsRepeat`); the committed
  message still has one result per call (`CommittedOncePerCallInOrder`).
- The converted chat is well paired if and only if every call of an assistant message has a name
  (`ChatIsPairedExactly`); call names may repeat.
- Making results immediate conserves blocks if and only if no message repeats a call name for which
  an unclaimed result follows (`ConservesBlocksExactly`).
- A call whose name recurs can get a synthetic result although a result of that name follows it
  (`RecurringNameLosesItsResult`): every call gets the first later result that no earlier call of its
  name has claimed, and a synthetic one if and only if there is none (`AnswersFollowHistory`).
- Reusing a run id revives the tokens of an earlier run (`RevivedExactly`,
  `ReusedRunIdHonoursOldGrant`).
- Restoring a snapshot with an unsupported context version separates the context manager from the
  published state, and the next context commit is written and then fails (`RestoreAgreesExactly`,
  `UnsupportedRestoreTearsCommit`).
- Two child runtimes under one agent id defeat the clear barrier (`DisplacedChildWritesAfterReset`).
  After a registration some continuation breaks the barrier if and only if that registration
  displaces another runtime (`RegisterBreaksExactly`).
- The end of a foreground task is announced without a lease check, so that its status can follow the
  reset of its session once the next run has begun (`ForegroundEndFollowsReset`). It can do so if and
  only if the recorder accepts events and a newer reset is written or about to be written
  (`ForegroundEndBreaksExactly`).
- Registering an existing record id breaks the child counts (`RegisterExactly`).
- A run start that is not stored leaves the recorder and the journal out of step (`RunStartExactly`,
  `LostStartBlocksNewRuns`).
- A compaction or a new run over usage that is counted but not yet published forgets that usage
  (`UnpublishedUsageIsLost`). Recovery still finds everything if and only if no counted request is
  missing in the checkpoint (`CompactionExactly`, `BeginExactly`), which for journaled turns can be
  read off the journal (`SettledInJournal`). The main engine publishes its draft before it compacts
  (agent/context_runtime.go:27), so for compactions this is a fact about committing a context alone.
- Folding old messages can show a tool result without its call (`ShortStretchOrphansResult`). It does
  not if and only if every message that is neither in a long unused stretch before the cut nor folded
  already has its results called by such messages (`FoldingOrphansExactly`). When every result comes
  right behind its call it never does, however often the growing history is folded
  (`AdjacentPairsStayTogether`).
- A failed layout commit removes a report that was there before; the disk is restored if and only if
  there was none (`Migrate`).

## Model

| member | source | states |
|---|---|---|
| `StreamingExecutor.StreamingToolExecutor.CanStartImmediately` | agent/tools_executor.go:381-417 | the scan over earlier calls answers whether every conflicting predecessor is terminal and no exclusive call runs |
| `StreamingExecutor.StreamingToolExecutor.AddTool` | agent/tools_executor.go:96-108 | a new call is queued at the end of the call order; says whether a safe call may start at once |
| `StreamingExecutor.StreamingToolExecutor.TryStartQueued` | agent/tools_executor.go:110-125 | grants a queued call and says whether it may start; other calls keep their state |
| `StreamingExecutor.StreamingToolExecutor.DenyTool` | agent/tools_executor.go:141-169 | completes the call with the denial as its result, whatever its state was |
| `StreamingExecutor.StreamingToolExecutor.GetCompletedResults` | agent/tools_executor.go:185-209 | yields the results of the leading terminal calls, in call order, and marks exactly those |
| `StreamingExecutor.StreamingToolExecutor.GetRemainingResults` | agent/tools_executor.go:253-269 | the section behind the wait hands over every buffered result not yet yielded, in call order |
| `StreamingExecutor.StreamingToolExecutor.MaybeDrain` | agent/tools_executor.go:352-379 | launches all safe calls that may start, then the first granted exclusive one |
| `StreamingExecutor.StreamingToolExecutor.ReserveLaunch` | agent/tools_executor.go:431-444 | reserves a call that is still queued, and nothing else |
| `StreamingExecutor.StreamingToolExecutor.AbandonLaunch` | agent/tools_executor.go:445-459 | a refused start completes the call with an error |
| `StreamingExecutor.StreamingToolExecutor.StartLaunch` | agent/tools_executor.go:460-473 | starts the body only if the call is still reserved, and counts exclusive bodies |
| `StreamingExecutor.StreamingToolExecutor.FinishResult` | agent/tools_executor.go:625-635 | records the result of a call without changing its state |
| `StreamingExecutor.StreamingToolExecutor.FinishTool` | agent/tools_executor.go:475-512 | completes the call unless its state is aborted, and releases its exclusive count; a yielded call goes back to completed |
| `StreamingExecutor.StreamingToolExecutor.AbortSiblings` | agent/tools_executor.go:298-331 | aborts every queued or executing call that supports it, except the failed one, in any order of the map |
| `StreamingExecutor.StreamingToolExecutor.HasPendingWork` | agent/tools_executor.go:211-220 | true exactly when some call is not terminal |
| `ToolExecutor.ClearedIsStable` | agent/tools_executor.go:381-417 | once all conflicting predecessors of a call are terminal they stay so, which bridges the gap between decision and launch |
| `ToolExecutor.StepKeepsScheduler` | agent/tools_executor.go:96-125 | every critical section keeps the scheduling invariant |
| `ToolExecutor.RunKeepsScheduler` | agent/tools_executor.go:352-473 | the scheduling invariant holds after every interleaving |
| `ToolExecutor.ExclusiveExecution` | agent/tools_executor.go:352-473 | in every reachable state two executing calls are both safe, and an executing exclusive call was granted |
| `ToolBodies.CounterIsExact` | agent/tools_executor.go:475-512 | the counter of running exclusive bodies is exact after every step |
| `ToolBodies.StepKeepsBodies` | agent/tools_executor.go:431-512 | every step other than the denial of a running safe body keeps the invariant of running bodies |
| `ToolDenials.DenialOverlapsExactly` | agent/tools_executor.go:141-169 | after any run without such denials, a denial lets some continuation reach two conflicting running bodies if and only if it hits a running safe body uncancelled; without further calls, if and only if an exclusive call also waits |
| `ToolBodies.RunKeepsBodies` | agent/tools_executor.go:431-512 | the invariant of running bodies holds along every run without such denials |
| `ToolBodies.ExclusiveBodies` | agent/tools_executor.go:431-512 | in those runs two running tool bodies are both safe, whatever the states of their calls |
| `ToolDenials.DenialInFlightOverlaps` | agent/tools_executor.go:141-169 | a reachable state in which an exclusive body runs beside a denied one |
| `ToolCommit.DedupeResults` | agent/messages.go:134-152 | keeps the first result of every call, in order |
| `ToolCommit.CollectReleases` | agent/tools_executor.go:185-209 | collecting adds exactly the newly released results, up to repetitions |
| `ToolCommit.RunKeepsReleased` | agent/loop.go:1076-1123 | in every run the deduplicated collection lists released calls in call order |
| `ToolCommit.CommittedOncePerCallInOrder` | agent/loop.go:1076-1123 | in every interleaving, aborts included, the committed message has at most one result per call, in call order, and one for every terminal call |
| `ToolCommit.RawYieldsRepeat` | agent/tools_executor.go:491-494 | a reachable state whose raw yields name one call twice |
| `ToolContents.SlotsHoldLastWritten` | agent/tools_executor.go:141-169 | after every interleaving a call holds exactly the result and the error mark written to it last by a denial, a refused start, its body or the abort of a sibling |
| `ToolContents.FirstReleaseMeans` | agent/tools_executor.go:185-209 | a call is first handed over by the first collection that finds it and everything before it terminal |
| `ToolContents.CommittedSaysWhatWasWritten` | agent/loop.go:1076-1123 | in every interleaving a call is answered in the committed message if and only if something was written to it, and the answer is what was written last before the call was first handed over |
| `ToolCancel.CancelledLaunchesNothing` | agent/tools_executor.go:298-331 | once the execution is cancelled or a sibling was aborted, in every continuation only calls that had passed the start check by then execute, and drains are empty |
| `ToolCancel.AbortedUntilYielded` | agent/tools_executor.go:475-512 | the end of its body does not complete an aborted call: it stays aborted until it is yielded or denied |
| `ToolProgress.DrainBatchShape` | agent/tools_executor.go:352-379 | a drain launches only safe calls or exactly one exclusive call |
| `ToolProgress.DrainLaunchesFirst` | agent/tools_executor.go:352-417 | with nothing in flight and no cancellation, a drain launches the first unfinished call if it is safe or granted |
| `ToolProgress.GrantedRunsAreLive` | agent/tools_executor.go:110-125 | every run without a denial of a running safe body reaches only states the following theorems start from, where nothing is cancelled and every queued call is safe or granted |
| `ToolProgress.StepShrinksWork` | agent/tools_executor.go:431-512 | no step but adding a call increases the remaining work |
| `ToolProgress.NeverStuck` | agent/tools_executor.go:352-417 | uncancelled and fully granted, with nothing in flight and nothing for a drain to launch, every call has ended |
| `ToolSchedule.GrantedListsComplete` | agent/tools_executor.go:352-512 | after any run without a denial of a running safe body, once every queued call is safe or granted, all calls end and stay ended along every fair uncancelled schedule |
| `ToolSchedule.AdvancesAreBounded` | agent/tools_executor.go:431-512 | every such run, whatever its interleaving, launches, starts and ends calls at most three times their number |
| `ToolWait.LeftBehindExactly` | agent/tools_executor.go:352-417 | a drain leaves a queued call behind if and only if an earlier conflicting call is unfinished or an exclusive body is running |
| `ToolWait.LeftBehindIsBlocked` | agent/tools_executor.go:352-417 | when no body runs under an ended call, a drain leaves a queued call behind if and only if an earlier conflicting call is unfinished |
| `ToolWait.MoveKeepsTurn` | agent/tools_executor.go:222-269 | every critical section of the waiting goroutine and of the tools keeps what the turn guarantees |
| `ToolWait.LostCallsAreDeep` | agent/loop.go:1076-1098 | in every interleaving of a turn, a call that has not ended when the results are read had to wait at the beginning for a call that was itself queued |
| `ToolWait.TurnsAreAwaited` | agent/tools_executor.go:222-237 | no wake-up is lost: in every interleaving, while the turn waits without a signal, some call executes or some goroutine is still to signal |
| `ToolWait.WakeUpsUseSignals` | agent/tools_executor.go:232-236 | the wait does not spin: every wake-up uses up a signal |
| `ToolLosses.QueuedUntouched` | agent/tools_executor.go:253-264 | a call still queued is exactly as it was when the turn began |
| `ToolLossRuns.TurnLosesExactly` | agent/loop.go:1076-1098 | a settled turn can be committed with a call still queued, or not ended, if and only if three unfinished calls each wait for the one before and an early wake-up is possible, or four do |
| `ToolLossWitness.GrantedCallGoesUnanswered` | agent/loop.go:1076-1098 | a turn of four calls, reached from an empty executor, whose results are read while a granted call is still queued and has no result |
| `RunState.RunKeepsInv` | agent/run_state.go:186-392 | in every run the phase is the activity, or waiting exactly when requests are pending; idle, cancelling and terminal phases have none pending; channels of pending requests are unused |
| `RunLaws.PhaseChangesAreEdges` | agent/run_state.go:48-68 | every phase change is an edge of the table, except exactly the end of a run whose cancelled context was not noticed, which is a path of two edges |
| `RunLaws.EdgesAreTaken` | agent/run_state.go:48-68 | and every edge of the table between different phases is taken by some step of a run |
| `RunLaws.FinalPhases` | agent/run_state.go:186-288 | within one run cancelling leads only to cancelled, and a terminal phase stays |
| `RunLaws.OneTerminalPhase` | agent/run_state.go:256-288 | a run publishes at most one terminal phase |
| `RunLaws.TicketsAnsweredOnce` | agent/run_state.go:290-392 | each ticket gets at most one answer, and the channel of a pending request is empty |
| `RunLaws.ReplyReachesTheOnlyFit` | agent/run_state.go:356-392 | a reply is accepted if and only if exactly one pending request fits; it then reaches and closes that request alone |
| `RunLaws.RevivedExactly` | agent/run_state.go:164-169 | a token becomes live exactly when a run is begun under its id in its generation |
| `RunLaws.StaysOver` | agent/run_state.go:222-288 | a run that is over stays over in every continuation that does not reuse its id |
| `RunLaws.NoGrantAfterCancellation` | agent/run_state.go:323-340 | after a recorded cancellation no waiter of that run returns a grant, unless its id is reused |
| `RunLaws.ReusedRunIdHonoursOldGrant` | agent/runtime_state.go:297-350 | a run in which a reused id lets a cancelled waiter return its grant |
| `RunOutcome.RunIsTold` | agent/run_state.go:186-392 | while a run lasts, its phase, activity, error, reason and open requests are what its steps say: a request is open if and only if it was made, not withdrawn and not answered |
| `RunOutcome.RunEndsAsTold` | agent/run_state.go:256-288 | a run ends cancelled if and only if it was cancelled or its context was done before; otherwise failed if and only if an error was recorded or a request is open; otherwise completed; no later step changes that |
| `RunOutcome.ReplyTakenExactly` | agent/run_state.go:356-392 | a reply is taken if and only if the run is not cancelled, its context is not done and the reply is meant for exactly one open request; it then lies in the channel of that request |
| `RunOutcome.WaiterReturnsExactly` | agent/run_state.go:323-340 | a waiter hands on its answer if and only if its run was neither cancelled nor ended, and neither context is done |
| `RunOutcome.GrantsWereReplied` | agent/run_state.go:290-392 | in every run a grant in the channel of a request is the answer of a later reply meant for that request |
| `RunOutcome.AnswersAreTakenOnce` | agent/run_state.go:323-340 | in every run the answer to a request is found at most once, however often one looks for it |
| `RunOutcome.WaitersAreRefused` | agent/run_state.go:212-288 | when a live run is cancelled or ends, each open request gets a refusal |
| `RunOutcome.OldGenerationsAreStale` | agent/run_state.go:164-169 | generations never go back, so a token of an earlier generation is stale for good |
| `AgentRuntime.Runtime.Begin` | agent/runtime_state.go:321-350 | refuses an expired session, an active run or a cancelled caller; otherwise a fresh run and a draft of the published state |
| `AgentRuntime.Runtime.Transition` | agent/run_state.go:186-202 | moves the activity of a live run, under the pending overlay; the error tells why not |
| `AgentRuntime.Runtime.DenyWaiters` | agent/run_state.go:212-221 | denies every pending waiter, in any order, without blocking |
| `AgentRuntime.Runtime.CancelRun` | agent/run_state.go:231-242 | records a cancellation, denies all waiters, and keeps a user's reason |
| `AgentRuntime.Runtime.EndRun` | agent/run_state.go:256-288 | publishes one terminal phase with nothing pending; a stale token changes nothing |
| `AgentRuntime.Runtime.BeginPermission` | agent/run_state.go:290-322 | opens a ticket with an empty channel exactly when the run is live, uncancelled and the kind is known |
| `AgentRuntime.Runtime.SelectRequest` | agent/run_state.go:366-384 | finds the only fitting request whatever the order of the map, and none if several fit |
| `AgentRuntime.Runtime.ResolvePermission` | agent/run_state.go:356-392 | accepts exactly a reply with one fitting request; the send finds an empty channel |
| `AgentRuntime.Runtime.TakeAnswer` | agent/run_state.go:323-340 | returns the answer only if the run is live and uncancelled at that moment |
| `AgentRuntime.Runtime.CancelPermission` | agent/run_state.go:341-355 | drops the request of a matching run and refreshes the phase |
| `AgentRuntime.ContextManager.Restore` | agentContext/manager.go:140-159 | replaces the working view exactly for a supported version |
| `AgentRuntime.ContextManager.Commit` | agentContext/manager.go:161-174 | accepts exactly a candidate of the current revision and generation |
| `AgentRuntime.Runtime.Commit` | agent/runtime_state.go:427-455 | publishes a live draft one revision up after the durable write; a stale draft or a failed write publishes nothing |
| `AgentRuntime.Runtime.CommitContext` | agent/runtime_state.go:457-508 | publishes a fresh candidate; while manager and snapshot agree no checkpoint is written in vain |
| `AgentRuntime.Runtime.ResetLocked` | agent/runtime_state.go:510-527 | a new generation with an idle run, exactly if the write succeeded |
| `AgentRuntime.Runtime.Restore` | agent/runtime_state.go:276-291 | a later generation with an idle run; refused while a run is active |
| `AgentRuntime.Runtime.AdvanceMemory` | agent/runtime_state.go:529-541 | the memory cursor only moves forward, and only within its generation |
| `AgentRuntime.Runtime.SetYolo` | agent/runtime_state.go:700-715 | publishes the policy one revision up and outdates older drafts |
| `PublishedState.VersionsStrictlyIncrease` | agent/runtime_state.go:427-541 | along every run (generation, revision) increases lexicographically, so a pair names one published snapshot |
| `PublishedState.ContextVersionsIncrease` | agent/runtime_state.go:427-508 | along every run a pair of generation and context revision names one context |
| `PublishedState.FreshCandidateMeetsItsContext` | agent/runtime_state.go:457-462 | a compaction candidate is only ever committed over the very context it was prepared from |
| `PublishedState.ManagerAlwaysAgrees` | agent/runtime_state.go:276-541 | in every run with supported restores the manager's view, revision and generation equal the published ones, and no checkpoint goes unpublished |
| `PublishedState.NewRuntimeAgrees` | agent/runtime_state.go:428-508 | a new runtime and its manager agree in every such run, and no checkpoint is written in vain |
| `PublishedState.DurableCandidateIsAccepted` | agentContext/manager.go:161-174 | the optimistic check cannot fail after the runtime's own check |
| `PublishedState.RestoreAgreesExactly` | agent/runtime_state.go:276-291 | a restore keeps the agreement if and only if the context version is supported |
| `PublishedState.UnsupportedRestoreTearsCommit` | agent/runtime_state.go:457-491 | a run in which a checkpoint is written and then not published |
| `PublishedState.DraftRevivedExactly` | agent/runtime_state.go:321-350 | a draft whose run is over can publish again exactly when a run is begun under its id in its own generation |
| `PublishedState.StaleDraftPublishesNothing` | agent/runtime_state.go:428-460 | once its run is over, a draft publishes nothing through either commit in any continuation that does not reuse the run id |
| `PublishedState.ObsoleteDraftNeverPublishes` | agent/runtime_state.go:427-508 | a draft of an earlier generation never publishes again, whatever happens |
| `PublishedContents.EventPublishes` | agent/runtime_state.go:427-541 | what one event publishes: the contents of a live draft, of a current candidate, of a reset or of a restore, and otherwise nothing |
| `PublishedContents.PublishedIsLastSet` | agent/runtime_state.go:427-541 | along every run the published contents, view and policy are those of the last event that got through |
| `PublishedContents.DraftHoldsLastWritten` | agent/runtime_state.go:321-350 | a draft holds its last edit, or what was published when it was handed out |
| `PublishedContents.CommitPublishesLastEdit` | agent/runtime_state.go:427-455 | a stored commit of a live draft publishes what was last written to that draft |
| `PublishedContents.CommittedDraftIsInStep` | agent/runtime_state.go:427-455 | behind a commit that gets through the draft is a copy of what is published |
| `PublishedContents.ChoiceOutlivesDrafts` | agent/runtime_state.go:700-715 | a choice of the user outlives every draft that was out at the time: its first commit publishes the policy it finds, whatever was edited in between |
| `PublishedContents.PreparedViewIsPublished` | agent/runtime_state.go:457-508 | a compaction whose commit gets through publishes the very view that was prepared, whatever happened in between |
| `SessionRuntime.Registry.Register` | agent/child_admission.go:54-72 | registers exactly under the current epoch and for an unexpired runtime; refusals change nothing |
| `SessionRuntime.Registry.Reset` | agent/runtime_state.go:836-849 | a run of the protocol that leaves the epoch, waits for every registered child in any order and empties the registry |
| `ClearLaws.TaskStep` | agent/task_runtime.go:385-541 | a terminal task stays terminal under every step, and keeps its epoch |
| `ClearLaws.StepKeepsInv` | agent/loop.go:338-350 | every critical section of children, admissions and clears keeps the clear invariant |
| `ClearLaws.ClearIsABarrier` | agent/loop.go:338-350 | unless a runtime is displaced, in every interleaving no event of an older child, creation of an older task or status of an older background task follows the reset of an epoch, and after shutdown every older task is terminal or gone |
| `ClearLaws.OldLeaseIsDead` | agent/child_admission.go:33-72 | a lease of an earlier epoch registers and admits nothing in any later state |
| `ClearTasks.TasksAreAlone` | agent/task_runtime.go:385-541 | in every interleaving the state of a task is what its own starts, ends, messages and stops make of it, until it is removed |
| `ClearTasks.AnnouncedExactly` | agent/runtime_events.go:319-332 | in every run a change of status is announced if and only if no run has begun yet or no reset was written since the last run began |
| `ClearLaws.RestoreChildren` | agent/runtime_state.go:739-794 | recovers exactly the children none of whose events precedes the last reset |
| `ClearLaws.RecoveredChildrenAreNew` | agent/runtime_state.go:777-780 | no recovered child stems from before the last clear |
| `ClearLimits.RegisterBreaksExactly` | agent/child_admission.go:54-72 | after a registration some continuation breaks the barrier if and only if the registration displaces another runtime |
| `ClearLimits.DisplacedChildWritesAfterReset` | agent/runtime_state.go:836-849 | a run in which a displaced child writes after the reset |
| `ClearLimits.OrderlyRunsKeepFullBarrier` | agent/task_runtime.go:700-760 | if no runtime is displaced and no overdue foreground task is announced, nothing older than a reset follows it |
| `ClearLimits.ForegroundEndBreaksExactly` | agent/task_runtime.go:725-739 | the status of an ending foreground task can follow a newer reset if and only if the recorder accepts events and such a reset is written or about to be written |
| `ClearLimits.ForegroundEndFollowsReset` | agent/runtime_events.go:319-332 | a run in which the next run reopens the recorder and the status of a cleared foreground task follows the reset |
| `TaskForest.RegisterExactly` | agent/task_runtime.go:851-859 | child counts stay exact if and only if the registered id is new |
| `TaskForest.UnregisterKeepsExact` | agent/task_runtime.go:914-930 | unregistering keeps the child counts exact, with no entry for zero |
| `TaskForest.RegisterKeepsForest` | agent/task_runtime.go:851-859 | a new record without children keeps the records a forest |
| `TaskRuntime.AgentTaskRuntime.Register` | agent/task_runtime.go:851-859 | adds the record and its scopes; counts are exact exactly for a new id |
| `TaskRuntime.AgentTaskRuntime.Unregister` | agent/task_runtime.go:914-930 | removes the record and returns it, or finds none |
| `TaskRuntime.AgentTaskRuntime.StopTask` | agent/task_runtime.go:413-449 | kills a live task of the scope, and leaves terminal and foreign ones alone |
| `TaskRuntime.AgentTaskRuntime.Shutdown` | agent/task_runtime.go:227-248 | afterwards every record is terminal; live ones are killed and terminal ones are as they were |
| `TaskRuntime.AgentTaskRuntime.Finish` | agent/task_runtime.go:700-756 | sets the outcome unless the record was killed or interrupted |
| `TaskRuntime.AgentTaskRuntime.SendMessage` | agent/task_runtime.go:385-411 | accepted exactly by an idle reusable worker of the scope |
| `TaskRuntime.AgentTaskRuntime.DiscardTerminalRecord` | agent/task_runtime.go:996-1020 | removes only a terminal record without children, so no record loses its parent |
| `TaskRuntime.AgentTaskRuntime.CleanupScope` | agent/task_runtime.go:611-654 | terminates on a forest, removes exactly the descendants, reports exactly how many were removed and how many were not terminal, and keeps no worker or scope of a removed record |
| `Messages.RepairOrphanTools` | agent/messages.go:167-249 | drops lone results and answers lone calls, message by message |
| `Messages.RepairLeavesNoOrphans` | agent/messages.go:167-249 | no lone call or result is left, everything else stays in order, and repairing twice changes nothing |
| `RepairLaws.RepairAnswersAtOnce` | agent/messages.go:167-249 | each message with lone calls is followed at once by a user message that answers exactly these in order; a repair leaves no message empty, keeps the other results as they are, and keeps calls with the assistant and results with the user |
| `Normalize.MergeSplitMessages` | agent/normalize.go:151-182 | joins consecutive pieces of one response |
| `Normalize.MergeKeepsBlocks` | agent/normalize.go:151-182 | merging keeps all blocks in order |
| `Normalize.MergeIsComplete` | agent/normalize.go:151-182 | no two neighbours of a merged history are pieces of one response |
| `OnePass.MergingIsJoining` | agent/normalize.go:151-182 | merging is joining message by message: a message is added to the one before if and only if both belong to the same named response, and every other message stays as it is |
| `PairingRepair.FixToolPairings` | agent/normalize.go:184-255 | leaves no lone call or result whatever the order of repairs, adds exactly one synthetic block per lone name, keeps all messages and all other blocks in order, and changes nothing if nothing was lone; made-up results go behind the blocks of user messages and made-up calls before those of assistant messages, or into messages of their own, right behind the call and right before the result when calls are the assistant's and results the user's |
| `NormalizeStages.MoveAttachments` | agent/normalize.go:37-59 | the loop puts the attachments of each message first |
| `NormalizeStages.DropVirtual` | agent/normalize.go:61-70 | the loop drops exactly the virtual messages |
| `NormalizeStages.DropInternal` | agent/normalize.go:88-121 | the loop drops internal blocks, rejected attachments and messages left without blocks |
| `NormalizeStages.DropThinking` | agent/normalize.go:123-149 | the loop drops thinking blocks of users, or all of them if the model has none |
| `NormalizeStages.ReorderKeepsCore` | agent/normalize.go:37-59 | moving attachments keeps text, calls and results in order |
| `NormalizeStages.StripKeepsCore` | agent/normalize.go:88-121 | dropping internal and rejected blocks keeps text, calls and results |
| `NormalizeStages.ThinkingKeepsCore` | agent/normalize.go:123-149 | so does dropping thinking blocks |
| `OnePass.StagesAreOnePass` | agent/normalize.go:37-149 | the four cleaning stages together are one pass that cleans each message by itself: virtual messages and messages left without blocks go, attachments come first, internal and rejected blocks and unwanted thinking are dropped, and nothing else changes |
| `ImmediateResults.EnforceImmediateToolResults` | agent/normalize.go:257-325 | the in-place pass puts, behind every calling message, one carrier with its answers |
| `ImmediateResults.KeepsOrderOfOthers` | agent/normalize.go:257-325 | the order of all blocks that are no tool results is untouched |
| `ImmediateShape.AnswersArePlaced` | agent/normalize.go:257-325 | behind each message with named calls comes at once a user message that answers exactly these in order; calls stay with the assistant and results with the user |
| `ImmediateHistory.AnswersFollowHistory` | agent/normalize.go:277-323 | in every history each call is answered by the first result behind its message that no earlier call of that name has claimed, and by a synthetic one exactly if there is none |
| `ImmediateHistory.FirstCallTakesFirst` | agent/normalize.go:277-323 | the first call of a name gets the very first result that follows it |
| `ImmediateHistory.RecurringNameLosesItsResult` | agent/normalize.go:277-323 | a history in which a recurring call gets a synthetic result although a result follows it |
| `ImmediateHistory.ConservesBlocksExactly` | agent/normalize.go:257-325 | no block is lost or doubled, apart from the synthetic results of unanswered calls, if and only if no message repeats a call name for which an unclaimed result follows; both read off the history |
| `ImmediateHistory.DistinctWithinConserves` | agent/normalize.go:257-325 | distinct names within each message are enough for conservation |
| `ImmediateLaws.EnforcingTwice` | agent/normalize.go:257-325 | with distinct names within each message the pass is idempotent |
| `ProviderChat.ConsumeCarriers` | api/client.go:1278-1331 | consumes exactly the leading carriers of expected results |
| `ProviderChat.ConvertMessages` | api/client.go:1333-1434 | the index loop computes the converted chat, fallbacks included |
| `ProviderChat.ChatIsPairedExactly` | api/client.go:1333-1434 | after enforcing, each entry with calls is followed at once by exactly its answers in order and no answer stands elsewhere, if and only if every call has a name |
| `ChatOutline.ChatShowsMessages` | api/client.go:1333-1434 | for every list of messages the chat holds, besides the answers, exactly what is shown of each message, in order: its calls with their inputs and texts, or its texts |
| `ChatOutline.ChatShowsHistory` | agent/normalize.go:257-325 | the same for the chat of an enforced history, read off the history before that pass |
| `ChatOutline.ChatKeepsTexts` | api/client.go:1333-1434 | the chat of an enforced history shows every text block exactly once, in order |
| `ChatOutline.AnswersCoverCalls` | api/client.go:1278-1434 | for every list of messages, behind each entry with calls exactly its named calls are answered |
| `ChatCarriers.ConsumedExactly` | api/client.go:1278-1331 | messages behind calls are consumed if and only if they bring nothing but results of calls still open, and hints; the calls then left are those without a result there |
| `ChatCarriers.AnswersAreCarried` | api/client.go:1333-1434 | for every list of messages, behind a message with calls come the results the consumed messages bring, with content and error mark, in order, and then a note of loss for each named call without one |
| `NormalizePipeline.NormalizeMessages` | agent/normalize.go:354-364 | the whole pipeline yields a well-paired chat if and only if every call of a non-virtual assistant message has a name; text and calls of non-virtual messages survive in order, and only calls of lone results are added to them |
| `NormalizePipeline.ChatAnswersFollowHistory` | agent/normalize.go:257-325 | the tool entries of the converted chat are, one by one in call order, exactly those answers of the history, with their contents and error marks |
| `QueryLoop.ReadStream` | agent/loop.go:728-785 | reads a finite stream up to its first decisive event |
| `QueryLoop.OutputRecovery` | agent/output_recovery.go:44-62 | every retry or continuation uses up one unit of the output budget |
| `QueryLoop.IterationShrinks` | agent/loop.go:787-933 | every further iteration makes the four budgets lexicographically smaller, although later ones may be reset |
| `QueryLoop.Query` | agent/loop.go:521-934 | the loop terminates against every provider by that measure |
| `QueryLoop.RequestBound` | agent/loop.go:521-934 | at most 12 n + 48 requests for n remaining turns and fresh counters |
| `QueryLoop.BoundIsAttained` | agent/loop.go:521-934 | some provider makes the loop send exactly that many |
| `QueryStream.SeenIsRead` | agent/loop.go:728-785 | what a turn has seen is read off the stream up to the first failure: whether text was visible, how many calls there were, whether it was cut off |
| `QueryStream.StreamDecides` | agent/loop.go:787-933 | a request is followed by another one if and only if its stream calls tools, was cut off with retries left, or failed in a way that may be tried again; a failure behind visible text without calls is not tried again |
| `QueryStream.StreamCharges` | agent/loop.go:787-933 | the counters behind a request say which of the four budgets its stream has used |
| `Compaction.SafeTailStart` | agentContext/message.go:148-178 | terminates with the greatest cut at or below the wanted one that separates no retained result from its call |
| `Compaction.BuildReplacement` | agentContext/manager.go:394-406 | the replacement is the summary, the latest plain request before the tail if there is one, and the tail; it keeps the calls of all results it retains |
| `Compaction.ReplaceHistory` | agentContext/manager.go:365-417 | the history is replaced if and only if something lies before the cut for four entries and a summary succeeds and pays off, and then by the replacement for that cut; either way nothing required is lost |
| `Folding.FoldRegions` | agentContext/manager.go:339-361 | folds exactly the stretches of three or more unused entries before the cut |
| `Folding.FoldedExactly` | agentContext/manager.go:339-361 | an entry gets into a new region if and only if it lies in a run of at least three unused entries before the cut |
| `Folding.FoldHistory` | agentContext/manager.go:320-364 | keeps the regions of earlier folds and adds those of the long stretches before the cut that keeps ten entries |
| `Folding.ProjectRegions` | agentContext/manager.go:224-247 | shows each region as its summary and everything else as it is |
| `Folding.ProjectionIsTheRest` | agentContext/manager.go:224-247 | without its summaries the projection is the history without the folded entries, in order |
| `FoldedView.ViewIsShown` | agentContext/manager.go:224-247 | the view shows each entry in its place: the summary of the last region that starts with it, and the entry itself unless a region holds it |
| `FoldedView.LatestRequestIsShown` | agentContext/manager.go:224-247 | the latest request the model is shown is the latest request of the history unless a region holds it; summaries never count as requests |
| `Folding.FoldingKeeps` | agentContext/manager.go:320-364 | after a fold the view shows every entry behind the cut and the latest plain request, unless an earlier fold hides it |
| `Folding.FoldingOrphansExactly` | agentContext/manager.go:320-364 | after a fold on top of earlier ones the view shows no result without its call if and only if every entry neither long nor folded already has its results called by such entries |
| `Folding.FoldingOrphansBeforeCut` | agentContext/manager.go:322-364 | when no earlier region reaches past a safe cut, only the entries before the cut matter for that |
| `Folding.CutRetreatsBecause` | agentContext/message.go:148-178 | an earlier cut is not reached any more only because a result that came later has its call before it |
| `Folding.AdjacentPairsStayTogether` | agentContext/manager.go:320-364 | however often a growing history is folded, when every result comes right behind its call the view shows no result without its call, and it shows the latest plain request |
| `Folding.ShortStretchOrphansResult` | agentContext/manager.go:323-361 | a history of which every fold shows a result without its call |
| `Journal.JournalStaysBracketed` | agent/runtime_events.go:59-131 | with stored run starts, whichever step and end appends fail, the journal is a prefix of a well-bracketed word with consecutive step numbers |
| `Journal.EveryJournalIsBracketed` | agent/runtime_events.go:59-150 | so the journal of every new recorder is such a prefix after any calls whose run starts are stored |
| `Journal.RunStartExactly` | agent/runtime_events.go:65-102 | an accepted run start keeps recorder and journal in step if and only if it is stored |
| `Journal.LostStartBlocksNewRuns` | agent/runtime_events.go:65-67 | after a lost run start every new run is refused |
| `EventRecorder.RuntimeEventRecorder.BeginRun` | agent/runtime_events.go:59-102 | starts a run unless one is open |
| `EventRecorder.RuntimeEventRecorder.BeginStep` | agent/runtime_events.go:104-131 | closes the open step and opens the next, together or not at all |
| `EventRecorder.RuntimeEventRecorder.EndRun` | agent/runtime_events.go:264-298 | closes the open step and the run with one outcome, together or not at all |
| `Replay.ReplayAgentState` | agent/state_replay.go:14-243 | replay depends only on the checkpoint and the stream's own events after its last reset |
| `ReplayLaws.TranscriptIdsStayDistinct` | agent/state_replay.go:32-39 | transcript ids stay distinct, and without a reset the checkpointed transcript is a prefix |
| `ReplayLaws.PutBackResultsHaveCalls` | agent/state_replay.go:135-203 | over the whole pass, results put back for a call that was only planned stand behind the call if and only if those of the last replacing view do |
| `ReplayLaws.RecoveredToolsHaveCalls` | agent/state_replay.go:135-203 | without a replaced view, a finished tool whose assistant message was never journaled comes back with its planned call and, if readable, its result |
| `ReplayMessages.PassIsExplained` | agent/state_replay.go:119-230 | the messages of a pass are those its events add one after the other, each a message whose id is not there yet or the call and the result of a finished tool; the turn counters grow with them |
| `ReplayMessages.JournaledMessagesComeBack` | agent/state_replay.go:119-230 | every message journaled behind the checkpoint and the last replacing view is there again, itself or one with its id |
| `ReplayMessages.NamesAreApart` | agent/state_replay.go:207-216 | a message without an id of its own is named after its event and shares that name with no other such message |
| `ReplayMessages.CapturedExactly` | agent/state_replay.go:32-39 | capturing adds, in order, exactly the lasting messages that are the first with their id |
| `ReplayMessages.ResetSays` | agent/state_replay.go:16-21 | the reset that counts is the last one of the own stream, if there is any |
| `ReplayMessages.OwnSays` | agent/state_replay.go:54-57 | the events that count are exactly those of the own stream behind the reset, in order |
| `ReplayMessages.StartSays` | agent/state_replay.go:14-52 | a restart begins with the checkpoint, emptied by a reset behind it, and with no transcript after any reset |
| `ReplayMessages.FactsSay` | agent/state_replay.go:54-111 | what is known of a call before the pass: planned, made by an assistant message still to come, or its result held by the transcript or the journal |
| `ReplayMessages.RecoveredIsJournaled` | agent/state_replay.go:14-243 | what a restart finds, read off the journal: the last replacing view and what each later event adds, the transcript of all lasting messages that are the first with their id, and the counters |
| `ReplayLaws.ReplayedUsage` | agent/state_replay.go:171-193 | usage is that of the checkpoint, or none after a later reset, plus the new records |
| `ReplayLaws.EachRequestCountsOnce` | agent/state_replay.go:179-193 | the total grows by the first record of each new request and by nothing else |
| `ReplayMessages.SameRequestExactly` | agent/state_replay.go:171-193 | two usage records are taken for one request if and only if they name the same one; a record that names none is only taken for itself |
| `UsageLedger.StepKeepsBooks` | agent/messages.go:43-55 | turns, checkpoints, compactions, new runs and clears keep draft, checkpoint and journal equal to what the requests really used |
| `UsageLedger.CrashFindsRecord` | agent/state_replay.go:171-193 | a crash at any point finds the checkpoint plus the records behind it |
| `UsageLedger.RecoveryIsExact` | agent/runtime_events.go:169-200 | after every careful run the draft is the sum over the requests since the last reset of their first tokens, recovery finds exactly the checkpointed or journaled part, and all of it if every turn was stored |
| `UsageLedger.CompactionExactly` | agent/runtime_state.go:457-508 | after a compaction recovery finds everything used if and only if no counted request was missing in the checkpoint |
| `UsageLedger.BeginExactly` | agent/runtime_state.go:321-350 | a new run knows everything used, and its first checkpoint keeps it, if and only if no counted request was missing in the checkpoint |
| `UsageLedger.SettledInJournal` | agent/state_replay.go:171-193 | for stored turns that condition says that no record behind the checkpoint names a request unknown to it |
| `UsageLedger.UnpublishedUsageIsLost` | agent/runtime_state.go:457-508 | runs in which a journaled turn is forgotten by a compaction and by the next run |
| `UsageJournal.JournalAccountsForAll` | agent/runtime_events.go:169-200 | after every careful run with recorded turns the journal alone, without any checkpoint, accounts for everything used, compactions included |
| `Migration.UndoRestores` | apppaths/migrate.go:574-619 | undoing one operation restores the disk if its destination held no files and was not inside its source, and for disjoint trees only then |
| `Migration.RollbackRestores` | apppaths/migrate.go:601-619 | undoing any completed operations in reverse order restores the disk |
| `Migration.SnapshotsRestore` | apppaths/migrate.go:285-317 | restoring snapshots undoes all rewriting of the files they cover |
| `MigrationRun.Disk.ApplyOperations` | apppaths/migrate.go:169-185 | applies the planned operations in order up to the first that fails |
| `MigrationRun.Disk.Rollback` | apppaths/migrate.go:601-619 | undoes the last operation first |
| `MigrationRun.Disk.RestoreFiles` | apppaths/migrate.go:309-317 | puts snapshots back in the order they were taken |
| `MigrationRun.Disk.Migrate` | apppaths/migrate.go:158-261 | in place or from another root, every exit before the layout commit leaves the disk as it was; a failed commit also does if and only if there was no report before; success leaves exactly the planned disk, without the retired memory data |
| `MigrationRun.CommitKeepsFiles` | apppaths/migrate.go:222-261 | committing loses exactly the retired memory data; every other file is in its place with its contents |
| `MigrationLaws.PlannedAreApplied` | apppaths/migrate.go:169-185 | exactly the planned operations are carried out, in order, and each leaves its source in place if and only if it is a copy or the source is preserved |
| `MigrationLaws.AppliedCarries` | apppaths/migrate.go:574-600 | an operation brings each file of its source to its place under the destination and takes it from the source if and only if it does not copy; other files stay |
| `MigrationLaws.RewritesExactly` | apppaths/migrate.go:190-221 | each configuration file gets what its own stage writes, and no other file changes |
| `MigrationLaws.ReportsAreWritten` | apppaths/migrate.go:222-261 | a committed migration has written its report and its layout |
| `JsonText.PreviousNonSpace` | agent/memory_structured_response.go:256-263 | looking back finds what the scanner remembers |
| `JsonText.RepairDelimiters` | agent/memory_structured_response.go:220-254 | replaces exactly the misplaced colons outside strings; length and all string bytes stay |
| `JsonText.RepairingTwice` | agent/memory_structured_response.go:220-254 | the repair is idempotent |
| `JsonText.SpaceSeparators` | api/client.go:1593-1620 | a space behind every separator outside strings |
| `JsonText.UnspacingUndoes` | api/client.go:1593-1620 | dropping the bytes behind separators gives the text back, for every text |
| `JsonScans.RepairKeepsValidText` | agent/memory_structured_response.go:220-254 | the repair leaves every JSON text unchanged |
| `JsonScans.SpacingRendersSpacedTree` | api/client.go:1593-1620 | the spaced text renders the same tree with more white space |
| `JsonReading.OneReading` | api/client.go:1593-1620 | a JSON text is the rendering of one tree only |
| `JsonReading.ScannersKeepReading` | api/client.go:1593-1620 | what is read from a JSON text is the same after spacing and after repair |
| `JsonRepair.RepairsExactly` | agent/memory_structured_response.go:220-254 | writing commas outside strings as colons is undone by the repair if and only if each lies between a closing bracket and an opening bracket or a quote |
| `JsonRepair.RepairRestoresExactly` | agent/memory_structured_response.go:220-254 | for every JSON text and every choice of its commas written as colons, the repair restores the text and its reading if and only if each of them stands between a closing bracket and an opening bracket or a quote |

## Left out

- Wrap-around of 64-bit generations, revisions, epochs and token counters: all counters are unbounded.
- HTTP, stream decoding, provider fallback, cooldowns, timeouts and idle expiry: only the fact that a stream is finite is used.
- Storage internals: an append succeeds or fails as a whole, and a crash falls between appends.
- JSON encoding of messages and snapshots: cloning is the identity on values.
- Line breaks between the texts of a provider entry, and tool names in it: an entry lists its texts, and its calls with their inputs.
- Tool bodies, hooks, permission policy, command classification, MCP, skills, memory and budgets for tool results.
- Token estimates and the snip and micro-compaction levels: whether a summary pays off is a parameter.
- `WaitForTasks`, notifications, task import and the UI sinks: they do not affect record counts or statuses.
- The queue of permission events: it only carries copies of requests to the user interface.
- Concurrent changes during `CleanupScope`: the model runs one cleanup to its end, as its locks allow between sections, but no other operation in between.
- Directory modes, links, hashing, partial copies and binding of single legacy projects in the migration: each file operation is atomic on a map from paths to contents, and empty directories are ignored.
- ReplayAgentState: messages journaled without an id are named after their event; adopting the id of an equal checkpointed message is not modelled.
- Restore: snapshots of another snapshot version, which are refused before anything is read, are not modelled.
- RestoreChildren: models which children are recovered, not the replay of each child.
- ExclusiveBodies: speaks of runs without denials of running safe bodies, for which DenialOverlapsExactly gives the exact condition.
- GetRemainingResults: models the section behind the wait, without the budget for all results together; the wait itself is part of the turns in ToolWait.
- TurnLosesExactly: speaks of turns that begin with no ended call still to drain or to signal, nothing for a drain to launch and no body under an ended call, whose context stays alive and whose execution is not cancelled; a launch counts as done once its call is reserved. For turns with skills that ask for permission but no early wake-up it gives four levels as sufficient and three as necessary.
- RecoveryIsExact: speaks of runs in which compactions and new runs find the draft published, for which CompactionExactly and BeginExactly give the exact conditions.
- ClearIsABarrier: leaves out the status of foreground tasks, for which OrderlyRunsKeepFullBarrier and ForegroundEndBreaksExactly state when it keeps the barrier.
- The notification events of finished tasks: they follow the status event of the same task in the same critical section.
- SafeTailStart: a block without an id field is treated like one with an empty id.
