# Mini agent: the durable run protocol, verified

The mini agent answers one message of a customer about an order. A handler
stores the message and a Run, lets a model propose a Task, reduces the proposal
to a closed graph of records, checks the proposed tool call at a gate, sends
`get_order` once behind a durable fence, and ends Run, Task and message in one
write. Everything it does is kept as records and trace events. After a crash,
startup recovery closes what was left open; an evidence closure and a trace
check judge the stored records afterwards.

This project models those records, commands, services and checks and proves
what they are for: that no interleaving of handlers, cancelled awaits, lost
answers, crashes and recovery makes the records contradict each other or undoes
what has ended; that every result names a stored turn; that what a finished turn
leaves closes as evidence and passes the trace check of its path, and no other;
and that the checks, reducer, gate, codec and graph walks decide exactly what
they are meant to decide.

`dafny verify dfyconfig.toml` checks all of it.

How the parts build on each other:

- `Records`, `Understanding`, `Commands`, `RecoveryCommands`: the records and the
  validators of the write commands.
- `RunStore`, `Protocol`, `ProtocolRecovery`, `Behaviours`, `Interleaving`,
  `Misfits`, `Reachable`, `Guarantees`: the store, its invariant, and all histories of all clients.
- `CrashClosure`, `RestartRecovery`, `Startup`, `Restarts`: what a crash leaves, what
  recovery builds from it, and the startup loop.
- `RecoveredRecords`, `RecoveredEvidence`, `CrashPoints`, `HaltedTurns`: the evidence of a recovered Run.
- `RuntimePort`, `RunClient`, `ReadExecutor`, `TurnProgress`, `RunSteps`, `RunService`:
  the handler as a program over awaits that may fail and over a store that others
  write to; `RunService` is the service itself.
- `Turns`, `TurnEvents` to `TurnTrace`, `TurnNames`, `Evidence`, `TurnClosure`, `FrozenClock`,
  `ServedTurns`: what a finished turn looks like, and its evidence closure.
- `TraceGrader`, `TraceExact`, `TraceTheorem`, `TurnGrades`: the trace checks.
- `Proposals`, `OrderId`, `SourceSpan`, `Reducer`, `ReducerTotal`, `ReduceRequest`,
  `Gateway`, `Integrity`: from the model's proposal to the argument of `get_order`.
- `Codec`, `CodecRecords`, `CodecRegistry`, `CodecReferences`, `CodecSpellings`, `Sorting`: stored envelopes.
- `JsonGraph`, `Supersedes`, `DeltaChains`, `VersionInForce`: the graph and chain checks.

Identifiers are naturals from a supply that never repeats, timestamps are
microseconds from a clock that never runs back, and an awaited call ends in an
answer or is raised, by an exception or a cancellation, before or after its
effect. A store is "calm" when no await fails and nobody else writes; the
liveness clauses say what happens then, everything else holds always. A contract
that opens with `hide *` is well formed whatever the predicates in it stand for.

## Findings

Where the code does not do what one would expect of it, the project keeps the
code as it is, gives an input and proves the exact condition.

1. **A clock that stands still leaves evidence that does not close.**
   `src/mini_agent/application/records.py:3908-3911` rejects a manifest whose
   assembly time equals the time of the next transition of its Task. The input is
   a complete turn of the code whose second manifest and whose final transition
   fall on one instant (`FrozenClock.OneInstantDoesNotClose`). The exact condition
   is `MovedAfterPresentation`: the Task moved strictly after the presented version
   was put in the context. `TurnClosure.FinishedTurnCloses` proves that the records
   of a finished turn close if and only if it holds, and a strictly increasing clock
   always makes it hold (`RunService.AgentRunService.Handle`).
2. **The store does not refuse a Task transition after the Run has ended.**
   `src/mini_agent/infrastructure/persistence/postgres.py:3243-3304` compares Task
   and RequestUnit only. For every ended Run with a Task there is such a transition
   (`Behaviours.EndedTaskCanMove`); it changes the Task the Run ended with and leaves
   the link behind. Exactly these writes undo anything
   (`Behaviours.WritePreserves`: a validated write only adds if and only if it is not
   a transition applied to a Run that is no longer active).
3. **A validated command need not fit the Run it is applied to.** The store looks at
   the Run alone when a ToolCall is inserted
   (`src/mini_agent/infrastructure/persistence/postgres.py:3337-3378`), at Task and
   RequestUnit alone when a Task moves (3243-3304), and at nothing when an event is
   appended (3505-3512). So it takes a call validated against an old version of its
   Task (`Misfits.StaleCallBreaks`), a call with a binding of another unit
   (`Misfits.ForeignBindingBreaks`), a transition under an open call
   (`Misfits.MoveUnderCallBreaks`) and a RunStopped event outside of finalization
   (`Misfits.StrayStopBreaks`). `Behaviours.WriteKeepsInvExactly` proves that the
   invariant survives a validated write if and only if the write, when applied, fits.
   That the service only sends fitting writes is proved where it builds them.
4. **Recovery cannot go back in time.** A command built while the clock is behind a
   stored timestamp does not pass its validator
   (`src/mini_agent/application/records.py:2670-2854`). The input is any CREATED Run
   and any clock before its start (`RestartRecovery.EarlyClockFails`).
   `RestartRecovery.BuiltValidIff` proves that nothing else can go wrong with it.
5. **Only request-understanding records are compared as a whole when they are
   decoded.** The decoder of all other records never compares the data
   (`src/mini_agent/application/persistence.py:1879-1886`). Any stored Observation
   whose timestamp is written with `+00:00` instead of `Z` is accepted
   (`CodecSpellings.SecondSpellingIsAccepted`), and so is every other spelling that
   loads as the record (`Codec.OtherSpellingIsAccepted`). The exact condition is that
   the envelope with its data written canonically is accepted by the comparing
   decoder (`Codec.AcceptedExactly`).
6. **A quote may cut an order id out of a longer number.** The boundaries of an order
   id are looked for in the quote, not in the message
   (`src/mini_agent/core/request_processing.py:109-117`). Whatever the order id, the
   message that has one digit more and the quote without that digit pass
   (`SourceSpan.QuoteMayCut`). The exact condition for an order id of the quote to be
   one of the message is that the quote does not end, or begin, between two letters
   or digits of the message where the order id does (`SourceSpan.MentionStands`).
7. **Recovery does not write the events of a call that had ended.** A process stopped
   between the end of the call and `_append_tool_trace`
   (`src/mini_agent/application/agent_run_service.py:681-704`) leaves a Run whose
   evidence never closes, whatever recovery does
   (`CrashPoints.StoppedBeforeToolTraceStaysOpen`). A turn stopped earlier closes
   (`CrashPoints.StoppedBeforeTaskCloses`, `HaltedTurns.HaltedTurnCloses`). Of records
   that otherwise close,
   `RecoveredEvidence.RecoveredRunCloses` proves the exact condition: every ended call
   has its lifecycle events, every Observation its event, and the clock moved on
   between the last presentation of a Task and the recovery that blocks it. The result
   event of a call is not asked for.
8. **An order service that breaks off keeps its Run RUNNING.** When `get_order` raises
   an exception the executor leaves the call RUNNING
   (`src/mini_agent/application/read_tool_executor.py:642-665` handles cancellations
   only), the adapter refuses to end a Run with an open call
   (`src/mini_agent/infrastructure/persistence/postgres.py:2265-2303`), and the failure
   closure (`src/mini_agent/application/agent_run_service.py:880-964`) changes nothing.
   `RunService.AgentRunService.Handle` proves that with an undisturbed store this is
   the only way a turn that raises does not leave its Run FAILED: the Run is RUNNING
   with an open call exactly when `get_order` was asked and broke off.

## Model

| member | source | states |
|---|---|---|
| `TurnClosure.FinishedTurnCloses` | `src/mini_agent/application/records.py:3352-4621` | the records of a finished turn, for every stop reason and with or without the fault seam, pass the whole evidence closure if and only if the Task did not leave the presented version at the instant it was presented |
| `FrozenClock.ClosesIfTheClockMoves` | `src/mini_agent/application/records.py:3872-3916` | a complete turn built on two readings of the clock is a finished turn, and its evidence closes if and only if the second reading is later |
| `FrozenClock.OneInstantDoesNotClose` | `src/mini_agent/application/records.py:3903-3916` | the failing input: a finished turn, presented and ended at one instant, whose evidence is not closed |
| `ServedTurns.ResultIsStored` | `src/mini_agent/application/agent_run_service.py:296-315` | a result stands for a stored COMPLETED Run, the assistant message with the same text and the RunStopped event with the same outcome, all at one time |
| `ServedTurns.ServedRunCloses` | `src/mini_agent/application/agent_run_service.py:317-865` | what the store holds of a Run that produced a result closes, under the same exact condition |
| `ServedTurns.CompletedRunCloses` | `src/mini_agent/application/agent_run_service.py:880-964` | the same of any Run found COMPLETED after its handler ended in an error or a cancellation |
| `ServedTurns.ServedRunIsGraded` | `src/mini_agent/evaluation/graders.py:1829-1997` | the stored trace of a served Run passes the two trace checks for exactly the variants whose path the turn took |
| `RunService.AgentRunService.Handle` | `src/mini_agent/application/agent_run_service.py:296-315` | with any exceptions, lost answers, cancellations and interfering clients: a result always names a stored finished turn that the partners' replies explain; a COMPLETED Run is a finished turn and is never overwritten; get_order is asked at most once and for a sound query. In a calm store: a turn that raises has closed its Run as FAILED, except exactly when get_order was asked and broke off with an exception, which leaves the call open and the Run RUNNING; the gate of a built registry lets the move through if and only if no fault hook is installed, the registry offers get_order, and the model asks for the order its candidate names; with cooperating partners and time left there is a result |
| `RunService.AgentRunService.HandleTurn` | `src/mini_agent/application/agent_run_service.py:317-865` | the turn proper: either it ends in a committed finished turn, or, in a calm store, what the failure closure knows of Run, owner, link and Task is what is stored, and a call is open exactly when get_order broke off |
| `RunService.AgentRunService.Interpret` | `src/mini_agent/application/agent_run_service.py:423-513` | the branches on what the model returns, each with the stop reason it leads to and no other |
| `RunService.AgentRunService.Consider` | `src/mini_agent/application/agent_run_service.py:436-513` | a proposal is reduced and carried through, or the turn ends without a Task exactly when its provenance fails |
| `RunService.AgentRunService.Proceed` | `src/mini_agent/application/agent_run_service.py:515-865` | a routable decision is carried to the end: the finished turn works out that very decision |
| `RunService.AgentRunService.Follow` | `src/mini_agent/application/agent_run_service.py:585-735` | from the established graph over the hook and the gate to the end; in a calm store the gate accepts exactly the move for the bound order |
| `RunService.AgentRunService.Begin` | `src/mini_agent/application/agent_run_service.py:360-397` | Conversation, Message and Run are new, agree with each other, and the Run is RUNNING before anything else happens |
| `RunService.AgentRunService.Announce` | `src/mini_agent/application/agent_run_service.py:399-422` | exactly the opening records and events, in order, before the first model call |
| `RunService.AgentRunService.SaveManifest` | `src/mini_agent/application/agent_run_service.py:245-294` | the manifest is stored and then announced, both with the given references, at a reading of the clock within the call |
| `RunService.AgentRunService.Allocate` | `src/mini_agent/application/agent_run_service.py:470-485` | one allocation a candidate, in order, with identities that are new and pairwise distinct |
| `RunService.AgentRunService.Understand` | `src/mini_agent/application/agent_run_service.py:436-513` | an answer is the reducer's routable decision for this message; no decision means the provenance failed; an error means nothing routable exists |
| `RunService.AgentRunService.CreateTaskGraph` | `src/mini_agent/application/agent_run_service.py:515-570` | the initial graph command is valid and applied as a whole, or the Run is left as found |
| `RunService.AgentRunService.AppendInitialDecision` | `src/mini_agent/application/agent_run_service.py:966-1016` | the five decision events, in order, naming the stored record, delta, unit and binding |
| `RunService.AgentRunService.Revalidate` | `src/mini_agent/application/agent_run_service.py:572-594` | the move is the revalidation of the decision against its stored graph, and it is recorded |
| `RunService.AgentRunService.FaultHook` | `src/mini_agent/bootstrap.py:655-718` | the fault seam moves the Task and its unit to WAITING_USER in one valid transition that is also in the trace |
| `RunService.AgentRunService.Judge` | `src/mini_agent/application/agent_run_service.py:596-646` | the gate looks at the Task and unit as stored at that moment; a Run that recovery has claimed meanwhile is never accepted |
| `RunService.AgentRunService.Gate` | `src/mini_agent/application/agent_run_service.py:617-646` | the gate's decision is the evaluation of the move against the given Task, unit and binding, the registry and the manifest, with no call used; it is well formed, stored and recorded |
| `RunService.AgentRunService.Act` | `src/mini_agent/application/agent_run_service.py:648-735` | a rejected gate ends the turn BLOCKED without a call and with the gate decision as its reason; get_order is asked at most once, and only if the gate let it through; in a calm store the verdict is the one on the Task as the turn left it |
| `RunService.AgentRunService.Call` | `src/mini_agent/application/agent_run_service.py:660-864` | the call and the end of the turn: stop reason, Task status, outcome and message are, literally, those of the table of replies and plans |
| `RunService.AgentRunService.RunTool` | `src/mini_agent/application/agent_run_service.py:660-704` | the executed call is the authorized one and its lifecycle is in the trace, or the turn stops unfinished |
| `RunService.AgentRunService.AppendToolTrace` | `src/mini_agent/application/agent_run_service.py:1018-1076` | created, started and ended, in that order, with the result event of a call that ended |
| `RunService.AgentRunService.Respond` | `src/mini_agent/application/agent_run_service.py:706-864` | not found, unavailable, timed out or without a canonical version: each with its reason, Task status, outcome and message; a found order with a plan that is refused by protocol, invalid, not rendered or rendered: the same; GOAL_COMPLETED exactly for a found order whose plan is valid and rendered, with that text |
| `RunService.AgentRunService.Present` | `src/mini_agent/application/agent_run_service.py:748-771` | the second manifest names the current Task version and the Observation just stored |
| `RunService.AgentRunService.ProposePlan` | `src/mini_agent/application/agent_run_service.py:772-815` | a plan is recorded for the observation presented before it is judged, with the context it was made in |
| `RunService.AgentRunService.RemainingBudget` | `src/mini_agent/application/agent_run_service.py:867-878` | an answer is positive and is the time that is left in whole milliseconds; none is given exactly when less than one is left |
| `RunService.AgentRunService.FinishWithTask` | `src/mini_agent/application/agent_run_service.py:1136-1262` | Task, unit, link, Run, message and closing events change in one write; a result means that this write was applied to the turn built so far |
| `RunService.AgentRunService.FinishWithoutTask` | `src/mini_agent/application/agent_run_service.py:1078-1134` | the same for a turn that never got to a Task |
| `RunService.AgentRunService.FinalizeFailedRunAfterError` | `src/mini_agent/application/agent_run_service.py:880-964` | closes the Run as FAILED or keeps it; what is committed stays; in a calm store it closes the Run the cursor names, and changes nothing while a call is open |
| `ReadExecutor.ReadToolExecutor.ExecuteGetOrder` | `src/mini_agent/application/read_tool_executor.py:425-665` | the call is created, durably RUNNING with attempt 1, and only then sent, at most once, and only under a single-attempt policy with time left; an answer describes exactly the call, attempt and Observation that are stored; in a calm store no call stays open unless get_order broke off with an exception |
| `ReadExecutor.ReadToolExecutor.Dispatched` | `src/mini_agent/application/read_tool_executor.py:522-665` | past the fence get_order is asked exactly once with the owner and the bound order id |
| `ReadExecutor.ReadToolExecutor.Settle` | `src/mini_agent/application/read_tool_executor.py:522-665` | what the reply makes of the call: ended as the reply says, marked INTERRUPTED with its event by a cancellation, or left open by an exception |
| `ReadExecutor.ReadToolExecutor.Conclude` | `src/mini_agent/application/read_tool_executor.py:534-640` | each reply ends call and attempt in its status, outcome and failure code; an Observation exists exactly for a found order with a canonical version |
| `ReadExecutor.ReadToolExecutor.FinalizeRunningAttempt` | `src/mini_agent/application/read_tool_executor.py:363-405` | call and attempt end together, at one time, exactly as given |
| `ReadExecutor.ReadToolExecutor.SaveObservation` | `src/mini_agent/application/read_tool_executor.py:600-640` | the Observation carries the resource and version of the reply and the finishing time of its call |
| `ReadExecutor.ReadToolExecutor.MarkInterrupted` | `src/mini_agent/application/read_tool_executor.py:642-665` | a cancellation after dispatch leaves the Run unfinished whatever becomes of the marking; when nothing fails the call and its attempt are stored INTERRUPTED at one time and the event is the last of the trace |
| `ReadExecutor.CanonicalExactly` | `src/mini_agent/application/read_tool_executor.py:203-207` | a source version is canonical if and only if it is the fixed prefix and 64 lower-case hexadecimal digits |
| `ReadExecutor.ReadToolExecutor.StartCall` | `src/mini_agent/application/read_tool_executor.py:505-520` | granted means that the store holds the RUNNING call with exactly one open attempt |
| `RuntimePort.RuntimeStore.Submit` | `src/mini_agent/application/ports.py:135-257` | one awaited write meets the records as any other client left them and is in effect exactly when it matches; a raised await has written everything or nothing |
| `RuntimePort.RuntimeStore.SendGetOrder` | `src/mini_agent/application/read_tool_executor.py:522-533` | get_order can be sent only for a call that was granted, and not again |
| `RunClient.RunClient.Move` | `src/mini_agent/application/ports.py:152-204` | the same for the writes that move Run, links, Task set or open calls: only an answer moves the cursor |
| `RunClient.RunClient.Submit` | `src/mini_agent/application/ports.py:152-204` | what a handler still knows of its Run after a write: all it wrote is there, or recovery has claimed the Run |
| `RunClient.RunClient.LoadCurrent` | `src/mini_agent/application/ports.py:268-285` | Task and unit are the stored ones of the untouched Run, or one of them is no longer ACTIVE because recovery has claimed it |
| `RunClient.RunClient.AppendTrace` | `src/mini_agent/application/agent_run_service.py:227-243` | the event is stored with a new identity and its own Run, at the given time when there is one |
| `RunClient.ClaimedRefuses` | `src/mini_agent/application/ports.py:152-238` | nothing that needs an active Run is applied once recovery has claimed it |
| `Behaviours.WriteKeepsInv` | `src/mini_agent/application/records.py:1292-1547` | records stay consistent under every write of every client that fits: Task, unit, history, link, calls, attempts, Observations and trace; the next row shows that no wider class of writes would do |
| `Behaviours.WriteKeepsInvExactly` | `src/mini_agent/infrastructure/persistence/postgres.py:3243-3304` | of the commands that pass their validators, the applied ones keep the invariant if and only if they fit; the store itself does not check that |
| `Behaviours.WritePreserves` | `src/mini_agent/infrastructure/persistence/postgres.py:2265-2303` | a validated write only adds, if and only if it is not a Task transition applied to a Run that has ended |
| `Behaviours.EndedTaskCanMove` | `src/mini_agent/infrastructure/persistence/postgres.py:3243-3304` | the failing input, for every ended Run with a Task: a validated transition that is applied, changes the Task the Run ended with and breaks the invariant |
| `Misfits.StaleCallBreaks` | `src/mini_agent/infrastructure/persistence/postgres.py:3337-3378` | a failing input for every RUNNING Run with a unit: the call validated against any version but the current one is inserted and breaks the invariant |
| `Misfits.ForeignBindingBreaks` | `src/mini_agent/infrastructure/persistence/postgres.py:3337-3378` | the same for the call with any binding that is not one of its unit |
| `Misfits.MoveUnderCallBreaks` | `src/mini_agent/infrastructure/persistence/postgres.py:3243-3304` | the same for every Run with an open call: a transition of that Task is applied under it |
| `Misfits.StrayStopBreaks` | `src/mini_agent/infrastructure/persistence/postgres.py:3505-3512` | the same for every Run whatsoever: a RunStopped with an unused identity is appended |
| `Behaviours.RefusedWritesNothing` | `src/mini_agent/application/ports.py:152-238` | a command that does not match the stored projections leaves everything as it was |
| `Reachable.ReachableInv` | `src/mini_agent/infrastructure/persistence/postgres.py:3337-3411` | every state of every interleaved history of handlers, executors, the fault seam and recovery keeps the record invariant and the dispatch fences |
| `Reachable.NothingUndone` | `src/mini_agent/infrastructure/persistence/postgres.py:2265-2303` | any later state of a history only extends terminal Runs, calls, Observations, messages, transitions, trace and sent queries |
| `Guarantees.TaskStoryAgrees` | `src/mini_agent/application/records.py:1913-1983` | in every reachable state a Task has one unit with its status and version, a contiguous history from ACTIVE of length version minus one, and a link whose result version exists exactly when the Run has ended and is then the Task version |
| `Guarantees.TerminalRunIsFinal` | `src/mini_agent/application/records.py:1302-1547` | a Run that ended never changes again, and neither do its Tasks, units, links and history |
| `Guarantees.StoppedEventMatchesRun` | `src/mini_agent/application/records.py:1302-1547` | exactly one RunStopped when COMPLETED or INCOMPLETE and none otherwise, at the time and with the reason of the Run; no call of an ended Run is active |
| `Guarantees.SentOnceAfterFence` | `src/mini_agent/application/read_tool_executor.py:492-533` | at the moment get_order is sent its call is durably past CREATED with attempt 1, and was never sent before |
| `Guarantees.NeverSentTwice` | `src/mini_agent/application/read_tool_executor.py:492-665` | over a whole history with crashes and restarts no call is sent twice |
| `Guarantees.EvidenceIsFinal` | `src/mini_agent/application/records.py:2061-2253` | a terminal call and a stored Observation never change, and an Observation always has a SUCCEEDED READ call of get_order |
| `CrashClosure.CrashLeavesClosure` | `src/mini_agent/application/records.py:2478-2612` | whatever the last write before a crash was, listing the records in any order gives a closure that passes its validator |
| `RestartRecovery.BuiltValidIff` | `src/mini_agent/application/records.py:2670-2854` | from any closure, of any number of Tasks and calls, the built command passes both recovery validators if and only if the clock is not behind the closure |
| `RestartRecovery.EarlyClockFails` | `src/mini_agent/application/records.py:2670-2854` | the failing input: for every CREATED Run and every clock before its start the command built is invalid, although its closure is valid |
| `RestartRecovery.BuiltEventCount` | `src/mini_agent/application/records.py:2670-2854` | one RunStopped and one event a transition; hence one to three events under the caps of one |
| `Startup.RestartRecoveryService.Interruptions` | `src/mini_agent/application/restart_recovery_service.py:140-155` | one interruption for every call of the closure, in order |
| `Startup.RestartRecoveryService.Blocks` | `src/mini_agent/application/restart_recovery_service.py:157-197` | one transition to BLOCKED for every Task that can still be blocked, with its own unit, and none for the others |
| `Startup.RestartRecoveryService.Links` | `src/mini_agent/application/restart_recovery_service.py:199-220` | every link ends with the version its Task has after recovery |
| `Startup.RestartRecoveryService.Events` | `src/mini_agent/application/restart_recovery_service.py:222-254` | RunStopped, then the Task events, then the call events, with distinct new identities |
| `Startup.RestartRecoveryService.RecoverPending` | `src/mini_agent/application/restart_recovery_service.py:117-273` | none left, one Run recovered, or nothing written; what it reports is what happened, and a quiet store is recovered unless an Action is RUNNING |
| `Startup.RecoveryStore.ClaimAndApply` | `src/mini_agent/application/ports.py:420-438` | one transaction: everything or nothing, a RUNNING Action is never closed, and a lost answer leaves one of the two |
| `Startup.RecoveryStore.LoadNextClosure` | `src/mini_agent/application/ports.py:404-418` | no closure only when no Run is active; otherwise one that lists all records of an active Run |
| `Startup.Start` | `src/mini_agent/bootstrap.py:609-632` | terminates, and ready means that no Run and no call is active; with a quiet store it is ready if and only if no Action was RUNNING |
| `Restarts.EveryCrashIsALegalStart` | `src/mini_agent/application/ports.py:404-438` | the records of every state of every history, crashed anywhere, are a store startup may begin with |
| `Restarts.SettledIsReachable` | `src/mini_agent/application/ports.py:420-438` | what startup leaves is again a state of that history: recovery is one more client |
| `Restarts.Restart` | `src/mini_agent/bootstrap.py:609-632` | startup after a crash at any point of any history: ready leaves nothing active, and the store continues the history |
| `RecoveredRecords.RecoveryMoves` | `src/mini_agent/application/restart_recovery_service.py:117-273` | everything an applied recovery changes and nothing else: one more transition for each Task that was not final, the open calls interrupted at that instant, the links ended, and the events for just that |
| `RecoveredEvidence.RecoveredRunCloses` | `src/mini_agent/application/records.py:4465-4621` | the records of a recovered Run close if and only if every call that had ended and every Observation has its events and the clock moved past every presentation of a Task that recovery blocks, provided the rest closed when the process stopped |
| `RecoveredEvidence.LostTraceStaysLost` | `src/mini_agent/application/records.py:4524-4600` | a call that ended without a trace keeps the evidence of its Run from ever closing |
| `CrashPoints.StoppedBeforeTaskCloses` | `src/mini_agent/application/agent_run_service.py:399-422` | a Run stopped before its Task was created closes once recovered, whenever that is |
| `HaltedTurns.HaltedTurnCloses` | `src/mini_agent/application/agent_run_service.py:515-700` | a turn stopped at work on its Task, gated or not, with the hook or without, its call not made, created or already sent, closes once recovered, whenever that is |
| `HaltedTurns.HaltedRests` | `src/mini_agent/application/records.py:3352-4621` | at all those points everything but the Run itself closes as it stands |
| `CrashPoints.StoppedBeforeToolTraceStaysOpen` | `src/mini_agent/application/agent_run_service.py:681-704` | the failing input: every turn stopped after get_order has returned and before the events of the call are written |
| `JsonGraph.IsNativeJsonValue` | `src/mini_agent/application/persistence.py:1519-1564` | terminates on every finite object graph, shared or cyclic, and answers true if and only if everything reachable is legal and no reachable node lies on a cycle |
| `Supersedes.Expand` | `src/mini_agent/application/records.py:3184-3205` | succeeds if and only if no reference reached dangles or comes back to itself, in whatever order the set is walked, and then returns exactly what is reached |
| `Supersedes.ReachedIsLeast` | `src/mini_agent/application/records.py:3184-3205` | what is reached is the least set that contains the references and is closed under supersedes |
| `DeltaChains.ReducerAccepts` | `src/mini_agent/core/request_processing.py:979-997` | the loop with the version map accepts exactly the candidates whose deltas form, Task by Task, a chain from nothing |
| `DeltaChains.CodecAccepts` | `src/mini_agent/application/persistence.py:2548-2573` | the same for the codec's loop and chains that may start from a stored version |
| `DeltaChains.EvidenceAccepts` | `src/mini_agent/application/records.py:3628-3661` | the same for the closure's loop and chains bounded by the current Task versions |
| `DeltaChains.CodecAcceptsReducer` | `src/mini_agent/application/persistence.py:2548-2573` | every chain the reducer accepts, the codec accepts |
| `DeltaChains.CodecAcceptsEvidence` | `src/mini_agent/application/persistence.py:2548-2573` | every chain the evidence closure accepts, the codec accepts |
| `DeltaChains.EvidenceBeyondCodec` | `src/mini_agent/application/records.py:3628-3661` | evidence accepts exactly the chains of the codec that count from one and stay within the current Task version |
| `DeltaChains.FirstResultLeftOpen` | `src/mini_agent/core/request_processing.py:979-997` | every first delta that does not lead to version one passes the reducer and the codec and never the evidence closure |
| `VersionInForce.AcceptedIsInForce` | `src/mini_agent/application/records.py:3872-3916` | looking at the matching transition and the next one decides whether a version was in force, for histories of any length |
| `VersionInForce.InForceIsUnique` | `src/mini_agent/application/records.py:3772-3827` | at most one version is in force at a time |
| `VersionInForce.SomeVersionInForce` | `src/mini_agent/application/records.py:3772-3827` | from the creation of the Task on there is one |
| `OrderId.NormalizesExactly` | `src/mini_agent/core/request_processing.py:89-97` | the normal form of a text is o if and only if the text is white space, then o with its first letter in either case, then white space; character by character |
| `SourceSpan.OnlyOccurrence` | `src/mini_agent/core/request_processing.py:699-752` | finds the place of a quote if and only if it occurs exactly once, overlapping occurrences counted |
| `SourceSpan.ExactSourceSpan` | `src/mini_agent/core/request_processing.py:699-752` | a span exists if and only if the quote is a non-empty proper part of the message, occurs once and contains the candidate |
| `SourceSpan.MentionedExactly` | `src/mini_agent/core/request_processing.py:109-117` | a text mentions an order id if and only if its characters stand there, the first in either case, with no letter or digit against them |
| `SourceSpan.CarriesExactly` | `src/mini_agent/core/request_processing.py:699-752` | a quote carries a candidate that spells an order id if and only if that order id stands in it, and any other candidate if and only if it holds it verbatim |
| `SourceSpan.SpanKeepsQuote` | `src/mini_agent/core/request_processing.py:755-822` | two quotes have one span only if they are the same: the record without quotes loses nothing |
| `SourceSpan.SpanIsUnique` | `src/mini_agent/core/request_processing.py:755-822` | a half-open span that slices the message to the quote is the stored one |
| `SourceSpan.MentionStands` | `src/mini_agent/core/request_processing.py:109-117` | an order id of the quote is one of the message if and only if the quote was not cut out of a longer word at that end |
| `SourceSpan.QuoteMayCut` | `src/mini_agent/core/request_processing.py:699-752` | the failing inputs: for every order id, the message with one digit more; the span is found although the message names another order |
| `ReduceRequest.Preflight` | `src/mini_agent/core/request_processing.py:1680-1717` | succeeds if and only if every source is visible and authoritative and every quote is found, and then yields the quote-free projection |
| `Reducer.ProjectionKeeps` | `src/mini_agent/core/request_processing.py:755-822` | that projection keeps every value, source, candidate and uncertainty, and each stored span cuts exactly the quote out of the message it was taken from |
| `ReduceRequest.Reduce` | `src/mini_agent/core/request_processing.py:1894-2063` | refuses for provenance exactly when provenance fails, for identities exactly when they are not distinct, and never for the closure; what it decides is valid |
| `ReduceRequest.OutcomeExactly` | `src/mini_agent/core/request_processing.py:2000-2063` | no Task if and only if no candidate is acceptable, routable if and only if the only candidate is, and each decision names its candidate and says whether and why it is refused |
| `ReduceRequest.RoutableGraphIsWritable` | `src/mini_agent/application/records.py:1745-1891` | the routable graph of a one-message conversation satisfies the initial-graph command |
| `Reducer.AcceptedExactly` | `src/mini_agent/core/request_processing.py:1791-1824` | a candidate is accepted if and only if nothing is uncertain and its value, but for white space around it, spells an order id |
| `Reducer.RejectedExactly` | `src/mini_agent/core/request_processing.py:1791-1824` | otherwise the reason is that of a missing reference, then of an ambiguous one, then that of the value |
| `ReducerTotal.DecisionValid` | `src/mini_agent/core/request_processing.py:915-998` | for any number of candidates the decision and its closure pass every validator |
| `Proposals.FreeExactly` | `src/mini_agent/core/common.py:246-262` | arguments are free of trusted fields if and only if no path through objects and lists leads to an object with such a key |
| `Proposals.TrustedExactly` | `src/mini_agent/core/common.py:246-262` | of ASCII keys exactly the trusted names are refused, in any mixture of cases |
| `Gateway.DecisionWellFormed` | `src/mini_agent/core/tool_system.py:326-373` | the gate builds a valid decision from every input, accepted exactly when there is no reason |
| `Gateway.FirstFailedCheck` | `src/mini_agent/core/control_gateway.py:234-267` | the reason is that of the first failed check in the order of priority |
| `Gateway.AcceptanceSuffices` | `src/mini_agent/core/control_gateway.py:108-135` | acceptance implies that the later lookup finds the READ registration of get_order and that the argument is the bound order id of an ACTIVE Task of this customer |
| `Gateway.ChecksExactly` | `src/mini_agent/core/control_gateway.py:157-232` | what each of the nine checks stands for in a built registry, both ways, in terms of registrations, arguments, records and manifest |
| `Gateway.AcceptsExactly` | `src/mini_agent/core/control_gateway.py:138-298` | the gate accepts if and only if the move asks the registered READ get_order for the bound order id, under the manifest of this very snapshot, with no call used, for the ACTIVE Task and unit of the customer at the revalidated version |
| `Gateway.OrdinaryMoveExactly` | `src/mini_agent/core/control_gateway.py:138-298` | the revalidation of a valid routable call, under its own manifest, is accepted if and only if it asks get_order for the bound order and the registry offers it |
| `Gateway.OrdinaryOrderIsAccepted` | `src/mini_agent/core/control_gateway.py:138-298` | so with any built registry that holds a READ get_order an ordinary order request is let through |
| `Gateway.LookupExactly` | `src/mini_agent/core/control_gateway.py:29-135` | the lookup succeeds if and only if the registration was valid and is that of get_order as the model saw it |
| `Gateway.StaleTaskIsRejected` | `src/mini_agent/core/control_gateway.py:213-229` | a Task that moved after revalidation is never let through |
| `Gateway.RevalidationExactly` | `src/mini_agent/core/request_processing.py:2375-2474` | of a valid routable decision exactly the tool calls revalidate |
| `Gateway.BuiltIsConsistent` | `src/mini_agent/core/tool_system.py:171-259` | every snapshot that is built passes its own consistency check |
| `Gateway.BuiltResolves` | `src/mini_agent/core/control_gateway.py:29-48` | in a built snapshot every registration is found under its provider name |
| `Gateway.BuildForgetsOrder` | `src/mini_agent/core/tool_system.py:171-224` | what the model sees, and its hash, do not depend on the order of registration |
| `Integrity.ArgumentIntegrity` | `src/mini_agent/core/control_gateway.py:171-243` | end to end: the order id get_order is asked for is spelled, first letter in either case, by the candidate's value and by the model's argument with nothing but white space around it, and character by character by a part of the user's message; the customer is the owner of the Task |
| `TraceGrader.ExpectedSafetyEventCounts` | `src/mini_agent/evaluation/graders.py:1901-1932` | the loop counts each kind, purpose by purpose, as often as the edges need it |
| `TraceGrader.PrecedencePasses` | `src/mini_agent/evaluation/graders.py:1983-1997` | the precedence check passes if and only if both ends of every edge are found in order |
| `TraceTheorem.GradedExactly` | `src/mini_agent/evaluation/graders.py:1935-1997` | the two checks accept a trace of any length if and only if its safety events are the one sequence of the variant, with understanding started in place |
| `TurnNames.TraceSays` | `src/mini_agent/application/agent_run_service.py:399-1262` | every event of a finished turn names records of its own Run and carries what they hold: message, delta, binding, Task and unit, manifest, move and gate, call, attempt, Observation, and the times of those |
| `TurnGrades.TurnGradedExactly` | `src/mini_agent/application/agent_run_service.py:399-865` | the trace of a finished turn followed by EvalCaseGraded passes for exactly the variants whose path the turn took |
| `Codec.NormalizeReferences` | `src/mini_agent/application/persistence.py:1188-1200` | the dictionary and the sort compute the normal form, and a repeated reference is refused or collapsed as asked |
| `Codec.EncodingForgetsOrder` | `src/mini_agent/application/persistence.py:1426-1469` | neither the order of children nor that of external references shows in an envelope |
| `Codec.RoundTrip` | `src/mini_agent/application/persistence.py:1781-1892` | decoding an encoding returns the record with its children in canonical order |
| `Codec.AcceptedIsCanonical` | `src/mini_agent/application/persistence.py:2872-2900` | an accepted request-understanding envelope equals the encoding of what it decodes to |
| `Codec.AcceptedUpToData` | `src/mini_agent/application/persistence.py:1863-1892` | what the other decoder accepts differs from the encoding of what it decodes to at most in how the data is written |
| `Codec.AcceptedExactly` | `src/mini_agent/application/persistence.py:1781-1892` | that decoder accepts exactly the envelopes the comparing decoder accepts once their data is written canonically |
| `Codec.OtherSpellingIsAccepted` | `src/mini_agent/application/persistence.py:1879-1886` | every other data that loads as the record is accepted in its place, by that decoder only |
| `CodecSpellings.SecondSpellingIsAccepted` | `src/mini_agent/application/persistence.py:1825-1892` | the failing input: every stored Observation with its timestamp written +00:00 instead of Z is accepted for the same record |
| `CodecRecords.AcceptExternalReferences` | `src/mini_agent/application/persistence.py:1253-1285` | the loop over the rules accepts what the specification accepts |
| `CodecRecords.ChildPayloads` | `src/mini_agent/application/persistence.py:1309-1357` | the loop over the sorted children keeps their order and loses no reference of any of them |
| `CodecRecords.BuildEnvelope` | `src/mini_agent/application/persistence.py:1426-1469` | the common path of the builders, in the order in which it refuses |
| `CodecRecords.EncodeTask` | `src/mini_agent/application/persistence.py:1360-1381` | the transitions of a Task must name it and lead to distinct versions; their order does not matter |
| `CodecRecords.EncodeToolCall` | `src/mini_agent/application/persistence.py:1383-1424` | a ToolCall needs its attempts numbered from one |
| `CodecRecords.EncodeUnderstanding` | `src/mini_agent/application/persistence.py:2467-2660` | a request-understanding record needs exactly one delta for every accepted candidate, in chains |
| `CodecRecords.DecodeUnderstanding` | `src/mini_agent/application/persistence.py:2778-2900` | the decoding loop loads the children and compares the whole envelope |
| `CodecRegistry.TaskEntryIsLawful` | `src/mini_agent/application/persistence.py:329-343` | the Task entry has disjoint relations and a child rule that forgets order, as the theorems above need |
| `CodecRegistry.CallEntryIsLawful` | `src/mini_agent/application/persistence.py:524-594` | the same of the ToolCall entry |
| `CodecRegistry.UnderstandingEntryIsLawful` | `src/mini_agent/application/persistence.py:1935-2070` | the same of the request-understanding entry |
| `CodecRegistry.ObservationEntryIsLawful` | `src/mini_agent/application/persistence.py:596-650` | the same of the Observation entry and its external references |
| `CodecRegistry.BindingEntryIsLawful` | `src/mini_agent/application/persistence.py:457-483` | the same of the InputBinding entry and its external reference |
| `CodecRegistry.ExternalExactly` | `src/mini_agent/application/persistence.py:1253-1285` | external references are accepted if and only if there are as many as rules and each rule is answered |
| `CodecRegistry.ObservationComesBack` | `src/mini_agent/application/persistence.py:596-650` | an Observation is stored if and only if its four sources are named, and comes back |
| `CodecRegistry.BindingComesBack` | `src/mini_agent/application/persistence.py:457-483` | an InputBinding is stored if and only if its sources do not repeat and its RequestUnit is named, and comes back |
| `CodecRegistry.StoredTaskComesBack` | `src/mini_agent/application/persistence.py:1360-1381` | a stored Task comes back with its transitions by version |
| `CodecRegistry.StoredCallComesBack` | `src/mini_agent/application/persistence.py:1383-1424` | a stored ToolCall comes back with its attempts by number |
| `CodecRegistry.StoredUnderstandingComesBack` | `src/mini_agent/application/persistence.py:2467-2660` | a stored request-understanding record comes back with its deltas in canonical order, through the comparing decoder |
| `CodecReferences.CallEnvelope` | `src/mini_agent/application/persistence.py:524-594` | a stored ToolCall names its Run, Task, RequestUnit, manifest, gate and argument bindings, each relation exactly by that field of the record, and nothing else; its identity, owner, data and attempts are its own |
| `CodecReferences.TaskEnvelope` | `src/mini_agent/application/persistence.py:329-343` | a stored Task is owned by its customer and names exactly the RequestUnits of its transitions |
| `CodecReferences.UnderstandingEnvelope` | `src/mini_agent/application/persistence.py:1935-2070` | a stored understanding names its Run, its message, exactly the messages its references, context and candidates were read from, and exactly the bindings and Tasks of its deltas |
| `CodecReferences.ObservationEnvelope` | `src/mini_agent/application/persistence.py:596-650` | a stored Observation names the version it supersedes and exactly the sources it was stored with |
| `CodecReferences.BindingEnvelope` | `src/mini_agent/application/persistence.py:457-483` | a stored InputBinding names exactly its source messages, the version it supersedes and the RequestUnit it was stored with |
| `CodecReferences.BuiltReferences` | `src/mini_agent/application/persistence.py:1188-1200` | any envelope refers to what the record, the caller and the children refer to, once each, by relation, target and identity |
| `CodecReferences.TaskIsStored` | `src/mini_agent/application/persistence.py:1360-1381` | a Task is stored if and only if it and its transitions are valid, the transitions are its own and lead to different versions |
| `CodecReferences.CallIsStored` | `src/mini_agent/application/persistence.py:1383-1424` | a ToolCall is stored if and only if it and its attempts are valid, the attempts are its own, one for each number up to the attempt count, and no binding is named twice |

## Left out

- Behaviours.WriteKeepsInv: assumes that an applied write fits (`Fitting` in `Protocol`: a Task moves only while its Run is active and none of its own calls is, a call fits its Task, RunStopped is written by finalization); the store does not check this, finding 3 says what happens otherwise, and histories are those of clients that keep to it.
- Reachable.ReachableInv: the clients of a history send fitting writes; the handlers, the fault seam and recovery are proved to be such clients, arbitrary ones are not.
- How a record is written as JSON text and read back is a pair of functions, inverse to each other on valid records; `CodecSpellings` gives one such pair for Observations, with timestamps as decimal microseconds.
- The registry entries of records other than Task, ToolCall, request understanding, Observation and InputBinding.
- The checks of the evaluation that compare single fields with the expectations of a case.
- The store is kept Run by Run. Every record belongs to one Run here; a Task shared by several Runs does not occur in this version of the program.
- Where the port's description and the adapter differ, the adapter counts: it refuses to end a Run while a ToolCall is active, also as FAILED (finding 8).
- RecoveredEvidence.RecoveredRunCloses: that the other families close at the moment of the crash is a condition of the theorem. It is proved of turns stopped before their Task was created and of turns stopped with their call not made or open (`CrashPoints.StoppedBeforeTaskCloses`, `HaltedTurns.HaltedTurnCloses`), not of the points between two events that are written together or after the call.
- The caps of one row a family in recovery, and the order in which active Runs are picked. The loops are proved for any number of rows and any order.
- Fields that are constant or always empty in this program: schema versions, quote hashes, provider call ids, usage and timing of trace events.
- Storage checks of the model classes, decision seals, copy and pickle hooks, exact-type rebuilds and the wording of errors.
- SQL, migrations, locking and connection failures of the adapters, HTTP, sessions, artifact files and the model client. A transaction is one step that happens or does not.
- The renderer's text. Its result is a reply of a partner, a text or a failure; the bound of 4000 characters is the case of a failure.
- Timeouts: that an order request times out is one of the replies, the number of milliseconds is not related to it.
- The awaits before a Run exists are pauses in which the Runs may change; the Conversation and Message writes become visible together with the Run.
- A tool specification is an opaque value with a name, and the toolset hash any function of the visible specifications.
- Regular expressions and string searches are modelled by what they mean. The span check of the evaluation, which unlike the reducer does not accept a lower-case prefix, is not part of this model.
- The write for a request that leads to no Task. The service never sends it; such a request ends in an error here as it does there.
- The second check of an observation's version text by the service repeats the executor's and is not modelled twice.
- On the Run of a handler, the interfering client is recovery and the handler's own lost writes; on all other Runs it is anyone.
