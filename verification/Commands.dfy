// The write commands of the record store.  `Valid` is the validator a command
// has to pass before a store ever sees it.

module Commands {
  import opened Records
  import opened Understanding
  import opened OrderId

  // ----- Run lifecycle -----

  datatype CreateRunCommand = CreateRunCommand(created: Run)
  {
    predicate Valid() {
      created.Valid() && created.status.RunCreated? && created.incompleteReason.None?
    }
  }

  datatype StartRunCommand = StartRunCommand(expected: Run, next: Run)
  {
    predicate Valid() {
      && expected.Valid() && next.Valid()
      && expected.status.RunCreated? && expected.incompleteReason.None?
      && next.status.RunRunning? && next.incompleteReason.None?
      && expected.SameIdentity(next)
    }
  }

  // ----- Task transitions -----

  datatype TaskTransitionCommand = TaskTransitionCommand(
    expectedTask: Task, nextTask: Task, expectedUnit: RequestUnit, nextUnit: RequestUnit,
    transition: Transition)
  {
    predicate Valid() {
      && expectedTask.Valid() && nextTask.Valid() && expectedUnit.Valid() && nextUnit.Valid()
      && transition.Valid()
      && StableTask() && StableUnit()
      && expectedUnit.taskId == expectedTask.taskId
      && transition.taskId == expectedTask.taskId
      && transition.unitId == expectedUnit.unitId
      && expectedTask.version == transition.base && expectedUnit.version == transition.base
      && nextTask.version == transition.result && nextUnit.version == transition.result
      && expectedTask.status == transition.from && expectedUnit.status == transition.from
      && nextTask.status == transition.to && nextUnit.status == transition.to
      && expectedTask.updatedAt <= nextTask.updatedAt && expectedUnit.updatedAt <= nextUnit.updatedAt
      && nextTask.updatedAt == transition.changedAt && nextUnit.updatedAt == transition.changedAt
    }

    predicate StableTask() {
      expectedTask.taskId == nextTask.taskId && expectedTask.owner == nextTask.owner
      && expectedTask.createdAt == nextTask.createdAt
    }

    predicate StableUnit() {
      expectedUnit.unitId == nextUnit.unitId && expectedUnit.taskId == nextUnit.taskId
      && expectedUnit.goalText == nextUnit.goalText
      && expectedUnit.goalSourceRefs == nextUnit.goalSourceRefs
      && expectedUnit.bindingRefs == nextUnit.bindingRefs
      && expectedUnit.createdAt == nextUnit.createdAt
    }
  }

  // ----- Terminal turn -----

  // The closed table of stop reason, Task presence, user outcome and Task status.
  predicate TerminalRow(reason: StopReason, hasTask: bool, outcome: AgentOutcome, status: Option<TaskStatus>) {
    match reason
    case GoalCompleted => hasTask && outcome.OutcomeCompleted? && status == Some(TaskCompleted)
    case OrderNotFound => hasTask && outcome.OutcomeNotFound? && status == Some(TaskCompleted)
    case ProviderProtocolError =>
      outcome.OutcomeBlocked? && if hasTask then status == Some(TaskBlocked) else status.None?
    case InputInvalid => !hasTask && outcome.OutcomeBlocked? && status.None?
    case ProcessRestartDetected => false
    case _ => hasTask && outcome.OutcomeBlocked? && status == Some(TaskBlocked)
  }

  function LinkTasks(links: seq<RunTaskLink>): set<Id> { set l | l in links :: l.taskId }

  predicate DistinctLinkTasks(links: seq<RunTaskLink>) {
    forall i, j :: 0 <= i < j < |links| ==> links[i].taskId != links[j].taskId
  }

  datatype FinalizeRunCommand = FinalizeRunCommand(
    expected: Run, terminal: Run,
    expectedLinks: seq<RunTaskLink>, terminalLinks: seq<RunTaskLink>, resultTasks: seq<Task>,
    transition: Option<TaskTransitionCommand>, result: Option<AgentRunResult>,
    message: Option<Message>, events: seq<TraceEvent>)
  {
    predicate Valid() {
      && RunsClose()
      && LinksClose()
      && TasksClose()
      && if terminal.status.RunFailed? then FailedIsBare() else CompletedIsWhole()
    }

    predicate RunsClose() {
      && expected.Valid() && terminal.Valid()
      && expected.status.RunRunning? && expected.incompleteReason.None?
      && (terminal.status.RunCompleted? || terminal.status.RunFailed?)
      && terminal.stopReason != Some(ProcessRestartDetected)
      && terminal.incompleteReason.None?
      && (terminal.status.RunCompleted? ==> terminal.conversationId.Some?)
      && (terminal.status.RunFailed? ==> terminal.stopReason.None?)
      && expected.SameIdentity(terminal)
    }

    predicate LinksClose() {
      && |expectedLinks| <= 1 && |terminalLinks| <= 1
      && (forall l :: l in expectedLinks ==> l.Valid() && l.runId == expected.runId && l.result.None?)
      && (forall l :: l in terminalLinks ==> l.Valid() && l.runId == expected.runId && l.result.Some?)
      && LinkTasks(expectedLinks) == LinkTasks(terminalLinks)
      && (forall e, t :: e in expectedLinks && t in terminalLinks && e.taskId == t.taskId ==> e.base == t.base)
    }

    predicate TasksClose() {
      && |resultTasks| <= 1
      && (forall t :: t in resultTasks ==> t.Valid())
      && (set t | t in resultTasks :: t.taskId) == LinkTasks(terminalLinks)
      && (forall l, t :: l in terminalLinks && t in resultTasks && l.taskId == t.taskId ==>
            l.result == Some(t.version))
    }

    predicate FailedIsBare() {
      transition.None? && result.None? && message.None? && events == []
    }

    predicate CompletedIsWhole() {
      && (|expectedLinks| == 1 <==> transition.Some?)
      && result.Some? && message.Some?
      && (transition.Some? ==> TransitionCloses(transition.value))
      && terminal.stopReason.Some?
      && TerminalRow(terminal.stopReason.value, transition.Some?, result.value.outcome,
                     if transition.Some? then Some(transition.value.nextTask.status) else None)
      && result.value.runId == terminal.runId
      && MessageCloses(message.value)
      && TraceCloses()
    }

    predicate TransitionCloses(t: TaskTransitionCommand)
      requires |expectedLinks| == 1
    {
      && t.Valid()
      && t.expectedTask.taskId == expectedLinks[0].taskId
      && (expectedLinks[0].base.Some? ==> expectedLinks[0].base.value <= t.expectedTask.version)
      && resultTasks == [t.nextTask]
      && terminal.completedAt.Some? && t.transition.changedAt <= terminal.completedAt.value
    }

    predicate MessageCloses(m: Message)
      requires result.Some?
    {
      && m.direction.FromAssistant?
      && Some(m.conversationId) == terminal.conversationId
      && m.content == result.value.message
      && Some(m.receivedAt) == terminal.completedAt
    }

    // The terminal trace is exactly [TaskStateChanged, RunStopped] or [RunStopped].
    predicate TraceCloses()
      requires result.Some? && terminal.stopReason.Some? && terminal.completedAt.Some?
    {
      && |events| == (if transition.Some? then 2 else 1)
      && StopCloses(events[|events| - 1])
      && (transition.Some? ==>
            events[0].eventId != events[1].eventId && ChangeCloses(events[0], transition.value))
    }

    predicate StopCloses(e: TraceEvent)
      requires result.Some? && terminal.stopReason.Some? && terminal.completedAt.Some?
    {
      e == RunStoppedEvent(e.eventId, terminal.completedAt.value, terminal.runId, result.value.outcome,
                           terminal.stopReason.value)
    }

    predicate ChangeCloses(e: TraceEvent, t: TaskTransitionCommand) {
      e == TaskChangedEvent(e.eventId, t.transition.changedAt, terminal.runId, t.nextTask.taskId,
                            t.nextUnit.unitId)
    }
  }

  // ----- Initial Task graph -----

  datatype CreateGraphCommand = CreateGraphCommand(
    owner: string, conversation: Conversation, messages: seq<Message>, run: Run,
    record: UnderstandingRecord, delta: AcceptedDelta, task: Task, unit: RequestUnit,
    binding: InputBinding, bindingUnit: Id, convLink: ConversationTaskLink, runLink: RunTaskLink)
  {
    predicate Valid() {
      && AcceptedChildCloses()
      && RootsClose()
      && BindingProjectsCandidate()
      && CleanTaskAndUnit()
      && LinksClose()
      && OneTimestamp()
    }

    predicate AcceptedChildCloses() {
      && record.Valid() && delta.Valid()
      && |record.candidates| == 1 && |record.decisions| == 1
      && record.decisions[0].candidateRef == record.candidates[0].candidateId
      && record.decisions[0].accepted
      && record.acceptedRefs == [delta.deltaId]
      && delta.candidateRef == record.candidates[0].candidateId
      && delta.messageRef == record.messageRef
      && delta.goalText == record.candidates[0].goalPatch
      && |delta.bindingRefs| == 1 && delta.base.None? && delta.result == 1
      && record.proposedBase.None? && record.validatedVersion == Some(1) && record.nextMoveRef.Some?
      && record.createdAt == delta.acceptedAt
    }

    predicate RootsClose() {
      && run.Valid() && run.status.RunRunning? && run.incompleteReason.None?
      && conversation.owner == owner
      && 1 <= |messages| <= 8
      && (forall i, j :: 0 <= i < j < |messages| ==> messages[i].messageId != messages[j].messageId)
      && (forall m :: m in messages ==> m.conversationId == conversation.conversationId)
      && (set m | m in messages :: m.messageId) == record.MessageRefs()
      && (exists m :: m in messages && CurrentMessage(m))
      && run.conversationId == Some(conversation.conversationId)
      && record.runId == run.runId
      && run.startedAt <= record.createdAt
    }

    predicate CurrentMessage(m: Message) {
      m.messageId == record.messageRef && m.direction.FromUser? && m.receivedAt <= record.createdAt
    }

    predicate BindingProjectsCandidate() {
      && |record.candidates| == 1 && |record.candidates[0].inputs| == 1
      && Normalize(record.candidates[0].inputs[0].value) == Some(binding.orderId)
      && binding.sourceRefs == [record.candidates[0].inputs[0].sourceRef]
    }

    predicate CleanTaskAndUnit() {
      && task.Valid() && unit.Valid()
      && task.owner == owner && task.status.TaskActive? && task.version == 1 && task.lastOutcomeRef.None?
      && unit.taskId == task.taskId && unit.goalText == delta.goalText
      && unit.goalSourceRefs == [record.messageRef] && unit.bindingRefs == [binding.bindingId]
      && unit.status.TaskActive? && unit.version == 1
      && unit.observationRefs == [] && unit.resultRefs == []
      && bindingUnit == unit.unitId && binding.supersedes.None?
      && delta.taskId == task.taskId && delta.bindingRefs == [binding.bindingId]
      && record.nextMoveRef.Some?
      && Distinct([record.recordId, record.nextMoveRef.value, delta.deltaId, task.taskId, unit.unitId,
                   binding.bindingId])
    }

    predicate LinksClose() {
      && convLink.conversationId == conversation.conversationId && convLink.taskId == task.taskId
      && convLink.endedAt.None?
      && runLink == RunTaskLink(run.runId, task.taskId, None, None)
    }

    predicate OneTimestamp() {
      record.createdAt == delta.acceptedAt == task.createdAt == task.updatedAt == unit.createdAt
      == unit.updatedAt == binding.createdAt == binding.updatedAt == convLink.linkedAt
    }
  }

  // ----- Tool calls and observations -----

  datatype CreateCallCommand = CreateCallCommand(created: ToolCall)
  {
    predicate Valid() { created.Valid() && created.status.CallCreated? && created.Clean() }
  }

  datatype DispatchCallCommand = DispatchCallCommand(expected: ToolCall, running: ToolCall, attempt: Attempt)
  {
    predicate Valid() {
      && expected.Valid() && running.Valid() && attempt.Valid()
      && expected.status.CallCreated? && expected.attemptCount == 0 && expected.Clean()
      && running.status.CallRunning? && running.attemptCount == 1 && attempt.attemptNo == 1
      && expected.SameIdentity(running)
      && running.callId == attempt.callId
      && attempt.Open()
      && running.failureCode.None? && running.resultRef.None?
    }
  }

  datatype FinalizeCallCommand = FinalizeCallCommand(
    expected: ToolCall, expectedAttempt: Attempt, terminal: ToolCall, attempt: Attempt)
  {
    predicate Valid() {
      && expected.Valid() && expectedAttempt.Valid() && terminal.Valid() && attempt.Valid()
      && expected.status.CallRunning? && expected.attemptCount == 1 && expected.Clean()
      && !terminal.status.Active() && terminal.attemptCount == 1 && attempt.attemptNo == 1
      && expectedAttempt.callId == expected.callId && expectedAttempt.attemptNo == 1 && expectedAttempt.Open()
      && expected.SameIdentity(terminal)
      && attempt.callId == expected.callId && attempt.startedAt == expectedAttempt.startedAt
      && attempt.finishedAt.Some? && attempt.outcome.Some?
      && OutcomeFits(terminal.status, attempt.outcome.value)
      && terminal.finishedAt == attempt.finishedAt
      && terminal.failureCode == attempt.failureCode
    }
  }

  datatype InterruptCallCommand = InterruptCallCommand(active: ToolCall, interrupted: ToolCall)
  {
    predicate Valid() {
      && active.Valid() && interrupted.Valid()
      && active.status.Active() && interrupted.status.CallInterrupted?
      && interrupted.interruption == Some(RESTART_DETECTED)
      && active.attemptCount <= 1 && active.failureCode.None? && active.resultRef.None?
      && active.SameIdentity(interrupted)
      && active.attemptCount == interrupted.attemptCount
      && active.failureCode == interrupted.failureCode
      && active.timeoutPhase == interrupted.timeoutPhase
      && active.resultRef == interrupted.resultRef
    }
  }

  datatype SaveObservationCommand = SaveObservationCommand(owner: string, observation: Observation, source: ToolCall)
  {
    predicate Valid() {
      && source.Valid() && source.status.CallSucceeded? && source.effect.Read?
      && source.tool == "get_order" && observation.sourceTool == "get_order"
    }
  }
}
