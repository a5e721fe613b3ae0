// The durable records of one agent run and the lifecycle rules each of them
// keeps on its own.  Identifiers are naturals and timestamps are integers.

module Records {
  type Id = nat
  type Time = int

  datatype Option<+T> = None | Some(value: T)

  predicate Distinct<T(==)>(s: seq<T>) {
    forall i, j :: 0 <= i < j < |s| ==> s[i] != s[j]
  }

  const RESTART_DETECTED := "PROCESS_RESTART_DETECTED"

  // ----- Conversations, messages and runs -----

  datatype Conversation = Conversation(conversationId: Id, owner: string)

  datatype MessageDirection = FromUser | FromAssistant

  datatype Message = Message(
    messageId: Id, conversationId: Id, direction: MessageDirection, content: string, receivedAt: Time)

  datatype RunStatus = RunCreated | RunRunning | RunCompleted | RunFailed | RunIncomplete

  datatype StopReason =
    | GoalCompleted
    | OrderNotFound
    | InputInvalid
    | GateRejected
    | ProviderProtocolError
    | OrderServiceUnavailable
    | PresentationPlanRejected
    | RendererInvariantFailed
    | ProcessRestartDetected

  datatype AgentOutcome =
    | OutcomeCompleted | OutcomeAskUser | OutcomeBlocked | OutcomeNeedHuman | OutcomeNotFound

  datatype AgentRunResult = AgentRunResult(runId: Id, outcome: AgentOutcome, message: string)

  datatype Run = Run(
    runId: Id,
    conversationId: Option<Id>,
    status: RunStatus,
    lane: string,
    startedAt: Time,
    completedAt: Option<Time>,
    stopReason: Option<StopReason>,
    incompleteReason: Option<string>)
  {
    predicate Active() { status.RunCreated? || status.RunRunning? }

    predicate Valid() {
      && (Active() ==> completedAt.None? && stopReason.None?)
      && (!Active() ==> completedAt.Some? && startedAt <= completedAt.value)
      && (status.RunCompleted? ==> stopReason.Some?)
      && (status.RunIncomplete? ==> stopReason == Some(ProcessRestartDetected))
    }

    predicate SameIdentity(that: Run) {
      runId == that.runId && conversationId == that.conversationId && lane == that.lane
      && startedAt == that.startedAt
    }
  }

  // ----- Tasks, request units and their links -----

  datatype TaskStatus =
    | TaskActive | TaskWaitingUser | TaskPendingAction | TaskActionInProgress | TaskRecovering
    | TaskCompleted | TaskBlocked | TaskCancelled
  {
    predicate Recoverable() {
      TaskActive? || TaskWaitingUser? || TaskPendingAction? || TaskActionInProgress? || TaskRecovering?
    }
  }

  datatype Task = Task(
    taskId: Id, owner: string, status: TaskStatus, version: nat,
    createdAt: Time, updatedAt: Time, lastOutcomeRef: Option<Id>)
  {
    predicate Valid() { 1 <= version && createdAt <= updatedAt }
  }

  datatype RequestUnit = RequestUnit(
    unitId: Id, taskId: Id, goalText: string, goalSourceRefs: seq<Id>, bindingRefs: seq<Id>,
    observationRefs: seq<Id>, resultRefs: seq<Id>, status: TaskStatus, version: nat,
    createdAt: Time, updatedAt: Time)
  {
    predicate Valid() {
      1 <= version && createdAt <= updatedAt && goalText != "" && goalSourceRefs != [] && bindingRefs != []
    }
  }

  datatype Transition = Transition(
    taskId: Id, unitId: Id, from: TaskStatus, to: TaskStatus, base: nat, result: nat,
    reasonRef: Id, changedAt: Time)
  {
    predicate Valid() { 1 <= base && result == base + 1 && from != to }
  }

  datatype ConversationTaskLink = ConversationTaskLink(
    conversationId: Id, taskId: Id, linkedAt: Time, endedAt: Option<Time>)

  datatype RunTaskLink = RunTaskLink(runId: Id, taskId: Id, base: Option<nat>, result: Option<nat>)
  {
    predicate Valid() {
      && (base.Some? ==> 1 <= base.value)
      && (result.Some? ==> 1 <= result.value)
      && (base.Some? && result.Some? ==> base.value <= result.value)
    }
  }

  datatype InputBinding = InputBinding(
    bindingId: Id, orderId: string, sourceRefs: seq<Id>, createdAt: Time, updatedAt: Time,
    supersedes: Option<Id>)

  // ----- Tool calls -----

  datatype ToolEffect = Read | Retrieval | Action

  datatype CallStatus =
    | CallCreated | CallRunning | CallSucceeded | CallFailed | CallTimedOut | CallInterrupted
  {
    predicate Active() { CallCreated? || CallRunning? }
  }

  datatype ToolOutcome =
    | Success | BusinessFailure | SystemFailure | Timeout | Interrupted | ResultUnknown

  datatype TimeoutPhase = BeforeDispatch | AfterDispatch | UnknownPhase

  datatype ToolCall = ToolCall(
    callId: Id, runId: Id, taskId: Id, unitId: Id, modelCallId: Id, manifestId: Id, gateId: Id,
    tool: string, registryVersion: string, validatedVersion: nat, bindingRefs: seq<Id>, effect: ToolEffect,
    attemptCount: nat, status: CallStatus, startedAt: Time, finishedAt: Option<Time>,
    failureCode: Option<string>, timeoutPhase: Option<TimeoutPhase>, interruption: Option<string>,
    resultRef: Option<Id>)
  {
    predicate Valid() {
      && 1 <= validatedVersion
      && bindingRefs != []
      && (status.CallCreated? ==> attemptCount == 0)
      && (status.CallRunning? || status.CallSucceeded? || status.CallFailed? || status.CallTimedOut?
          ==> 1 <= attemptCount)
      && (status.Active() <==> finishedAt.None?)
      && (finishedAt.Some? ==> startedAt <= finishedAt.value)
      && (status.CallSucceeded? ==> failureCode.None?)
      && (status.CallTimedOut? <==> timeoutPhase.Some?)
      && (status.CallInterrupted? <==> interruption.Some?)
    }

    // The fields no write may change after insertion.
    predicate SameIdentity(that: ToolCall) {
      callId == that.callId && runId == that.runId && taskId == that.taskId && unitId == that.unitId
      && modelCallId == that.modelCallId && manifestId == that.manifestId && gateId == that.gateId
      && tool == that.tool && registryVersion == that.registryVersion
      && validatedVersion == that.validatedVersion && bindingRefs == that.bindingRefs
      && effect == that.effect && startedAt == that.startedAt
    }

    predicate Clean() {
      finishedAt.None? && failureCode.None? && timeoutPhase.None? && interruption.None? && resultRef.None?
    }
  }

  datatype Attempt = Attempt(
    callId: Id, attemptNo: nat, startedAt: Time, finishedAt: Option<Time>,
    outcome: Option<ToolOutcome>, failureCode: Option<string>)
  {
    predicate Open() { finishedAt.None? && outcome.None? && failureCode.None? }

    predicate Valid() {
      && 1 <= attemptNo
      && (finishedAt.None? ==> Open())
      && (finishedAt.Some? ==> outcome.Some? && startedAt <= finishedAt.value)
      && (outcome == Some(Success) ==> failureCode.None?)
    }
  }

  // Which attempt outcomes a terminal call status admits.
  predicate OutcomeFits(status: CallStatus, outcome: ToolOutcome) {
    match status
    case CallSucceeded => outcome.Success?
    case CallFailed => outcome.BusinessFailure? || outcome.SystemFailure?
    case CallTimedOut => outcome.Timeout?
    case CallInterrupted => outcome.Interrupted?
    case _ => false
  }

  datatype Observation = Observation(
    observationId: Id, sourceTool: string, resource: string, sourceVersion: string,
    recordedAt: Time, supersedes: Option<Id>)

  // ----- Model context, gate and trace records -----

  datatype ContextManifest = ContextManifest(
    manifestId: Id, runId: Id, modelCallId: Id, registryVersion: string, toolsetHash: string,
    messageRefs: seq<Id>, taskRef: Option<(Id, nat)>, observationRefs: seq<(Id, string)>, assembledAt: Time)

  datatype GateReason =
    | ActionRequiresProposal | ArgumentBindingMismatch | BudgetExceeded | NoProgress | SchemaInvalid
    | SnapshotMismatch | StateVersionMismatch | ToolNotRegistered | TrustedFieldInjection

  datatype GateChecks = GateChecks(
    snapshotMatch: bool, registrationValid: bool, schemaValid: bool, trustedFieldValid: bool,
    argumentBindingValid: bool, budgetValid: bool, progressValid: bool, stateVersionValid: bool,
    actionBoundaryValid: bool)
  {
    predicate All() {
      snapshotMatch && registrationValid && schemaValid && trustedFieldValid && argumentBindingValid
      && budgetValid && progressValid && stateVersionValid && actionBoundaryValid
    }

    // The value of the check a rejection reason names.
    predicate Named(reason: GateReason) {
      match reason
      case ActionRequiresProposal => actionBoundaryValid
      case ArgumentBindingMismatch => argumentBindingValid
      case BudgetExceeded => budgetValid
      case NoProgress => progressValid
      case SchemaInvalid => schemaValid
      case SnapshotMismatch => snapshotMatch
      case StateVersionMismatch => stateVersionValid
      case ToolNotRegistered => registrationValid
      case TrustedFieldInjection => trustedFieldValid
    }
  }

  datatype GateDecision = GateDecision(
    gateId: Id, modelCallId: Id, manifestId: Id, requestedTool: string, resolvedTool: Option<string>,
    checks: GateChecks, bindingRefs: seq<Id>, proposedBase: Option<nat>, validatedVersion: Option<nat>,
    accepted: bool, reason: Option<GateReason>, decidedAt: Time)
  {
    predicate Valid() {
      && (accepted ==>
            checks.All() && resolvedTool.Some? && validatedVersion.Some? && bindingRefs != [] && reason.None?)
      && (!accepted ==>
            reason.Some? && !checks.All() && !checks.Named(reason.value)
            && (reason.value.ArgumentBindingMismatch? ==> bindingRefs != []))
    }
  }

  datatype EventKind =
    | MessageAccepted | RunStarted | RequestUnderstandingStarted | ContextManifestRecorded
    | NextMoveProposed | TaskDeltaValidated | TaskDeltaAccepted | InputBindingRecorded
    | TaskStateChanged | NextMoveRevalidated | GateDecisionRecorded
    | ToolCallCreated | ToolCallStarted | ToolCallSucceeded | ToolCallFailed | ToolCallTimedOut
    | ToolCallInterrupted | ToolResultNormalized | ObservationRecorded | PresentationPlanProposed
    | ResponseRendered | RunStopped | EvalCaseGraded

  datatype TraceEvent = TraceEvent(
    eventId: Id, kind: EventKind, at: Time, runId: Id, caseId: Option<string>,
    messageRef: Option<Id>, acceptedDeltaRef: Option<Id>, taskId: Option<Id>, unitId: Option<Id>,
    inputBindingRef: Option<Id>, modelCallId: Option<Id>, purpose: Option<string>, manifestId: Option<Id>,
    registryVersion: Option<string>, toolsetHash: Option<string>, nextMoveKind: Option<string>,
    requestedTool: Option<string>, proposedBase: Option<nat>, validatedVersion: Option<nat>,
    bindingRefs: seq<Id>, gateAccepted: Option<bool>, gateReason: Option<GateReason>,
    callId: Option<Id>, callStatus: Option<CallStatus>, toolOutcome: Option<ToolOutcome>,
    observationRef: Option<Id>, planRef: Option<Id>, outcome: Option<AgentOutcome>,
    stopReason: Option<StopReason>)
  {
    predicate Valid() {
      && (kind.RunStopped? ==> outcome.Some? && stopReason.Some?)
      && (CallStatusOf(kind).Some? ==> callId.Some?)
      && callStatus == CallStatusOf(kind)
    }
  }

  // The call status a lifecycle event reports; other kinds report none.
  function CallStatusOf(kind: EventKind): Option<CallStatus> {
    match kind
    case ToolCallCreated => Some(CallCreated)
    case ToolCallStarted => Some(CallRunning)
    case ToolCallSucceeded => Some(CallSucceeded)
    case ToolCallFailed => Some(CallFailed)
    case ToolCallTimedOut => Some(CallTimedOut)
    case ToolCallInterrupted => Some(CallInterrupted)
    case _ => None
  }

  // An event that carries nothing beyond the four fields every event has.
  function PlainEvent(eventId: Id, kind: EventKind, at: Time, runId: Id): TraceEvent {
    TraceEvent(eventId, kind, at, runId, None, None, None, None, None, None, None, None, None, None, None,
               None, None, None, None, [], None, None, None, None, None, None, None, None, None)
  }

  function RunStoppedEvent(
    eventId: Id, at: Time, runId: Id, outcome: AgentOutcome, reason: StopReason): (e: TraceEvent)
    ensures e.eventId == eventId && e.at == at && e.runId == runId && e.kind == RunStopped
  {
    PlainEvent(eventId, RunStopped, at, runId).(outcome := Some(outcome), stopReason := Some(reason))
  }

  function TaskChangedEvent(eventId: Id, at: Time, runId: Id, taskId: Id, unitId: Id): (e: TraceEvent)
    ensures e.eventId == eventId && e.at == at && e.runId == runId && e.kind == TaskStateChanged
  {
    PlainEvent(eventId, TaskStateChanged, at, runId).(taskId := Some(taskId), unitId := Some(unitId))
  }

  // The projection restart recovery uses; it names neither Task nor RequestUnit.
  function RecoveryInterruptedEvent(eventId: Id, at: Time, runId: Id, callId: Id): (e: TraceEvent)
    ensures e.eventId == eventId && e.at == at && e.runId == runId && e.kind == ToolCallInterrupted
  {
    PlainEvent(eventId, ToolCallInterrupted, at, runId)
      .(callId := Some(callId), callStatus := Some(CallInterrupted))
  }
}
