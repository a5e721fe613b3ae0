// The trace events of one turn and the complete record a finished turn leaves.

module Turns {
  import opened Records
  import opened Understanding
  import opened Commands
  import opened RunStore

  // ----- The events, one constructor per trace call of the service -----

  function MessageAcceptedEvent(id: Id, at: Time, runId: Id, messageId: Id): TraceEvent {
    PlainEvent(id, MessageAccepted, at, runId).(messageRef := Some(messageId))
  }

  function RunStartedEvent(id: Id, at: Time, runId: Id): TraceEvent { PlainEvent(id, RunStarted, at, runId) }

  function UnderstandingStartedEvent(id: Id, at: Time, runId: Id, messageId: Id, modelCallId: Id): TraceEvent {
    PlainEvent(id, RequestUnderstandingStarted, at, runId)
      .(messageRef := Some(messageId), modelCallId := Some(modelCallId), purpose := Some("REQUEST_UNDERSTANDING"))
  }

  function ManifestEvent(id: Id, at: Time, m: ContextManifest, purpose: string): TraceEvent {
    PlainEvent(id, ContextManifestRecorded, at, m.runId)
      .(modelCallId := Some(m.modelCallId), purpose := Some(purpose), manifestId := Some(m.manifestId),
        registryVersion := Some(m.registryVersion), toolsetHash := Some(m.toolsetHash))
  }

  function NextMoveEvent(id: Id, at: Time, r: UnderstandingRecord, m: ContextManifest, kind: string,
                         tool: Option<string>): TraceEvent
  {
    PlainEvent(id, NextMoveProposed, at, r.runId)
      .(messageRef := Some(r.messageRef), modelCallId := Some(m.modelCallId), manifestId := Some(m.manifestId),
        nextMoveKind := Some(kind), requestedTool := tool)
  }

  function DeltaValidatedEvent(id: Id, at: Time, r: UnderstandingRecord, d: AcceptedDelta): TraceEvent {
    PlainEvent(id, TaskDeltaValidated, at, r.runId)
      .(messageRef := Some(r.messageRef), acceptedDeltaRef := Some(d.deltaId))
  }

  function DeltaAcceptedEvent(id: Id, at: Time, r: UnderstandingRecord, d: AcceptedDelta, u: RequestUnit): TraceEvent {
    PlainEvent(id, TaskDeltaAccepted, at, r.runId)
      .(messageRef := Some(r.messageRef), acceptedDeltaRef := Some(d.deltaId), taskId := Some(u.taskId),
        unitId := Some(u.unitId))
  }

  function BindingEvent(id: Id, at: Time, runId: Id, u: RequestUnit, b: InputBinding): TraceEvent {
    PlainEvent(id, InputBindingRecorded, at, runId)
      .(taskId := Some(u.taskId), unitId := Some(u.unitId), inputBindingRef := Some(b.bindingId))
  }

  function UnitChangedEvent(id: Id, at: Time, runId: Id, u: RequestUnit): TraceEvent {
    TaskChangedEvent(id, at, runId, u.taskId, u.unitId)
  }

  function RevalidatedEvent(id: Id, at: Time, runId: Id, u: RequestUnit, modelCallId: Id, tool: string,
                            version: nat, bindings: seq<Id>): TraceEvent
  {
    PlainEvent(id, NextMoveRevalidated, at, runId)
      .(taskId := Some(u.taskId), unitId := Some(u.unitId), modelCallId := Some(modelCallId),
        requestedTool := Some(tool), validatedVersion := Some(version), bindingRefs := bindings)
  }

  function GateEvent(id: Id, at: Time, runId: Id, u: RequestUnit, d: GateDecision): TraceEvent {
    PlainEvent(id, GateDecisionRecorded, at, runId)
      .(taskId := Some(u.taskId), unitId := Some(u.unitId), modelCallId := Some(d.modelCallId),
        manifestId := Some(d.manifestId), requestedTool := Some(d.requestedTool),
        validatedVersion := d.validatedVersion, bindingRefs := d.bindingRefs, gateAccepted := Some(d.accepted),
        gateReason := d.reason)
  }

  function CallCreatedEvent(id: Id, c: ToolCall): TraceEvent {
    PlainEvent(id, ToolCallCreated, c.startedAt, c.runId)
      .(taskId := Some(c.taskId), unitId := Some(c.unitId), modelCallId := Some(c.modelCallId),
        manifestId := Some(c.manifestId), validatedVersion := Some(c.validatedVersion), bindingRefs := c.bindingRefs,
        callId := Some(c.callId), callStatus := Some(CallCreated))
  }

  function CallStartedEvent(id: Id, c: ToolCall, a: Attempt): TraceEvent {
    PlainEvent(id, ToolCallStarted, a.startedAt, c.runId)
      .(taskId := Some(c.taskId), unitId := Some(c.unitId), callId := Some(c.callId), callStatus := Some(CallRunning))
  }

  function EndKind(status: CallStatus): EventKind {
    match status
    case CallSucceeded => ToolCallSucceeded
    case CallFailed => ToolCallFailed
    case CallTimedOut => ToolCallTimedOut
    case _ => ToolCallInterrupted
  }

  function CallEndedEvent(id: Id, c: ToolCall): TraceEvent
    requires c.finishedAt.Some?
  {
    PlainEvent(id, EndKind(c.status), c.finishedAt.value, c.runId)
      .(taskId := Some(c.taskId), unitId := Some(c.unitId), callId := Some(c.callId), callStatus := Some(c.status))
  }

  function NormalizedEvent(id: Id, c: ToolCall, a: Attempt): TraceEvent
    requires c.finishedAt.Some?
  {
    PlainEvent(id, ToolResultNormalized, c.finishedAt.value, c.runId)
      .(taskId := Some(c.taskId), unitId := Some(c.unitId), callId := Some(c.callId), toolOutcome := a.outcome)
  }

  function ObservationEvent(id: Id, c: ToolCall, o: Observation): TraceEvent {
    PlainEvent(id, ObservationRecorded, o.recordedAt, c.runId)
      .(taskId := Some(c.taskId), unitId := Some(c.unitId), callId := Some(c.callId),
        observationRef := Some(o.observationId))
  }

  function PlanEvent(id: Id, at: Time, runId: Id, u: RequestUnit, m: ContextManifest, o: Id, planRef: Id): TraceEvent {
    PlainEvent(id, PresentationPlanProposed, at, runId)
      .(taskId := Some(u.taskId), unitId := Some(u.unitId), modelCallId := Some(m.modelCallId),
        manifestId := Some(m.manifestId), observationRef := Some(o), planRef := Some(planRef))
  }

  function RenderedEvent(id: Id, at: Time, runId: Id, u: Option<RequestUnit>, o: Option<Id>, planRef: Option<Id>): TraceEvent {
    PlainEvent(id, ResponseRendered, at, runId)
      .(taskId := if u.Some? then Some(u.value.taskId) else None,
        unitId := if u.Some? then Some(u.value.unitId) else None, observationRef := o, planRef := planRef)
  }

  // ----- A finished turn -----

  // One step of the Task with its RequestUnit.
  datatype Moved = Moved(task: Task, unit: RequestUnit, transition: Transition)

  // The Observation, the presentation manifest and the proposed plan, if it came to one.
  datatype Seen = Seen(
    observation: Observation, manifest: ContextManifest, observed: TraceEvent, assembled: TraceEvent,
    plan: Option<TraceEvent>)

  datatype Tool = Tool(
    call: ToolCall, attempt: Attempt, created: TraceEvent, started: TraceEvent, ended: TraceEvent,
    normalized: TraceEvent, seen: Option<Seen>)

  datatype Work = Work(
    record: UnderstandingRecord, delta: AcceptedDelta, binding: InputBinding, task: Task, unit: RequestUnit,
    convLink: ConversationTaskLink, link: RunTaskLink, decided: seq<TraceEvent>,
    hook: Option<(Moved, TraceEvent)>, gate: GateDecision, gateEvent: TraceEvent, tool: Option<Tool>,
    end: Moved, endEvent: TraceEvent)
  {
    // The Task and unit the final transition starts from.
    function Before(): (Task, RequestUnit) {
      if hook.Some? then (hook.value.0.task, hook.value.0.unit) else (task, unit)
    }

    function Transitions(): seq<Transition> {
      (if hook.Some? then [hook.value.0.transition] else []) + [end.transition]
    }

    function ToolTrace(): seq<TraceEvent> {
      match tool
      case None => []
      case Some(t) =>
        [t.created, t.started, t.ended, t.normalized]
        + (match t.seen
           case None => []
           case Some(s) => [s.observed, s.assembled] + if s.plan.Some? then [s.plan.value] else [])
    }

    function Trace(): seq<TraceEvent> {
      decided + (if hook.Some? then [hook.value.1] else []) + [gateEvent] + ToolTrace()
    }
  }

  datatype Turn = Turn(
    conversation: Conversation, user: Message, manifest: ContextManifest, opening: seq<TraceEvent>,
    work: Option<Work>, rendered: TraceEvent, terminal: Run, assistant: Message, stop: TraceEvent)
  {
    function Trace(): seq<TraceEvent> {
      match work
      case None => opening + [rendered] + [stop]
      case Some(w) => opening + w.Trace() + [rendered] + [w.endEvent, stop]
    }

    // Everything the store holds of the Run once the turn is over.
    function Graph(): RunGraph {
      var messages := map[user.messageId := user][assistant.messageId := assistant];
      match work
      case None =>
        RunGraph(conversation, terminal, messages, None, map[], map[], map[], map[], map[], map[], map[],
                 map[manifest.manifestId := manifest], map[], map[], map[], map[], map[], Trace())
      case Some(w) =>
        var t := w.task.taskId;
        RunGraph(
          conversation, terminal, messages, Some(w.record), map[w.delta.deltaId := w.delta],
          map[w.binding.bindingId := w.binding], map[t := w.end.task], map[w.unit.unitId := w.end.unit],
          map[t := w.Transitions()], map[t := w.convLink], map[t := w.link],
          Manifests(w), map[w.gate.gateId := w.gate],
          (if w.tool.Some? then map[w.tool.value.call.callId := w.tool.value.call] else map[]),
          (if w.tool.Some? then map[w.tool.value.call.callId := [w.tool.value.attempt]] else map[]),
          Observations(w), Sources(w), Trace())
    }

    function Manifests(w: Work): map<Id, ContextManifest> {
      if w.tool.Some? && w.tool.value.seen.Some?
      then map[manifest.manifestId := manifest][w.tool.value.seen.value.manifest.manifestId := w.tool.value.seen.value.manifest]
      else map[manifest.manifestId := manifest]
    }

    function Observations(w: Work): map<Id, Observation> {
      if w.tool.Some? && w.tool.value.seen.Some?
      then map[w.tool.value.seen.value.observation.observationId := w.tool.value.seen.value.observation]
      else map[]
    }

    function Sources(w: Work): map<Id, Id> {
      if w.tool.Some? && w.tool.value.seen.Some?
      then map[w.tool.value.seen.value.observation.observationId := w.tool.value.call.callId]
      else map[]
    }
  }

  // ----- What holds of every turn the service finishes -----

  function Running(t: Turn): Run {
    t.terminal.(status := RunRunning, completedAt := None, stopReason := None, incompleteReason := None)
  }

  function Creation(t: Turn, w: Work): CreateGraphCommand {
    CreateGraphCommand(t.conversation.owner, t.conversation, [t.user], Running(t), w.record, w.delta, w.task, w.unit,
                       w.binding, w.unit.unitId, w.convLink, RunTaskLink(t.terminal.runId, w.task.taskId, None, None))
  }

  predicate StepOk(task: Task, unit: RequestUnit, m: Moved) {
    TaskTransitionCommand(task, m.task, unit, m.unit, m.transition).Valid()
  }

  // The first four events of a Run and the manifest of the first model call.
  predicate OpenedWith(r: Id, user: Message, m: ContextManifest, es: seq<TraceEvent>) {
    && |es| == 4
    && es[0] == MessageAcceptedEvent(es[0].eventId, es[0].at, r, user.messageId)
    && es[1] == RunStartedEvent(es[1].eventId, es[1].at, r)
    && es[2] == UnderstandingStartedEvent(es[2].eventId, es[2].at, r, user.messageId, m.modelCallId)
    && es[3] == ManifestEvent(es[3].eventId, es[3].at, m, "REQUEST_UNDERSTANDING")
    && m.runId == r && m.messageRefs == [user.messageId] && m.taskRef.None? && m.observationRefs == []
  }

  predicate OpeningOk(t: Turn) { OpenedWith(t.terminal.runId, t.user, t.manifest, t.opening) }

  // The six events that follow the creation of the Task graph.
  predicate DecidedWith(r: Id, m: ContextManifest, record: UnderstandingRecord, delta: AcceptedDelta, binding: InputBinding,
                        unit: RequestUnit, tool: string, es: seq<TraceEvent>)
  {
    && |es| == 6
    && es[0] == NextMoveEvent(es[0].eventId, es[0].at, record, m, "CALL_TOOL", Some(tool))
    && es[1] == DeltaValidatedEvent(es[1].eventId, es[1].at, record, delta)
    && es[2] == DeltaAcceptedEvent(es[2].eventId, es[2].at, record, delta, unit)
    && es[3] == BindingEvent(es[3].eventId, es[3].at, r, unit, binding)
    && es[4] == UnitChangedEvent(es[4].eventId, es[4].at, r, unit)
    && es[5] == RevalidatedEvent(es[5].eventId, es[5].at, r, unit, m.modelCallId, tool, 1, [binding.bindingId])
  }

  predicate DecidedOk(t: Turn, w: Work) {
    DecidedWith(t.terminal.runId, t.manifest, w.record, w.delta, w.binding, w.unit, w.gate.requestedTool, w.decided)
  }

  predicate GatedWith(r: Id, m: ContextManifest, binding: InputBinding, unit: RequestUnit, gate: GateDecision, e: TraceEvent) {
    && gate.Valid() && gate.manifestId == m.manifestId && gate.modelCallId == m.modelCallId
    && gate.bindingRefs == [binding.bindingId] && gate.validatedVersion == Some(1)
    && e == GateEvent(e.eventId, e.at, r, unit, gate)
  }

  predicate GateOk(t: Turn, w: Work) {
    && GatedWith(t.terminal.runId, t.manifest, w.binding, w.unit, w.gate, w.gateEvent)
    && (w.hook.Some? ==> !w.gate.accepted)
    && (w.tool.Some? ==> w.gate.accepted)
  }

  predicate HookOk(r: Id, task: Task, unit: RequestUnit, m: Moved, e: TraceEvent) {
    && StepOk(task, unit, m) && m.unit.observationRefs == []
    && e == UnitChangedEvent(e.eventId, m.transition.changedAt, r, unit)
  }

  predicate MovesOk(t: Turn, w: Work) {
    var r := t.terminal.runId;
    && (w.hook.Some? ==> HookOk(r, w.task, w.unit, w.hook.value.0, w.hook.value.1))
    && StepOk(w.Before().0, w.Before().1, w.end)
    && w.end.unit.observationRefs == (if w.tool.Some? && w.tool.value.seen.Some?
                                      then [w.tool.value.seen.value.observation.observationId] else [])
    && w.endEvent == UnitChangedEvent(w.endEvent.eventId, w.end.transition.changedAt, r, w.unit)
    && w.link == RunTaskLink(r, w.task.taskId, None, Some(w.end.task.version))
  }

  // The terminal call, its one attempt and their four events.
  predicate CalledWith(r: Id, m: ContextManifest, task: Task, unit: RequestUnit, gate: GateDecision, binding: InputBinding,
                       x: Tool)
  {
    var c, a := x.call, x.attempt;
    && c.Valid() && a.Valid() && !c.status.Active() && !c.status.CallInterrupted?
    && c.runId == r && c.taskId == task.taskId && c.unitId == unit.unitId
    && c.modelCallId == m.modelCallId && c.manifestId == m.manifestId && c.gateId == gate.gateId
    && c.tool == "get_order" && gate.resolvedTool == Some(c.tool) && c.effect.Read?
    && c.registryVersion == m.registryVersion && c.validatedVersion == 1
    && c.bindingRefs == [binding.bindingId] && c.attemptCount == 1
    && a.callId == c.callId && a.attemptNo == 1 && a.finishedAt.Some? && a.outcome.Some?
    && OutcomeFits(c.status, a.outcome.value) && c.finishedAt == a.finishedAt && c.failureCode == a.failureCode
    && c.startedAt <= a.startedAt
    && x.created == CallCreatedEvent(x.created.eventId, c)
    && x.started == CallStartedEvent(x.started.eventId, c, a)
    && x.ended == CallEndedEvent(x.ended.eventId, c)
    && x.normalized == NormalizedEvent(x.normalized.eventId, c, a)
  }

  predicate ToolOk(t: Turn, w: Work, x: Tool) {
    && CalledWith(t.terminal.runId, t.manifest, w.task, w.unit, w.gate, w.binding, x)
    && (x.seen.Some? ==> SeenOk(t, w, x, x.seen.value))
  }

  // The Observation put before the model, and the plan that came back, if any.
  predicate SeenWith(r: Id, user: Message, first: ContextManifest, task: Task, unit: RequestUnit, x: Tool, s: Seen) {
    var o, m := s.observation, s.manifest;
    && x.call.status.CallSucceeded? && o.sourceTool == "get_order" && o.supersedes.None?
    && x.call.finishedAt == Some(o.recordedAt)
    && s.observed == ObservationEvent(s.observed.eventId, x.call, o)
    && m.manifestId != first.manifestId && m.runId == r && m.messageRefs == [user.messageId]
    && m.taskRef == Some((task.taskId, 1)) && m.observationRefs == [(o.observationId, o.sourceVersion)]
    && m.registryVersion == first.registryVersion && m.toolsetHash == first.toolsetHash
    && task.createdAt <= m.assembledAt
    && s.assembled == ManifestEvent(s.assembled.eventId, s.assembled.at, m, "PRESENTATION")
    && (s.plan.Some? ==>
          s.plan.value.planRef.Some?
          && s.plan.value == PlanEvent(s.plan.value.eventId, s.plan.value.at, r, unit, m, o.observationId,
                                       s.plan.value.planRef.value))
  }

  predicate SeenOk(t: Turn, w: Work, x: Tool, s: Seen) {
    SeenWith(t.terminal.runId, t.user, t.manifest, w.task, w.unit, x, s)
  }

  predicate WorkOk(t: Turn, w: Work) {
    && Creation(t, w).Valid()
    && DecidedOk(t, w) && GateOk(t, w) && MovesOk(t, w)
    && (w.tool.Some? ==> ToolOk(t, w, w.tool.value))
  }

  predicate EndOk(t: Turn) {
    var r := t.terminal;
    && r.Valid() && r.status.RunCompleted? && r.conversationId == Some(t.conversation.conversationId)
    && t.user.conversationId == t.conversation.conversationId && t.user.direction.FromUser?
    && t.assistant.direction.FromAssistant? && t.assistant.messageId != t.user.messageId
    && t.assistant.conversationId == t.conversation.conversationId && Some(t.assistant.receivedAt) == r.completedAt
    && t.rendered == RenderedEvent(t.rendered.eventId, t.rendered.at, r.runId,
                                   if t.work.Some? then Some(t.work.value.unit) else None, t.rendered.observationRef,
                                   t.rendered.planRef)
    && (t.rendered.observationRef.Some? ==>
          && t.work.Some? && t.work.value.tool.Some? && t.work.value.tool.value.seen.Some?
          && t.rendered.observationRef == Some(t.work.value.tool.value.seen.value.observation.observationId))
    && t.stop.outcome.Some?
    && t.stop == RunStoppedEvent(t.stop.eventId, r.completedAt.value, r.runId, t.stop.outcome.value, r.stopReason.value)
    && TerminalRow(r.stopReason.value, t.work.Some?, t.stop.outcome.value,
                   if t.work.Some? then Some(t.work.value.end.task.status) else None)
  }

  predicate TurnOk(t: Turn) {
    && OpeningOk(t) && EndOk(t)
    && (t.work.Some? ==> WorkOk(t, t.work.value))
    && forall i, j :: 0 <= i < j < |t.Trace()| ==> t.Trace()[i].eventId != t.Trace()[j].eventId
  }

  // The one thing a weakly increasing clock does not give: the Task moved on
  // strictly after its version was put into the presentation context.
  predicate MovedAfterPresentation(t: Turn) {
    t.work.Some? && t.work.value.tool.Some? && t.work.value.tool.value.seen.Some? ==>
      t.work.value.tool.value.seen.value.manifest.assembledAt < t.work.value.end.transition.changedAt
  }
}
