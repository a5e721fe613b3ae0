// What the trace of a finished turn says: every event names records of the turn's own
// Run, and carries what those records hold.

module TurnNames {
  import opened Records
  import opened Commands
  import opened RunStore
  import opened Turns
  import opened TurnEvents

  ghost predicate NamesMessage(g: RunGraph, e: TraceEvent) {
    && e.messageRef.Some? && e.messageRef.value in g.messages && g.messages[e.messageRef.value].direction.FromUser?
  }

  ghost predicate NamesUnit(g: RunGraph, e: TraceEvent) {
    && e.unitId.Some? && e.unitId.value in g.units && e.taskId == Some(g.units[e.unitId.value].taskId)
    && e.taskId.value in g.tasks
  }

  ghost predicate NamesManifest(g: RunGraph, e: TraceEvent) {
    && e.manifestId.Some? && e.manifestId.value in g.manifests && e.modelCallId == Some(g.manifests[e.manifestId.value].modelCallId)
  }

  ghost predicate NamesDelta(g: RunGraph, e: TraceEvent) {
    && e.acceptedDeltaRef.Some? && e.acceptedDeltaRef.value in g.deltas
    && e.messageRef == Some(g.deltas[e.acceptedDeltaRef.value].messageRef)
  }

  ghost predicate NamesCall(g: RunGraph, e: TraceEvent) {
    && e.callId.Some? && e.callId.value in g.calls
    && e.taskId == Some(g.calls[e.callId.value].taskId) && e.unitId == Some(g.calls[e.callId.value].unitId)
    && e.callId.value in g.attempts && |g.attempts[e.callId.value]| == 1
  }

  // The move that was proposed, revalidated and judged is one.
  ghost predicate NamesMove(g: RunGraph, e: TraceEvent) {
    forall k :: k in g.gates ==> e.requestedTool == Some(g.gates[k].requestedTool) && e.modelCallId == Some(g.gates[k].modelCallId)
  }

  ghost predicate Says(g: RunGraph, e: TraceEvent) {
    && e.runId == g.run.runId
    && match e.kind
       case MessageAccepted => NamesMessage(g, e)
       case RunStarted => true
       case RequestUnderstandingStarted =>
         && NamesMessage(g, e) && e.purpose == Some("REQUEST_UNDERSTANDING")
         && exists k :: k in g.manifests && g.manifests[k].taskRef.None? && e.modelCallId == Some(g.manifests[k].modelCallId)
       case ContextManifestRecorded =>
         && NamesManifest(g, e)
         && var m := g.manifests[e.manifestId.value];
            && e.registryVersion == Some(m.registryVersion) && e.toolsetHash == Some(m.toolsetHash)
            && e.purpose == Some(if m.taskRef.None? then "REQUEST_UNDERSTANDING" else "PRESENTATION")
       case NextMoveProposed =>
         NamesMessage(g, e) && NamesManifest(g, e) && NamesMove(g, e) && e.nextMoveKind == Some("CALL_TOOL")
       case TaskDeltaValidated => NamesDelta(g, e)
       case TaskDeltaAccepted =>
         NamesDelta(g, e) && NamesUnit(g, e) && e.taskId == Some(g.deltas[e.acceptedDeltaRef.value].taskId)
       case InputBindingRecorded => NamesUnit(g, e) && e.inputBindingRef.Some? && e.inputBindingRef.value in g.bindings
       case TaskStateChanged => NamesUnit(g, e)
       case NextMoveRevalidated =>
         && NamesUnit(g, e) && NamesMove(g, e)
         && forall k :: k in g.gates ==> e.validatedVersion == g.gates[k].validatedVersion && e.bindingRefs == g.gates[k].bindingRefs
       case GateDecisionRecorded =>
         && NamesUnit(g, e) && NamesManifest(g, e) && NamesMove(g, e)
         && forall k :: k in g.gates ==>
              && e.gateAccepted == Some(g.gates[k].accepted) && e.gateReason == g.gates[k].reason
              && e.validatedVersion == g.gates[k].validatedVersion && e.bindingRefs == g.gates[k].bindingRefs
              && e.manifestId == Some(g.gates[k].manifestId)
       case ToolCallCreated =>
         && NamesCall(g, e) && NamesManifest(g, e) && e.callStatus == Some(CallCreated)
         && var c := g.calls[e.callId.value];
            && e.at == c.startedAt && e.modelCallId == Some(c.modelCallId) && e.manifestId == Some(c.manifestId)
            && e.validatedVersion == Some(c.validatedVersion) && e.bindingRefs == c.bindingRefs
       case ToolCallStarted =>
         NamesCall(g, e) && e.callStatus == Some(CallRunning) && e.at == g.attempts[e.callId.value][0].startedAt
       case ToolResultNormalized =>
         && NamesCall(g, e) && e.toolOutcome == g.attempts[e.callId.value][0].outcome
         && Some(e.at) == g.calls[e.callId.value].finishedAt
       case ObservationRecorded =>
         && NamesCall(g, e) && e.observationRef.Some? && e.observationRef.value in g.observations
         && e.at == g.observations[e.observationRef.value].recordedAt
       case PresentationPlanProposed =>
         && NamesUnit(g, e) && NamesManifest(g, e) && g.manifests[e.manifestId.value].taskRef.Some?
         && e.observationRef.Some? && e.observationRef.value in g.observations
       case ResponseRendered =>
         && (if g.tasks == map[] then e.taskId.None? && e.unitId.None? else NamesUnit(g, e))
         && (e.observationRef.Some? ==> e.observationRef.value in g.observations)
       case RunStopped => e.stopReason == g.run.stopReason && Some(e.at) == g.run.completedAt
       case EvalCaseGraded => false
       case _ =>
         && NamesCall(g, e) && e.callStatus == Some(g.calls[e.callId.value].status)
         && Some(e.at) == g.calls[e.callId.value].finishedAt
  }

  // The families of a finished turn that worked on a Task, as the events need them.
  ghost predicate Stored(t: Turn, w: Work, g: RunGraph) {
    && Recorded(t, w, g) && g.gates == map[w.gate.gateId := w.gate] && g.bindings == map[w.binding.bindingId := w.binding]
    && t.user.messageId in g.messages && g.messages[t.user.messageId] == t.user && t.user.direction.FromUser?
    && (w.tool.Some? ==> g.attempts == map[w.tool.value.call.callId := [w.tool.value.attempt]])
    && g.tasks != map[]
  }

  lemma TurnIsStored(t: Turn, w: Work, g: RunGraph)
    requires t.work == Some(w) && g == t.Graph() && TurnOk(t)
    ensures Stored(t, w, g)
  {
    hide Creation, CreateGraphCommand.Valid, MovesOk, DecidedOk, GateOk, OpeningOk, CalledWith, TerminalRow, Turn.Trace,
      Turn.Manifests, Turn.Observations, Turn.Sources, Work.Transitions, Recorded;
    ToolManifests(t, w);
    WorkRecorded(t, w, g);
    GraphFields(t, w, g);
    MessagesStored(t);
    assert w.task.taskId in g.tasks;
  }

  lemma ToolManifests(t: Turn, w: Work)
    requires t.work == Some(w) && TurnOk(t)
    ensures w.tool.Some? && w.tool.value.seen.Some? ==> w.tool.value.seen.value.manifest.manifestId != t.manifest.manifestId
  {
    hide Creation, CreateGraphCommand.Valid, MovesOk, DecidedOk, GateOk, OpeningOk, CalledWith, EndOk, Turn.Trace;
  }

  lemma MessagesStored(t: Turn)
    requires EndOk(t)
    ensures t.user.messageId in t.Graph().messages && t.Graph().messages[t.user.messageId] == t.user && t.user.direction.FromUser?
  {
    hide TerminalRow, Turn.Trace;
  }

  lemma OpeningSays(t: Turn, g: RunGraph)
    requires OpeningOk(t) && g.run == t.terminal
    requires t.manifest.manifestId in g.manifests && g.manifests[t.manifest.manifestId] == t.manifest
    requires t.user.messageId in g.messages && g.messages[t.user.messageId] == t.user && t.user.direction.FromUser?
    ensures forall e :: e in t.opening ==> Says(g, e)
  {
    forall i | 0 <= i < |t.opening| ensures Says(g, t.opening[i]) { assert i == 0 || i == 1 || i == 2 || i == 3; }
  }

  lemma ProposedSays(t: Turn, w: Work, g: RunGraph)
    requires Stored(t, w, g) && DecidedOk(t, w) && GateOk(t, w)
    ensures Says(g, w.decided[0]) && Says(g, w.decided[1]) && Says(g, w.decided[2])
  {
    hide GateDecision.Valid, BindingEvent, UnitChangedEvent, RevalidatedEvent, GateEvent;
  }

  lemma AcceptedSays(t: Turn, w: Work, g: RunGraph)
    requires Stored(t, w, g) && DecidedOk(t, w) && GateOk(t, w)
    ensures Says(g, w.decided[3]) && Says(g, w.decided[4]) && Says(g, w.decided[5])
  {
    hide GateDecision.Valid, NextMoveEvent, DeltaValidatedEvent, DeltaAcceptedEvent, GateEvent;
  }

  lemma GateSays(t: Turn, w: Work, g: RunGraph)
    requires Stored(t, w, g) && GateOk(t, w) && MovesOk(t, w)
    ensures Says(g, w.gateEvent) && Says(g, w.endEvent) && (w.hook.Some? ==> Says(g, w.hook.value.1))
  {
    hide GateDecision.Valid, StepOk;
  }

  lemma CallFacts(t: Turn, w: Work, x: Tool)
    requires ToolOk(t, w, x)
    ensures x.call.runId == t.terminal.runId && x.call.finishedAt.Some? && !x.call.status.Active()
    ensures x.call.modelCallId == t.manifest.modelCallId && x.call.manifestId == t.manifest.manifestId
    ensures x.created == CallCreatedEvent(x.created.eventId, x.call)
    ensures x.started == CallStartedEvent(x.started.eventId, x.call, x.attempt)
    ensures x.ended == CallEndedEvent(x.ended.eventId, x.call)
    ensures x.normalized == NormalizedEvent(x.normalized.eventId, x.call, x.attempt)
  {
    hide ToolCall.Valid, Attempt.Valid, CallCreatedEvent, CallStartedEvent, CallEndedEvent, NormalizedEvent, SeenOk, OutcomeFits;
  }

  lemma CallStartSays(t: Turn, w: Work, g: RunGraph, x: Tool)
    requires hide *; Stored(t, w, g) && w.tool == Some(x) && ToolOk(t, w, x)
    ensures Says(g, x.created) && Says(g, x.started)
  {
    hide ToolOk, CallEndedEvent, NormalizedEvent;
    CallFacts(t, w, x);
  }

  lemma CallEndSays(t: Turn, w: Work, g: RunGraph, x: Tool)
    requires hide *; Stored(t, w, g) && w.tool == Some(x) && ToolOk(t, w, x)
    ensures Says(g, x.ended) && Says(g, x.normalized)
  {
    hide ToolOk, CallCreatedEvent, CallStartedEvent;
    CallFacts(t, w, x);
  }

  lemma SeenFacts(t: Turn, w: Work, x: Tool, s: Seen)
    requires ToolOk(t, w, x) && x.seen == Some(s)
    ensures x.call.runId == t.terminal.runId == s.manifest.runId && s.manifest.taskRef.Some?
    ensures s.observed == ObservationEvent(s.observed.eventId, x.call, s.observation)
    ensures s.assembled == ManifestEvent(s.assembled.eventId, s.assembled.at, s.manifest, "PRESENTATION")
    ensures s.plan.Some? ==>
              s.plan.value.planRef.Some?
              && s.plan.value == PlanEvent(s.plan.value.eventId, s.plan.value.at, t.terminal.runId, w.unit, s.manifest,
                                           s.observation.observationId, s.plan.value.planRef.value)
  {
    hide ToolCall.Valid, Attempt.Valid, CallCreatedEvent, CallStartedEvent, CallEndedEvent, NormalizedEvent, OutcomeFits,
      ObservationEvent, ManifestEvent, PlanEvent;
  }

  lemma SeenSays(t: Turn, w: Work, g: RunGraph, x: Tool, s: Seen)
    requires hide *; Stored(t, w, g) && w.tool == Some(x) && x.seen == Some(s) && ToolOk(t, w, x)
    ensures Says(g, s.observed) && Says(g, s.assembled) && (s.plan.Some? ==> Says(g, s.plan.value))
  {
    hide ToolOk;
    SeenFacts(t, w, x, s);
    AssembledSays(g, s);
  }

  lemma AssembledSays(g: RunGraph, s: Seen)
    requires SeenRecorded(s, g) && s.manifest.runId == g.run.runId && s.manifest.taskRef.Some?
    requires s.assembled == ManifestEvent(s.assembled.eventId, s.assembled.at, s.manifest, "PRESENTATION")
    ensures Says(g, s.assembled)
  {
    assert g.manifests[s.manifest.manifestId] == s.manifest;
  }

  lemma StopSays(t: Turn, g: RunGraph)
    requires EndOk(t) && g.run == t.terminal
    ensures Says(g, t.stop)
  {
    hide TerminalRow, RenderedEvent;
  }

  lemma RenderedFacts(t: Turn)
    requires EndOk(t)
    ensures t.rendered == RenderedEvent(t.rendered.eventId, t.rendered.at, t.terminal.runId,
                                        if t.work.Some? then Some(t.work.value.unit) else None, t.rendered.observationRef,
                                        t.rendered.planRef)
    ensures t.rendered.observationRef.Some? ==>
              && t.work.Some? && t.work.value.tool.Some? && t.work.value.tool.value.seen.Some?
              && t.rendered.observationRef == Some(t.work.value.tool.value.seen.value.observation.observationId)
  {
    hide TerminalRow, Run.Valid, RenderedEvent, RunStoppedEvent;
  }

  lemma RenderedSays(t: Turn, g: RunGraph)
    requires EndOk(t) && g.run == t.terminal && (t.work.Some? ==> Stored(t, t.work.value, g)) && (t.work.None? ==> g.tasks == map[])
    ensures Says(g, t.rendered)
  {
    hide EndOk;
    RenderedFacts(t);
  }

  lemma EndSays(t: Turn, g: RunGraph)
    requires EndOk(t) && g.run == t.terminal && (t.work.Some? ==> Stored(t, t.work.value, g)) && (t.work.None? ==> g.tasks == map[])
    ensures Says(g, t.rendered) && Says(g, t.stop)
  {
    hide EndOk, Says, Stored;
    RenderedSays(t, g);
    StopSays(t, g);
  }

  lemma WorkSays(t: Turn, w: Work, g: RunGraph)
    requires Stored(t, w, g) && WorkOk(t, w)
    ensures forall e :: e in w.Trace() + [w.endEvent] ==> Says(g, e)
  {
    hide Says, Stored, DecidedOk, GateOk, MovesOk, ToolOk, Creation, CreateGraphCommand.Valid;
    ProposedSays(t, w, g);
    AcceptedSays(t, w, g);
    GateSays(t, w, g);
    if w.tool.Some? {
      CallStartSays(t, w, g, w.tool.value);
      CallEndSays(t, w, g, w.tool.value);
      if w.tool.value.seen.Some? { SeenSays(t, w, g, w.tool.value, w.tool.value.seen.value); }
    }
    assert |w.decided| == 6 by { SixDecided(t, w); }
    assert w.decided == [w.decided[0], w.decided[1], w.decided[2], w.decided[3], w.decided[4], w.decided[5]];
  }

  lemma SixDecided(t: Turn, w: Work)
    requires DecidedOk(t, w)
    ensures |w.decided| == 6
  {
  }

  // Every event of a finished turn names records of its Run and says what they hold.
  lemma TraceSays(t: Turn)
    requires TurnOk(t)
    ensures forall e :: e in t.Graph().trace ==> Says(t.Graph(), e)
  {
    hide Says, Stored, OpeningOk, EndOk, WorkOk, Work.Trace;
    var g := t.Graph();
    RootsStored(t);
    EndKeeps(t);
    match t.work {
      case None =>
        OpeningSays(t, g);
        EndSays(t, g);
      case Some(w) =>
        TurnIsStored(t, w, g);
        assert Stored(t, w, g);
        OpeningSays(t, g);
        WorkSays(t, w, g);
        EndSays(t, g);
    }
  }

  lemma RootsStored(t: Turn)
    requires TurnOk(t)
    ensures t.Graph().run == t.terminal && t.Graph().trace == t.Trace()
    ensures t.work.None? ==> t.Graph().tasks == map[]
    ensures t.manifest.manifestId in t.Graph().manifests && t.Graph().manifests[t.manifest.manifestId] == t.manifest
    ensures t.user.messageId in t.Graph().messages && t.Graph().messages[t.user.messageId] == t.user && t.user.direction.FromUser?
  {
    hide OpeningOk, WorkOk, TerminalRow, Turn.Trace, Turn.Observations, Turn.Sources, Work.Transitions;
    MessagesStored(t);
    if t.work.Some? {
      ToolManifests(t, t.work.value);
      ManifestStored(t, t.work.value);
    }
  }

  lemma EndKeeps(t: Turn)
    requires TurnOk(t)
    ensures OpeningOk(t) && EndOk(t) && (t.work.Some? ==> WorkOk(t, t.work.value))
  {
  }
}
