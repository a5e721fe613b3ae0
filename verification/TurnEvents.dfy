// Every trace event of a finished turn closes over the turn's own records.

module TurnEvents {
  import opened Records
  import opened Understanding
  import opened Commands
  import opened RunStore
  import opened Evidence
  import opened Turns

  // A family with one member.
  function Only<T>(k: Id, x: T): map<Id, T> { map[k := x] }

  // What the creation command says about the records of the turn.
  lemma CreationFacts(t: Turn, w: Work)
    requires Creation(t, w).Valid()
    ensures w.record.runId == t.terminal.runId && w.record.messageRef == t.user.messageId
    ensures w.delta.messageRef == w.record.messageRef && w.delta.taskId == w.task.taskId
    ensures w.delta.bindingRefs == [w.binding.bindingId] && w.delta.base.None? && w.delta.result == 1
    ensures w.unit.taskId == w.task.taskId && w.unit.bindingRefs == [w.binding.bindingId]
    ensures w.unit.goalSourceRefs == [w.record.messageRef] && w.unit.observationRefs == []
    ensures w.unit.goalText == w.delta.goalText
    ensures w.task.version == 1 && w.task.status.TaskActive? && w.task.owner == t.conversation.owner
    ensures w.task.createdAt == w.record.createdAt == w.delta.acceptedAt == w.task.updatedAt
    ensures w.binding.supersedes.None? && w.record.acceptedRefs == [w.delta.deltaId]
    ensures w.convLink.taskId == w.task.taskId && w.convLink.conversationId == t.conversation.conversationId
    ensures w.record.MessageRefs() == {t.user.messageId}
    ensures w.record.Valid() && |w.record.candidates| == 1 && w.delta.Valid()
  {
    hide DurableContext.Valid;
    var c := Creation(t, w);
    assert {t.user.messageId} == (set m | m in c.messages :: m.messageId);
  }

  // Neither step changes what the unit is about.
  lemma MoveFacts(t: Turn, w: Work)
    requires MovesOk(t, w)
    ensures w.end.task.taskId == w.task.taskId && w.end.task.owner == w.task.owner
    ensures w.end.task.createdAt == w.task.createdAt && w.end.unit.unitId == w.unit.unitId
    ensures w.end.unit.taskId == w.unit.taskId && w.end.unit.goalText == w.unit.goalText
    ensures w.end.unit.goalSourceRefs == w.unit.goalSourceRefs && w.end.unit.bindingRefs == w.unit.bindingRefs
    ensures w.end.unit.status == w.end.task.status && w.end.unit.version == w.end.task.version
    ensures w.end.task.version == w.task.version + |w.Transitions()|
  {
  }

  // Where the store keeps the records of the turn.
  ghost predicate Recorded(t: Turn, w: Work, g: RunGraph) {
    && g.run == t.terminal
    && w.delta.deltaId in g.deltas && g.deltas[w.delta.deltaId] == w.delta
    && w.unit.unitId in g.units && g.units[w.unit.unitId].taskId == w.task.taskId && w.task.taskId in g.tasks
    && g.units[w.unit.unitId].bindingRefs == [w.binding.bindingId]
    && t.manifest.manifestId in g.manifests && g.manifests[t.manifest.manifestId] == t.manifest
    && w.unit.taskId == w.task.taskId && w.record.runId == t.terminal.runId
    && w.record.messageRef == t.user.messageId == w.delta.messageRef && w.delta.taskId == w.task.taskId
    && (w.tool.Some? ==>
          && w.tool.value.call.callId in g.calls && g.calls[w.tool.value.call.callId] == w.tool.value.call)
    && (w.tool.Some? && w.tool.value.seen.Some? ==> SeenRecorded(w.tool.value.seen.value, g))
  }

  ghost predicate SeenRecorded(s: Seen, g: RunGraph) {
    && s.observation.observationId in g.observations
    && g.observations[s.observation.observationId] == s.observation
    && s.manifest.manifestId in g.manifests && g.manifests[s.manifest.manifestId] == s.manifest
  }

  lemma SeenStored(t: Turn, w: Work, s: Seen)
    requires w.tool.Some? && w.tool.value.seen == Some(s) && s.manifest.manifestId != t.manifest.manifestId
    ensures s.observation.observationId in t.Observations(w)
    ensures t.Observations(w)[s.observation.observationId] == s.observation
    ensures s.manifest.manifestId in t.Manifests(w) && t.Manifests(w)[s.manifest.manifestId] == s.manifest
  {
  }

  lemma ManifestStored(t: Turn, w: Work)
    requires w.tool.Some? && w.tool.value.seen.Some? ==>
               w.tool.value.seen.value.manifest.manifestId != t.manifest.manifestId
    ensures t.manifest.manifestId in t.Manifests(w) && t.Manifests(w)[t.manifest.manifestId] == t.manifest
  {
  }

  // The families of a turn that worked on a Task.
  lemma GraphFields(t: Turn, w: Work, g: RunGraph)
    requires t.work == Some(w) && g == t.Graph()
    ensures g.conversation == t.conversation && g.run == t.terminal && g.understanding == Some(w.record)
    ensures g.deltas == map[w.delta.deltaId := w.delta] && g.bindings == map[w.binding.bindingId := w.binding]
    ensures g.tasks == map[w.task.taskId := w.end.task] && g.units == map[w.unit.unitId := w.end.unit]
    ensures g.history == map[w.task.taskId := w.Transitions()]
    ensures g.convLinks == map[w.task.taskId := w.convLink] && g.links == map[w.task.taskId := w.link]
    ensures g.manifests == t.Manifests(w) && g.gates == map[w.gate.gateId := w.gate]
    ensures w.tool.Some? ==> g.calls == map[w.tool.value.call.callId := w.tool.value.call]
    ensures w.tool.Some? ==> g.attempts == map[w.tool.value.call.callId := [w.tool.value.attempt]]
    ensures w.tool.None? ==> g.calls == map[] && g.attempts == map[]
    ensures g.observations == t.Observations(w) && g.trace == t.Trace()
  {
    hide Turn.Trace, Work.Transitions, Turn.Manifests, Turn.Observations, Turn.Sources;
  }

  lemma WorkRecorded(t: Turn, w: Work, g: RunGraph)
    requires t.work == Some(w) && g == t.Graph() && Creation(t, w).Valid() && MovesOk(t, w)
    requires w.tool.Some? && w.tool.value.seen.Some? ==>
               w.tool.value.seen.value.manifest.manifestId != t.manifest.manifestId
    ensures Recorded(t, w, g)
  {
    hide CreateGraphCommand.Valid, MovesOk, UnderstandingRecord.Valid, UnderstandingRecord.MessageRefs,
      Turn.Graph, Turn.Trace, Work.Transitions, AcceptedDelta.Valid, Creation, Turn.Manifests, Turn.Observations;
    CreationFacts(t, w);
    MoveFacts(t, w);
    GraphFields(t, w, g);
    ManifestStored(t, w);
    if w.tool.Some? && w.tool.value.seen.Some? { SeenStored(t, w, w.tool.value.seen.value); }
  }

  lemma OpeningEventsClose(t: Turn, g: RunGraph)
    requires OpeningOk(t) && g.run == t.terminal
    requires t.manifest.manifestId in g.manifests && g.manifests[t.manifest.manifestId] == t.manifest
    ensures forall i :: 0 <= i < |t.opening| ==> EventCloses(g, t.opening[i])
  {
  }

  lemma DecidedEventsClose(t: Turn, w: Work, g: RunGraph)
    requires Recorded(t, w, g) && DecidedOk(t, w)
    ensures forall i :: 0 <= i < |w.decided| ==> EventCloses(g, w.decided[i])
  {
    forall i | 0 <= i < |w.decided| ensures EventCloses(g, w.decided[i]) {
      assert i == 0 || i == 1 || i == 2 || i == 3 || i == 4 || i == 5;
    }
  }

  lemma UnitChangedCloses(t: Turn, w: Work, g: RunGraph, id: Id, at: Time)
    requires Recorded(t, w, g)
    ensures EventCloses(g, UnitChangedEvent(id, at, t.terminal.runId, w.unit))
  {
  }

  lemma GateEventCloses(t: Turn, w: Work, g: RunGraph)
    requires Recorded(t, w, g) && GateOk(t, w)
    ensures EventCloses(g, w.gateEvent)
  {
    hide GateDecision.Valid;
  }

  lemma CallEventsClose(t: Turn, w: Work, g: RunGraph, x: Tool)
    requires Recorded(t, w, g) && w.tool == Some(x) && ToolOk(t, w, x)
    ensures EventCloses(g, x.created) && EventCloses(g, x.started) && EventCloses(g, x.ended) && EventCloses(g, x.normalized)
  {
    hide SeenOk;
  }

  lemma SeenEventsClose(t: Turn, w: Work, g: RunGraph, x: Tool, s: Seen)
    requires Recorded(t, w, g) && w.tool == Some(x) && x.seen == Some(s) && ToolOk(t, w, x)
    ensures EventCloses(g, s.observed) && EventCloses(g, s.assembled) && (s.plan.Some? ==> EventCloses(g, s.plan.value))
  {
  }

  lemma RenderedCloses(t: Turn, g: RunGraph)
    requires EndOk(t) && g.run == t.terminal
    requires t.work.Some? ==> Recorded(t, t.work.value, g)
    ensures EventCloses(g, t.rendered)
  {
    hide TerminalRow, Run.Valid;
  }

  lemma StopEventCloses(t: Turn, g: RunGraph)
    requires EndOk(t) && g.run == t.terminal
    ensures EventCloses(g, t.stop)
  {
  }
}
