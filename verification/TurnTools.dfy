// The manifests, the gate and the tool call of a finished turn.

module TurnTools {
  import opened Records
  import opened Understanding
  import opened Commands
  import opened VersionInForce
  import opened Evidence
  import opened Turns
  import opened TurnEvents
  import opened TurnRecords

  lemma FirstVersionAccepted(task: Task, h: Transition, at: Time)
    requires h.result == 2 && task.createdAt <= at
    ensures Accepted(task, [h], 1, at) <==> at < h.changedAt
  {
    assert FindResult([h], 2) == Some(h);
  }

  lemma OpeningManifestCloses(t: Turn, tasks: map<Id, Task>, history: map<Id, seq<Transition>>,
                              observations: map<Id, Observation>)
    requires OpeningOk(t)
    ensures ManifestCloses(t.terminal, tasks, history, observations, t.manifest)
  {
  }

  lemma SingleTransition(t: Turn, w: Work, x: Tool)
    requires w.tool == Some(x) && Creation(t, w).Valid() && GateOk(t, w) && MovesOk(t, w)
    ensures w.Transitions() == [w.end.transition] && w.end.transition.result == 2
  {
    hide CreateGraphCommand.Valid, UnderstandingRecord.MessageRefs, UnderstandingRecord.Valid, StepOk, Creation,
      GateDecision.Valid;
    CreationFacts(t, w);
    StepFacts(w.Before().0, w.Before().1, w.end);
  }

  // The presentation manifest names version 1 of the Task, which has to be in force when it is assembled.
  lemma PresentationManifestCloses(t: Turn, w: Work, x: Tool, s: Seen)
    requires w.tool == Some(x) && x.seen == Some(s)
    requires Creation(t, w).Valid() && GateOk(t, w) && MovesOk(t, w) && SeenOk(t, w, x, s)
    ensures ManifestCloses(t.terminal, Only(w.task.taskId, w.end.task), Only(w.task.taskId, w.Transitions()),
                           t.Observations(w), s.manifest)
            <==> s.manifest.assembledAt < w.end.transition.changedAt
  {
    hide CreateGraphCommand.Valid, UnderstandingRecord.MessageRefs, UnderstandingRecord.Valid, MovesOk, Creation, GateOk,
      Work.Transitions, Accepted;
    CreationFacts(t, w);
    MoveFacts(t, w);
    SingleTransition(t, w, x);
    FirstVersionAccepted(w.end.task, w.end.transition, s.manifest.assembledAt);
    assert |Refs(s.manifest.observationRefs)| == 1;
  }

  lemma ManifestsOfWork(t: Turn, w: Work)
    requires t.work == Some(w) && OpeningOk(t) && WorkOk(t, w)
    ensures ManifestsClose(t.terminal, Only(w.task.taskId, w.end.task), Only(w.task.taskId, w.Transitions()),
                           t.Observations(w), t.Manifests(w))
            <==> MovedAfterPresentation(t)
  {
    hide CreateGraphCommand.Valid, OpeningOk, DecidedOk, GateOk, MovesOk, ManifestCloses, Creation, Work.Transitions;
    OpeningManifestCloses(t, map[w.task.taskId := w.end.task], map[w.task.taskId := w.Transitions()], t.Observations(w));
    if w.tool.Some? && w.tool.value.seen.Some? {
      PresentationManifestCloses(t, w, w.tool.value, w.tool.value.seen.value);
      ManifestStored(t, w);
      SeenStored(t, w, w.tool.value.seen.value);
    }
  }

  lemma GatesOfWork(t: Turn, w: Work)
    requires GateOk(t, w) && t.manifest.manifestId in t.Manifests(w) && t.Manifests(w)[t.manifest.manifestId] == t.manifest
    ensures GatesClose(Only(w.gate.gateId, w.gate), t.Manifests(w))
  {
    hide Turn.Manifests, GateDecision.Valid;
  }

  function Calls(w: Work): map<Id, ToolCall> {
    if w.tool.Some? then map[w.tool.value.call.callId := w.tool.value.call] else map[]
  }

  function Attempts(w: Work): map<Id, seq<Attempt>> {
    if w.tool.Some? then map[w.tool.value.call.callId := [w.tool.value.attempt]] else map[]
  }

  lemma CallsOfWork(t: Turn, w: Work)
    requires t.manifest.manifestId in t.Manifests(w) && t.Manifests(w)[t.manifest.manifestId] == t.manifest
    requires t.work == Some(w) && WorkOk(t, w)
    ensures CallsClose(t.terminal, Only(w.task.taskId, w.end.task), Only(w.unit.unitId, w.end.unit), t.Manifests(w),
                       Only(w.gate.gateId, w.gate), Calls(w))
  {
    hide Turn.Manifests, GateDecision.Valid, CreateGraphCommand.Valid, UnderstandingRecord.MessageRefs,
      UnderstandingRecord.Valid, DecidedOk, MovesOk, Creation, SeenOk;
    if w.tool.Some? {
      CreationFacts(t, w);
      MoveFacts(t, w);
      CallOfWork(t, w, w.tool.value);
      hide CallCloses, WorkOk;
    }
  }

  lemma CallOfWork(t: Turn, w: Work, x: Tool)
    requires t.manifest.manifestId in t.Manifests(w) && t.Manifests(w)[t.manifest.manifestId] == t.manifest
    requires w.tool == Some(x) && ToolOk(t, w, x) && GateOk(t, w)
    requires w.end.unit.taskId == w.task.taskId && w.end.unit.bindingRefs == [w.binding.bindingId]
    requires 1 <= w.end.task.version
    ensures CallCloses(t.terminal, Only(w.task.taskId, w.end.task), Only(w.unit.unitId, w.end.unit), t.Manifests(w),
                       Only(w.gate.gateId, w.gate), x.call)
  {
    hide Turn.Manifests, SeenOk;
  }

  lemma AttemptsOfWork(t: Turn, w: Work)
    requires w.tool.Some? ==> ToolOk(t, w, w.tool.value)
    ensures AttemptsClose(Calls(w), Attempts(w))
  {
    hide SeenOk;
  }
}
