// Every record graph a finished turn leaves is a complete evidence closure,
// exactly when the Task moved on strictly after its version was presented.

module TurnClosure {
  import opened Records
  import opened Understanding
  import opened Commands
  import opened RunStore
  import opened Evidence
  import opened Turns
  import opened TurnEvents
  import opened TurnRecords
  import opened TurnTools
  import opened TurnTrace
  import opened TurnReferences

  // ----- Correlations of the trace with the records -----

  lemma NormalizedOfWork(t: Turn, w: Work)
    requires t.work == Some(w) && WorkOk(t, w) && OpeningOk(t) && EndOk(t)
    ensures NormalizedClose(Calls(w), Attempts(w), t.Trace())
  {
    hide OpeningOk, EndOk, DecidedOk, MovesOk, GateOk, ToolOk, Creation, CreateGraphCommand.Valid, Turn.Trace, OfKind,
      NormalizedAgrees, Early;
    KindIsLate(ToolResultNormalized);
    KindOfWork(t, w, ToolResultNormalized);
    if w.tool.Some? { NormalizedOfTool(t, w, w.tool.value); }
  }

  lemma KindIsLate(kind: EventKind)
    requires kind.GateDecisionRecorded? || kind.RunStopped? || kind.ToolResultNormalized? || kind.ObservationRecorded?
    ensures !Early(kind) && CallStatusOf(kind).None?
  {
  }

  lemma NormalizedOfTool(t: Turn, w: Work, x: Tool)
    requires ToolOk(t, w, x)
    ensures x.normalized.callId == Some(x.call.callId) && x.normalized.toolOutcome.Some?
    ensures NormalizedAgrees(x.call, [x.attempt], x.normalized)
  {
    hide SeenOk;
  }

  lemma GateEventsOfWork(t: Turn, w: Work)
    requires t.manifest.manifestId in t.Manifests(w) && t.Manifests(w)[t.manifest.manifestId] == t.manifest
    requires t.work == Some(w) && WorkOk(t, w) && OpeningOk(t) && EndOk(t)
    requires w.end.unit.bindingRefs == [w.binding.bindingId]
    ensures GateEventsClose(Only(w.gate.gateId, w.gate), t.Manifests(w), Only(w.unit.unitId, w.end.unit), t.Trace())
  {
    hide OpeningOk, EndOk, DecidedOk, MovesOk, GateOk, ToolOk, Creation, CreateGraphCommand.Valid, Turn.Trace, OfKind,
      Early, Turn.Manifests, Viewed, Owners, InvalidOwners, CrossUnit, EventView, RecordView;
    KindIsLate(GateDecisionRecorded);
    KindOfWork(t, w, GateDecisionRecorded);
    var e, gates, units := w.gateEvent, map[w.gate.gateId := w.gate], map[w.unit.unitId := w.end.unit];
    GateEventFacts(t, w);
    OneViewed(e);
    OneOwner(w.gate);
    NotCross(e, units);
  }

  lemma GateEventFacts(t: Turn, w: Work)
    requires GateOk(t, w) && OpeningOk(t)
    ensures var e := w.gateEvent;
            && e.taskId.Some? && e.unitId == Some(w.unit.unitId) && e.manifestId == Some(t.manifest.manifestId)
            && e.bindingRefs == [w.binding.bindingId] && EventView(e) == RecordView(w.gate)
    ensures t.manifest.taskRef.None?
  {
    hide GateDecision.Valid;
  }

  lemma OneViewed(e: TraceEvent)
    ensures Viewed([e], EventView(e)) == [e]
  {
    assert [e][..0] == [];
    assert Viewed([], EventView(e)) == [];
  }

  lemma OneOwner(d: GateDecision)
    ensures |Owners(map[d.gateId := d], RecordView(d))| == 1
  {
    assert d.gateId in map[d.gateId := d];
    assert Owners(map[d.gateId := d], RecordView(d)) == {d.gateId};
  }

  lemma NotCross(e: TraceEvent, units: map<Id, RequestUnit>)
    requires e.unitId.Some? && e.unitId.value in units
    requires forall b :: b in e.bindingRefs ==> b in units[e.unitId.value].bindingRefs
    ensures CrossUnit([e], units) == 0
  {
    assert [e][..0] == [];
    assert CrossUnit([], units) == 0;
  }

  lemma StopOfWork(t: Turn, w: Work)
    requires t.work == Some(w) && WorkOk(t, w) && OpeningOk(t) && EndOk(t)
    ensures StopCloses(t.terminal, Only(w.task.taskId, w.end.task), t.Trace())
  {
    hide OpeningOk, EndOk, DecidedOk, MovesOk, GateOk, ToolOk, Creation, CreateGraphCommand.Valid, Turn.Trace, OfKind,
      Early, StopAgrees, InMatrix, Statuses, Run.Valid;
    KindIsLate(RunStopped);
    KindOfWork(t, w, RunStopped);
    StopFacts(t);
    OneStatus(w.task.taskId, w.end.task);
    RowOfWork(t, w);
  }

  lemma StopFacts(t: Turn)
    requires EndOk(t)
    ensures t.terminal.status.RunCompleted? && t.terminal.stopReason.Some? && t.stop.outcome.Some?
    ensures StopAgrees(t.terminal, t.stop)
  {
    hide TerminalRow;
  }

  lemma OneStatus(id: Id, task: Task)
    ensures |Statuses(map[id := task])| == 1
  {
    assert id in map[id := task];
    assert Statuses(map[id := task]) == {task.status};
  }

  lemma RowOfWork(t: Turn, w: Work)
    requires t.work == Some(w) && EndOk(t)
    ensures t.terminal.stopReason.Some? && t.stop.outcome.Some?
    ensures InMatrix(t.terminal.stopReason.value, map[w.task.taskId := w.end.task], t.stop.outcome.value)
  {
    hide TerminalRow;
    var tasks := map[w.task.taskId := w.end.task];
    assert w.task.taskId in tasks;
  }

  lemma SourceEdgesOfWork(t: Turn, w: Work)
    requires t.work == Some(w) && WorkOk(t, w) && OpeningOk(t) && EndOk(t)
    ensures SourceEdgesClose(t.Observations(w), t.Trace())
  {
    hide OpeningOk, EndOk, DecidedOk, MovesOk, GateOk, ToolOk, Creation, CreateGraphCommand.Valid, Turn.Trace, OfKind, Early;
    KindIsLate(ObservationRecorded);
    KindOfWork(t, w, ObservationRecorded);
    var es := OfKind(t.Trace(), ObservationRecorded);
    if w.tool.Some? && w.tool.value.seen.Some? {
      ToolSeen(t, w, w.tool.value);
      hide SeenOk;
      var s := w.tool.value.seen.value;
      SeenKinds(t, w, w.tool.value, s);
      assert es[0] == s.observed;
    }
  }

  // ----- Every event -----

  predicate AllClose(g: RunGraph, es: seq<TraceEvent>) { forall e :: e in es ==> EventCloses(g, e) }

  lemma ToolEventsClose(t: Turn, w: Work, g: RunGraph)
    requires Recorded(t, w, g) && (w.tool.Some? ==> ToolOk(t, w, w.tool.value))
    ensures AllClose(g, w.ToolTrace())
  {
    hide ToolOk, Recorded, EventCloses;
    if w.tool.Some? {
      var x := w.tool.value;
      CallEventsClose(t, w, g, x);
      if x.seen.Some? { SeenEventsClose(t, w, g, x, x.seen.value); }
    }
  }

  lemma PreludeCloses(t: Turn, w: Work, g: RunGraph)
    requires Recorded(t, w, g) && OpeningOk(t) && DecidedOk(t, w) && MovesOk(t, w)
    ensures AllClose(g, Prelude(t, w))
  {
    hide OpeningOk, DecidedOk, EventCloses, StepOk;
    OpeningEventsClose(t, g);
    DecidedEventsClose(t, w, g);
    if w.hook.Some? {
      var e := w.hook.value.1;
      UnitChangedCloses(t, w, g, e.eventId, w.hook.value.0.transition.changedAt);
    }
  }

  lemma EventsOfWork(t: Turn, w: Work, g: RunGraph)
    requires t.work == Some(w) && Recorded(t, w, g) && g.run == t.terminal && WorkOk(t, w) && OpeningOk(t) && EndOk(t)
    ensures AllClose(g, t.Trace())
  {
    hide OpeningOk, DecidedOk, EventCloses, StepOk, GateOk, ToolOk, EndOk, Creation, CreateGraphCommand.Valid, Recorded,
      Turn.Trace, Work.ToolTrace, Prelude;
    TraceParts(t, w);
    PreludeCloses(t, w, g);
    GateEventCloses(t, w, g);
    ToolEventsClose(t, w, g);
    RenderedCloses(t, g);
    UnitChangedCloses(t, w, g, w.endEvent.eventId, w.end.transition.changedAt);
    StopEventCloses(t, g);
  }

  // ----- Turns without a Task -----

  lemma BareFields(t: Turn, g: RunGraph)
    requires t.work.None? && g == t.Graph()
    ensures g.conversation == t.conversation && g.run == t.terminal && g.understanding.None?
    ensures g.deltas == map[] && g.bindings == map[] && g.tasks == map[] && g.units == map[] && g.history == map[]
    ensures g.convLinks == map[] && g.links == map[] && g.manifests == map[t.manifest.manifestId := t.manifest]
    ensures g.gates == map[] && g.calls == map[] && g.attempts == map[] && g.observations == map[]
    ensures g.trace == t.opening + [t.rendered] + [t.stop]
  {
  }

  lemma BareEarly(t: Turn)
    requires OpeningOk(t) && EndOk(t)
    ensures AllEarly(t.opening) && Early(t.rendered.kind) && t.stop.kind == RunStopped
  {
    hide TerminalRow, Run.Valid;
  }

  lemma BareKinds(t: Turn, kind: EventKind)
    requires t.work.None? && OpeningOk(t) && EndOk(t) && !Early(kind)
    ensures OfKind(t.opening + [t.rendered] + [t.stop], kind) == if kind.RunStopped? then [t.stop] else []
  {
    hide OpeningOk, EndOk, OfKind, Early;
    BareEarly(t);
    OfKindNone(t.opening, kind);
    OneEvent(t.rendered, kind);
    OneEvent(t.stop, kind);
    OfKindConcat(t.opening, [t.rendered], kind);
    OfKindConcat(t.opening + [t.rendered], [t.stop], kind);
  }

  lemma BareTrace(t: Turn, g: RunGraph)
    requires t.work.None? && g == t.Graph() && OpeningOk(t) && EndOk(t)
    ensures NormalizedClose(map[], map[], g.trace) && GateEventsClose(map[], g.manifests, map[], g.trace)
    ensures SourceEdgesClose(map[], g.trace) && StopCloses(g.run, map[], g.trace)
  {
    hide OpeningOk, EndOk, Turn.Graph, OfKind, Early, StopAgrees, TerminalRow;
    BareFields(t, g);
    KindIsLate(ToolResultNormalized);
    KindIsLate(GateDecisionRecorded);
    KindIsLate(ObservationRecorded);
    KindIsLate(RunStopped);
    BareKinds(t, ToolResultNormalized);
    BareKinds(t, GateDecisionRecorded);
    BareKinds(t, ObservationRecorded);
    BareKinds(t, RunStopped);
    StopFacts(t);
    BareRow(t);
  }

  lemma BareRow(t: Turn)
    requires t.work.None? && EndOk(t)
    ensures t.terminal.stopReason.Some? && t.stop.outcome.Some?
    ensures TerminalRow(t.terminal.stopReason.value, false, t.stop.outcome.value, None)
  {
    hide TerminalRow;
  }

  lemma BareEvents(t: Turn, g: RunGraph)
    requires t.work.None? && g == t.Graph() && OpeningOk(t) && EndOk(t)
    ensures AllClose(g, g.trace)
  {
    hide OpeningOk, EndOk, Turn.Graph, EventCloses;
    BareFields(t, g);
    OpeningEventsClose(t, g);
    RenderedCloses(t, g);
    StopEventCloses(t, g);
  }

  lemma BareWithin(t: Turn, g: RunGraph)
    requires t.work.None? && g == t.Graph() && OpeningOk(t) && EndOk(t)
    ensures AllWithin(t, g.trace)
  {
    hide OpeningOk, EndOk, Turn.Graph, Within;
    OpeningWithin(t);
    EndsWithin(t);
    BareFields(t, g);
  }

  lemma OpeningManifest(t: Turn)
    requires OpeningOk(t)
    ensures t.manifest.messageRefs == [t.user.messageId] && t.manifest.observationRefs == []
  {
  }

  lemma BareSets(t: Turn, g: RunGraph)
    requires t.work.None? && g == t.Graph() && OpeningOk(t) && EndOk(t)
    ensures ReferencedMessages(g) == {t.user.messageId}
    ensures ReferencedBindings(g) == {} && ReferencedObservations(g) == {}
    ensures ReferencedArtifacts(g) == {t.manifest.toolsetHash}
  {
    hide OpeningOk, EndOk, Turn.Graph, ReferencedArtifacts;
    BareFields(t, g);
    BareWithin(t, g);
    OpeningManifest(t);
    assert t.manifest.manifestId in g.manifests && t.user.messageId in t.manifest.messageRefs;
    ArtifactsOfTurn(t, g);
  }

  lemma BareReferences(t: Turn, g: RunGraph)
    requires t.work.None? && g == t.Graph() && OpeningOk(t) && EndOk(t)
    ensures ReferencesExact(Loaded(t, g))
  {
    hide OpeningOk, EndOk, Turn.Graph, ExactFamily, ReferencedArtifacts, ReferencedMessages, ReferencedBindings,
      ReferencedObservations;
    BareFields(t, g);
    BareSets(t, g);
    FlatFamily(BindingChains(g.bindings), {});
    FlatFamily(ObservationChains(g.observations), {});
  }

  lemma TurnRoots(t: Turn)
    requires EndOk(t)
    ensures RootsClose(t.conversation, t.terminal, map[t.user.messageId := t.user])
  {
    hide TerminalRow;
  }

  // Without a Task every family but the trace and the manifests is empty.
  lemma BareFamilies(t: Turn, g: RunGraph)
    requires t.work.None? && g == t.Graph() && OpeningOk(t)
    ensures UnderstandingCloses(g.run, Loaded(t, g).messages, g.understanding, g.deltas, g.bindings, g.tasks)
    ensures TasksClose(g.conversation, g.run, g.understanding, g.deltas, g.tasks, g.links, g.convLinks)
    ensures UnitsClose(g.understanding, g.deltas, g.tasks, g.units)
    ensures HistoriesClose(g.understanding, g.deltas, g.tasks, g.units, g.history)
    ensures ManifestsClose(g.run, g.tasks, g.history, g.observations, g.manifests)
    ensures GatesClose(g.gates, g.manifests) && CallsClose(g.run, g.tasks, g.units, g.manifests, g.gates, g.calls)
    ensures AttemptsClose(g.calls, g.attempts)
  {
    hide OpeningOk, Turn.Graph, Turn.Trace, ManifestCloses, LinkCloses, UnitCloses, LatestChildAgrees, FirstChildHasBase,
      DeltaFitsHistory, CallCloses, AttemptsClosed, ChildCloses;
    BareFields(t, g);
    OpeningManifestCloses(t, g.tasks, g.history, g.observations);
  }

  lemma BareTurnCloses(t: Turn)
    requires TurnOk(t) && t.work.None?
    ensures Closed(Loaded(t, t.Graph()))
  {
    hide OpeningOk, EndOk, WorkOk, Turn.Graph, Turn.Trace, ReferencesExact, NormalizedClose, GateEventsClose, SourceEdgesClose,
      StopCloses, EventCloses, RootsClose, UnderstandingCloses, TasksClose, UnitsClose, HistoriesClose, ManifestsClose,
      GatesClose, CallsClose, AttemptsClose, OfKind;
    var g := t.Graph();
    BareFields(t, g);
    BareFamilies(t, g);
    BareTrace(t, g);
    BareEvents(t, g);
    BareReferences(t, g);
    TurnRoots(t);
    GraphTrace(t);
  }

  lemma GraphTrace(t: Turn)
    ensures t.Graph().trace == t.Trace()
  {
    hide Turn.Trace;
  }

  // ----- The theorem -----

  lemma SeenIsAnother(t: Turn, w: Work)
    requires WorkOk(t, w)
    ensures w.tool.Some? && w.tool.value.seen.Some? ==>
              w.tool.value.seen.value.manifest.manifestId != t.manifest.manifestId
  {
    hide MovesOk, DecidedOk, GateOk, Creation, CreateGraphCommand.Valid;
    if w.tool.Some? { ToolSeen(t, w, w.tool.value); }
    hide ToolOk;
  }

  lemma WorkTurnCloses(t: Turn, w: Work, g: RunGraph)
    requires TurnOk(t) && t.work == Some(w) && g == t.Graph()
    ensures Closed(Loaded(t, g)) <==> MovedAfterPresentation(t)
  {
    hide OpeningOk, EndOk, MovesOk, DecidedOk, GateOk, ToolOk, Creation, CreateGraphCommand.Valid, Turn.Graph,
      Turn.Trace, Turn.Manifests, Turn.Observations, Work.Transitions, ReferencesExact, NormalizedClose,
      GateEventsClose, SourceEdgesClose, StopCloses, EventCloses, RootsClose, UnderstandingCloses, TasksClose,
      UnitsClose, HistoriesClose, ManifestsClose, GatesClose, CallsClose, AttemptsClose, LifecyclesClose, Recorded,
      MovedAfterPresentation, UnderstandingRecord.MessageRefs, UnderstandingRecord.Valid, HookOk, StepOk,
      UnitChangedEvent, UnderstandingMessages, ReferencedObservations;
    GraphFields(t, w, g);
    CreationFacts(t, w);
    MoveFacts(t, w);
    TurnRoots(t);
    UnderstandingOfWork(t, w, g.tasks);
    TasksOfWork(t, w);
    UnitsOfWork(t, w);
    HistoriesOfWork(t, w);
    ManifestsOfWork(t, w);
    SeenIsAnother(t, w);
    ManifestStored(t, w);
    GatesOfWork(t, w);
    CallsOfWork(t, w);
    AttemptsOfWork(t, w);
    NormalizedOfWork(t, w);
    GateEventsOfWork(t, w);
    StopOfWork(t, w);
    LifecyclesOfWork(t, w);
    SourceEdgesOfWork(t, w);
    ReferencesOfWork(t, w, g);
    WorkRecorded(t, w, g);
    EventsOfWork(t, w, g);
    InputSources(t, w);
    ObservationsOfWork(t, w, g);
    assert g.calls == Calls(w) && g.attempts == Attempts(w);
  }

  // A finished turn, with whatever stop reason, with or without the one-step
  // hook, closes; only a presented version that the Task left at the very
  // instant of presentation does not.
  lemma FinishedTurnCloses(t: Turn)
    requires TurnOk(t)
    ensures Closed(Loaded(t, t.Graph()))
            <==> MovedAfterPresentation(t)
  {
    hide TurnOk, Turn.Graph, Closed;
    match t.work
    case None => BareTurnCloses(t);
    case Some(w) => WorkTurnCloses(t, w, t.Graph());
  }
}
