// A turn that was stopped while it worked on its Task, its call not made or still open:
// all of its records close once it is recovered.

module HaltedTurns {
  import opened Records
  import opened Understanding
  import opened Commands
  import opened RecoveryCommands
  import opened RunStore
  import opened Protocol
  import opened VersionInForce
  import opened Evidence
  import opened Startup
  import opened Turns
  import opened TurnEvents
  import opened TurnRecords
  import opened TurnTrace
  import opened TurnReferences
  import opened TurnProgress
  import opened RecoveredEvidence
  import DeltaChains
  import ReadExecutor
  import RunSteps
  import TurnClosure

  // ----- The states -----

  // A call and the attempt it has or has not started.
  predicate OpenCall(p: Progress, c: ToolCall, xs: seq<Attempt>) {
    && p.gate.Some? && p.gate.value.0.accepted && p.gate.value.0.resolvedTool == Some("get_order") && p.hook.None?
    && c == ToolCall(c.callId, p.running.runId, p.task.taskId, p.unit.unitId, p.manifest.modelCallId, p.manifest.manifestId,
                     p.gate.value.0.gateId, "get_order", p.manifest.registryVersion, 1, [p.binding.bindingId], Read,
                     |xs|, if xs == [] then CallCreated else CallRunning, c.startedAt, None, None, None, None, None)
    && (xs != [] ==> |xs| == 1 && c.startedAt <= xs[0].startedAt && xs[0] == Attempt(c.callId, 1, xs[0].startedAt, None, None, None))
  }

  type Open = Option<(ToolCall, seq<Attempt>)>

  // After the Task was created: gated or not, with no call or an open one.
  predicate Halted(p: Progress, open: Open) {
    p.Ok() && p.tool.None? && (open.Some? ==> OpenCall(p, open.value.0, open.value.1))
  }

  function HaltedGraph(p: Progress, open: Open): RunGraph {
    if open.Some? then CallWrites(p.Graph(), open.value.0, open.value.1) else p.Graph()
  }

  // An accepted gate and what is authorised after it make such a call, before and after the fence.
  lemma AuthorizedIsOpen(p: Progress, a: ReadExecutor.Authorized, id: Id, at: Time, xs: seq<Attempt>)
    requires RunSteps.CallStage(p, a) && (xs != [] ==> xs == [Attempt(id, 1, xs[0].startedAt, None, None, None)] && at <= xs[0].startedAt)
    ensures var c := ReadExecutor.CreatedCall(a, id, at);
            OpenCall(p, if xs == [] then c else ReadExecutor.RunningCall(c), xs)
  {
  }

  // ----- A finished turn with the same beginning -----

  const NO_CHECKS := GateChecks(false, false, false, false, false, false, false, false, false)

  // Only its records and its first events matter.
  function Sketched(p: Progress): Work {
    var event := PlainEvent(0, RunStarted, 0, 0);
    var gate := if p.gate.Some? then p.gate.value.0
                else GateDecision(0, 0, 0, p.requested, None, NO_CHECKS, [], None, None, false, None, 0);
    Work(p.record, p.delta, p.binding, p.task, p.unit, p.convLink, p.ActiveLink(), p.decided, p.hook, gate,
         if p.gate.Some? then p.gate.value.1 else event, None,
         Moved(p.task, p.unit, Transition(0, 0, TaskActive, TaskActive, 0, 0, 0, 0)), event)
  }

  function Sketch(p: Progress): Turn {
    var event := PlainEvent(0, RunStarted, 0, 0);
    Turn(p.conversation, p.user, p.manifest, p.opening, Some(Sketched(p)), event, p.running, p.user, event)
  }

  lemma SketchCreates(p: Progress)
    requires p.Ok()
    ensures Creation(Sketch(p), Sketched(p)).Valid() && OpeningOk(Sketch(p))
  {
    hide CreateGraphCommand.Valid, OpenedWith, DecidedWith, Progress.GatePart, Progress.ToolPart, HookOk;
    assert Creation(Sketch(p), Sketched(p)) == p.Creation();
  }

  lemma RequestedTool(p: Progress)
    requires p.Ok()
    ensures DecidedOk(Sketch(p), Sketched(p))
  {
    hide CreateGraphCommand.Valid, OpenedWith, DecidedWith, Progress.ToolPart, HookOk, GatedWith;
  }

  // ----- Task, unit and history -----

  // The hook changes neither what the Task nor what the unit is about.
  lemma CurrentFacts(p: Progress)
    requires p.Ok()
    ensures var (task, unit) := p.Current();
            && task.taskId == p.task.taskId && task.owner == p.task.owner && task.createdAt == p.task.createdAt
            && unit.unitId == p.unit.unitId && unit.taskId == p.unit.taskId && unit.goalText == p.unit.goalText
            && unit.goalSourceRefs == p.unit.goalSourceRefs && unit.bindingRefs == p.unit.bindingRefs
            && unit.observationRefs == []
  {
    hide CreateGraphCommand.Valid, OpenedWith, DecidedWith, Progress.ToolPart, Progress.GatePart;
    SketchCreates(p);
    CreationFacts(Sketch(p), Sketched(p));
  }

  lemma LatestOfHalted(p: Progress)
    requires p.Ok()
    ensures LatestChildAgrees(Some(p.record), map[p.delta.deltaId := p.delta], p.Current().1)
  {
    hide Creation, CreateGraphCommand.Valid, UnderstandingRecord.MessageRefs, UnderstandingRecord.Valid, ByCandidate, Child,
      CandidateIds, ChildrenOf, DeltaChains.InOrder, Links, Progress.Ok;
    var t, w := Sketch(p), Sketched(p);
    SketchCreates(p);
    CurrentFacts(p);
    CreationFacts(t, w);
    OneCandidate(t, w);
    OneChild(w, CandidateIds(w.record.candidates));
    var deltas := map[p.delta.deltaId := p.delta];
    forall children | ByCandidate(deltas, children) ensures children == Child(w) { ChildrenAre(w, children); }
  }

  lemma UnitOfHalted(p: Progress)
    requires p.Ok() && UnitsOk(p.Graph().tasks, p.Graph().units)
    ensures UnitCloses(map[p.task.taskId := p.Current().0], p.Current().1) && p.Current().1.taskId == p.task.taskId
  {
    hide CreateGraphCommand.Valid, OpenedWith, DecidedWith, Progress.ToolPart, Progress.GatePart, Progress.Ok, Creation,
      UnderstandingRecord.MessageRefs, UnderstandingRecord.Valid;
    SketchCreates(p);
    CurrentFacts(p);
    CreationFacts(Sketch(p), Sketched(p));
    assert UnitOk(p.Graph().tasks, p.unit.unitId, p.Graph().units[p.unit.unitId]);
  }

  lemma RecordsOfHalted(p: Progress)
    requires p.Ok() && UnitsOk(p.Graph().tasks, p.Graph().units)
    requires TasksOk(p.conversation.owner, p.Graph().tasks, p.Graph().history)
    ensures var g := p.Graph();
            && UnderstandingCloses(g.run, Only(p.user.messageId, p.user), g.understanding, g.deltas, g.bindings, g.tasks)
            && TasksClose(g.conversation, g.run, g.understanding, g.deltas, g.tasks, g.links, g.convLinks)
            && UnitsClose(g.understanding, g.deltas, g.tasks, g.units)
  {
    hide CreateGraphCommand.Valid, Progress.Ok, Creation, UnderstandingCloses, TasksClose, UnitsClose, LatestChildAgrees,
      FirstChildHasBase, UnitCloses, UnderstandingRecord.MessageRefs, UnderstandingRecord.Valid, Progress.Trace, Chain;
    var t, w, g := Sketch(p), Sketched(p), p.Graph();
    SketchCreates(p);
    CreationFacts(t, w);
    CurrentFacts(p);
    assert TaskOk(p.conversation.owner, p.task.taskId, g.tasks[p.task.taskId], g.history[p.task.taskId]);
    UnderstandingOfWork(t, w, g.tasks);
    FirstOfWork(t, w);
    RunIsActive(p);
    SingleTask(p.conversation, p.running, Some(p.record), p.delta, p.Current().0, p.ActiveLink(), p.convLink);
    LatestOfHalted(p);
    UnitOfHalted(p);
    SingleUnit(Some(p.record), p.delta, p.Current().0, p.Current().1);
  }

  lemma RunIsActive(p: Progress)
    requires p.Ok()
    ensures p.running.Active() && p.running.conversationId == Some(p.conversation.conversationId)
    ensures p.user.conversationId == p.conversation.conversationId
  {
    hide CreateGraphCommand.Valid, OpenedWith, DecidedWith, Progress.ToolPart, Progress.GatePart, HookOk;
  }

  lemma HistoryOfHalted(p: Progress)
    requires p.Ok() && TasksOk(p.conversation.owner, p.Graph().tasks, p.Graph().history)
    requires HistoryUnitsOk(p.Graph().units, p.Graph().history)
    ensures var g := p.Graph(); HistoriesClose(g.understanding, g.deltas, g.tasks, g.units, g.history)
  {
    hide CreateGraphCommand.Valid, Progress.Ok, Creation, HistoriesClose, Chain, CompleteHistory,
      UnderstandingRecord.MessageRefs, UnderstandingRecord.Valid, Progress.Trace;
    var g, t := p.Graph(), p.task.taskId;
    SketchCreates(p);
    CreationFacts(Sketch(p), Sketched(p));
    CurrentFacts(p);
    assert TaskOk(p.conversation.owner, t, g.tasks[t], g.history[t]) && TransitionsOf(g.units, t, g.history[t]);
    ChainIsComplete(g.tasks[t], g.history[t]);
    ChainNames(g.tasks[t], g.history[t]);
    SingleHistory(Some(p.record), p.delta, p.Current().0, p.Current().1, p.Transitions());
  }

  // ----- Manifest, gate and call -----

  lemma ManifestOfHalted(p: Progress, tasks: map<Id, Task>, history: map<Id, seq<Transition>>, observations: map<Id, Observation>)
    requires OpenedWith(p.running.runId, p.user, p.manifest, p.opening) && p.tool.None?
    ensures ManifestsClose(p.running, tasks, history, observations, p.Manifests())
  {
  }

  lemma GateOfHalted(p: Progress)
    requires p.tool.None? && (p.gate.Some? ==> p.GatePart(p.gate.value.0, p.gate.value.1))
    ensures GatesClose(p.Gates(), p.Manifests())
  {
    hide GateDecision.Valid;
  }

  lemma CallOfHalted(p: Progress, c: ToolCall, xs: seq<Attempt>, tasks: map<Id, Task>, units: map<Id, RequestUnit>)
    requires OpenCall(p, c, xs) && p.GatePart(p.gate.value.0, p.gate.value.1) && p.tool.None?
    requires p.task.taskId in tasks && 1 <= tasks[p.task.taskId].version
    requires p.unit.unitId in units && units[p.unit.unitId].taskId == p.task.taskId
    requires units[p.unit.unitId].bindingRefs == [p.binding.bindingId]
    ensures CallsClose(p.running, tasks, units, p.Manifests(), p.Gates(), map[c.callId := c])
    ensures AttemptsClose(map[c.callId := c], map[c.callId := xs])
  {
    hide GateDecision.Valid;
  }

  // ----- The trace -----

  // What one event of the turn refers to.
  predicate Local(p: Progress, e: TraceEvent) {
    && CallStatusOf(e.kind).None? && !e.kind.ToolResultNormalized? && !e.kind.ObservationRecorded?
    && (e.messageRef.Some? ==> e.messageRef.value == p.user.messageId)
    && (e.toolsetHash.Some? ==> e.toolsetHash.value == p.manifest.toolsetHash)
    && (e.inputBindingRef.Some? ==> e.inputBindingRef.value == p.binding.bindingId)
    && (forall b :: b in e.bindingRefs ==> b == p.binding.bindingId)
    && e.observationRef.None?
  }

  predicate AllLocal(p: Progress, es: seq<TraceEvent>) { forall e :: e in es ==> Local(p, e) }

  lemma OpeningIsLocal(p: Progress)
    requires OpenedWith(p.running.runId, p.user, p.manifest, p.opening)
    ensures AllLocal(p, p.opening) && forall e :: e in p.opening ==> !e.kind.GateDecisionRecorded?
  {
  }

  lemma DecidedIsLocal(p: Progress)
    requires DecidedWith(p.running.runId, p.manifest, p.record, p.delta, p.binding, p.unit, p.requested, p.decided)
    requires p.record.messageRef == p.user.messageId == p.delta.messageRef
    ensures AllLocal(p, p.decided) && forall e :: e in p.decided ==> !e.kind.GateDecisionRecorded?
  {
  }

  lemma HookIsLocal(p: Progress)
    requires p.hook.Some? && HookOk(p.running.runId, p.task, p.unit, p.hook.value.0, p.hook.value.1)
    ensures Local(p, p.hook.value.1) && !p.hook.value.1.kind.GateDecisionRecorded?
  {
    hide StepOk;
  }

  lemma GateIsLocal(p: Progress)
    requires p.gate.Some? && p.GatePart(p.gate.value.0, p.gate.value.1)
    ensures Local(p, p.gate.value.1) && p.gate.value.1.kind.GateDecisionRecorded?
  {
    hide GateDecision.Valid;
  }

  function BeforeGate(p: Progress): seq<TraceEvent> {
    p.opening + p.decided + if p.hook.Some? then [p.hook.value.1] else []
  }

  function GateTrace(p: Progress): seq<TraceEvent> { if p.gate.Some? then [p.gate.value.1] else [] }

  lemma TraceIsLocal(p: Progress)
    requires p.Ok() && p.tool.None?
    ensures p.Trace() == BeforeGate(p) + GateTrace(p)
    ensures AllLocal(p, p.Trace()) && forall e :: e in BeforeGate(p) ==> !e.kind.GateDecisionRecorded?
  {
    hide Local, CreateGraphCommand.Valid, OpenedWith, DecidedWith, HookOk, Progress.GatePart, Progress.ToolPart,
      Progress.RunningOk, Creation, UnderstandingRecord.Valid, UnderstandingRecord.MessageRefs;
    SketchCreates(p);
    CreationFacts(Sketch(p), Sketched(p));
    OpeningIsLocal(p);
    DecidedIsLocal(p);
    if p.hook.Some? { HookIsLocal(p); }
    if p.gate.Some? { GateIsLocal(p); }
  }

  lemma NothingOfCalls(p: Progress, trace: seq<TraceEvent>)
    requires AllLocal(p, trace)
    ensures OfKind(trace, ToolResultNormalized) == [] && OfKind(trace, ObservationRecorded) == []
    ensures forall k :: LifecycleOf(trace, k) == []
  {
    hide OfKind, LifecycleOf;
    OfKindNone(trace, ToolResultNormalized);
    OfKindNone(trace, ObservationRecorded);
    forall k ensures LifecycleOf(trace, k) == [] { LifecycleNone(trace, k); }
  }

  lemma GateEventOfHalted(p: Progress, units: map<Id, RequestUnit>)
    requires p.Ok() && p.tool.None?
    requires p.unit.unitId in units && units[p.unit.unitId].bindingRefs == [p.binding.bindingId]
    ensures GateEventsClose(p.Gates(), p.Manifests(), units, p.Trace())
  {
    hide Progress.Ok, Progress.Trace, OfKind, Viewed, Owners, InvalidOwners, CrossUnit, EventView, RecordView, AllLocal, BeforeGate;
    TraceIsLocal(p);
    OfKindConcat(BeforeGate(p), GateTrace(p), GateDecisionRecorded);
    OfKindNone(BeforeGate(p), GateDecisionRecorded);
    if p.gate.Some? {
      var d, e := p.gate.value.0, p.gate.value.1;
      OneEvent(e, GateDecisionRecorded);
      GateView(p);
      TurnClosure.OneViewed(e);
      TurnClosure.OneOwner(d);
      TurnClosure.NotCross(e, units);
      assert OfKind(p.Trace(), GateDecisionRecorded) == [e];
      assert p.Gates() == map[d.gateId := d] && p.manifest.manifestId in p.Manifests();
    } else {
      OfKindNone([], GateDecisionRecorded);
    }
  }

  lemma GateView(p: Progress)
    requires p.Ok() && p.tool.None? && p.gate.Some?
    ensures var (d, e) := p.gate.value;
            && e.kind.GateDecisionRecorded? && e.taskId.Some? && e.unitId == Some(p.unit.unitId)
            && e.manifestId == Some(p.manifest.manifestId) && e.bindingRefs == [p.binding.bindingId]
            && EventView(e) == RecordView(d)
    ensures p.manifest.taskRef.None?
  {
    hide GateDecision.Valid, CreateGraphCommand.Valid, DecidedWith, HookOk, Progress.ToolPart, Progress.RunningOk;
  }

  lemma EventsOfHalted(p: Progress, g: RunGraph)
    requires p.Ok() && p.tool.None? && Recorded(Sketch(p), Sketched(p), g)
    ensures forall i :: 0 <= i < |p.Trace()| ==> EventCloses(g, p.Trace()[i])
  {
    hide EventCloses, CreateGraphCommand.Valid, OpenedWith, DecidedWith, HookOk, Progress.GatePart, Progress.ToolPart,
      Progress.RunningOk, Creation, Recorded, OpeningOk, DecidedOk;
    var t, w := Sketch(p), Sketched(p);
    SketchCreates(p);
    RequestedTool(p);
    ManifestRecorded(t, w, g);
    OpeningEventsClose(t, g);
    DecidedEventsClose(t, w, g);
    if p.hook.Some? { HookEventCloses(p, g); }
    if p.gate.Some? { GateEventStands(p, g); }
  }

  lemma ManifestRecorded(t: Turn, w: Work, g: RunGraph)
    requires Recorded(t, w, g)
    ensures g.run == t.terminal && t.manifest.manifestId in g.manifests && g.manifests[t.manifest.manifestId] == t.manifest
  {
  }

  lemma HookEventCloses(p: Progress, g: RunGraph)
    requires Recorded(Sketch(p), Sketched(p), g) && p.hook.Some?
    requires HookOk(p.running.runId, p.task, p.unit, p.hook.value.0, p.hook.value.1)
    ensures EventCloses(g, p.hook.value.1)
  {
    hide EventCloses, Recorded, StepOk;
    UnitChangedCloses(Sketch(p), Sketched(p), g, p.hook.value.1.eventId, p.hook.value.0.transition.changedAt);
  }

  lemma GateEventStands(p: Progress, g: RunGraph)
    requires Recorded(Sketch(p), Sketched(p), g) && p.gate.Some? && p.GatePart(p.gate.value.0, p.gate.value.1) && p.tool.None?
    ensures EventCloses(g, p.gate.value.1)
  {
    hide EventCloses, Recorded, GatedWith;
    GateEventCloses(Sketch(p), Sketched(p), g);
  }

  // ----- References -----

  lemma LocalReferences(p: Progress, trace: seq<TraceEvent>)
    requires AllLocal(p, trace)
    ensures TraceMessages(trace) <= {p.user.messageId} && TraceBindings(trace) <= {p.binding.bindingId}
    ensures TraceObservations(trace) == {}
    ensures forall e :: e in trace && e.toolsetHash.Some? ==> e.toolsetHash.value == p.manifest.toolsetHash
  {
  }

  lemma MessagesOfHalted(p: Progress, g: RunGraph)
    requires p.Ok() && p.tool.None? && g == p.Graph().(calls := g.calls, attempts := g.attempts)
    ensures ReferencedMessages(g) == {p.user.messageId}
  {
    hide Progress.Ok, Progress.Trace, AllLocal, UnderstandingMessages, TraceMessages, TraceBindings, TraceObservations,
      ReferencedMessages, Creation, CreateGraphCommand.Valid, UnderstandingRecord.Valid, UnderstandingRecord.MessageRefs;
    var t, w := Sketch(p), Sketched(p);
    SketchCreates(p);
    CreationFacts(t, w);
    InputSources(t, w);
    CurrentFacts(p);
    TraceIsLocal(p);
    LocalReferences(p, p.Trace());
    FirstManifestOf(p);
    assert p.manifest.manifestId in g.manifests;
    OneMessage(g, p.user.messageId);
  }

  lemma FirstManifestOf(p: Progress)
    requires p.Ok()
    ensures p.manifest.messageRefs == [p.user.messageId] && p.manifest.observationRefs == [] && p.manifest.taskRef.None?
  {
    hide CreateGraphCommand.Valid, DecidedWith, HookOk, Progress.GatePart, Progress.ToolPart, Progress.RunningOk;
  }

  lemma BindingsOfHalted(p: Progress, g: RunGraph)
    requires p.Ok() && p.tool.None? && g == p.Graph().(calls := g.calls, attempts := g.attempts)
    requires forall k :: k in g.calls ==> g.calls[k].bindingRefs == [p.binding.bindingId]
    ensures ReferencedBindings(g) == {p.binding.bindingId}
  {
    hide Progress.Ok, Progress.Trace, AllLocal, TraceMessages, TraceBindings, TraceObservations, ReferencedBindings,
      Creation, CreateGraphCommand.Valid, UnderstandingRecord.Valid, UnderstandingRecord.MessageRefs;
    SketchCreates(p);
    CreationFacts(Sketch(p), Sketched(p));
    CurrentFacts(p);
    TraceIsLocal(p);
    LocalReferences(p, p.Trace());
    if p.gate.Some? { GateRefs(p); }
    assert p.delta.deltaId in g.deltas;
    OneBinding(g, p.binding.bindingId);
  }

  lemma GateRefs(p: Progress)
    requires p.Ok() && p.gate.Some?
    ensures p.gate.value.0.bindingRefs == [p.binding.bindingId]
  {
    hide GateDecision.Valid, CreateGraphCommand.Valid, OpenedWith, DecidedWith, HookOk, Progress.ToolPart, Progress.RunningOk;
  }

  lemma OthersOfHalted(p: Progress, g: RunGraph)
    requires p.Ok() && p.tool.None? && g == p.Graph().(calls := g.calls, attempts := g.attempts)
    ensures ReferencedObservations(g) == {} && ReferencedArtifacts(g) == {p.manifest.toolsetHash}
    ensures g.observations == map[]
  {
    hide Progress.Trace, AllLocal, TraceMessages, TraceBindings, TraceObservations, CreateGraphCommand.Valid, OpenedWith,
      DecidedWith, HookOk, Progress.GatePart, Progress.ToolPart, Progress.RunningOk;
    CurrentFacts(p);
    TraceIsLocal(p);
    LocalReferences(p, p.Trace());
    FirstManifestOf(p);
    assert p.manifest.manifestId in g.manifests;
  }

  lemma ReferencesOfHalted(p: Progress, g: RunGraph)
    requires p.Ok() && p.tool.None? && g == p.Graph().(calls := g.calls, attempts := g.attempts)
    requires forall k :: k in g.calls ==> g.calls[k].bindingRefs == [p.binding.bindingId]
    ensures ReferencesExact(Evidence(g, Only(p.user.messageId, p.user), {p.manifest.toolsetHash}))
  {
    hide Progress.Ok, Progress.Trace, ReferencedMessages, ReferencedBindings, ReferencedObservations, ReferencedArtifacts,
      ExactFamily, Creation, CreateGraphCommand.Valid, UnderstandingRecord.Valid, UnderstandingRecord.MessageRefs;
    SketchCreates(p);
    CreationFacts(Sketch(p), Sketched(p));
    MessagesOfHalted(p, g);
    BindingsOfHalted(p, g);
    OthersOfHalted(p, g);
    assert BindingChains(g.bindings).Keys == {p.binding.bindingId};
    FlatFamily(BindingChains(g.bindings), {p.binding.bindingId});
    FlatFamily(ObservationChains(g.observations), {});
  }

  // ----- The whole -----

  lemma HaltedFields(p: Progress, open: Open)
    requires Halted(p, open)
    ensures var g := HaltedGraph(p, open);
            && g == p.Graph().(calls := g.calls, attempts := g.attempts) && g.trace == p.Trace() && g.run == p.running
            && g.gates == p.Gates() && g.manifests == p.Manifests() && g.bindings == map[p.binding.bindingId := p.binding]
            && g.units == map[p.unit.unitId := p.Current().1] && g.tasks == map[p.task.taskId := p.Current().0]
            && g.calls == (if open.Some? then map[open.value.0.callId := open.value.0] else map[])
            && g.attempts == (if open.Some? then map[open.value.0.callId := open.value.1] else map[])
    ensures p.Ok() && p.tool.None? && (open.Some? ==> OpenCall(p, open.value.0, open.value.1))
  {
    hide Progress.Ok, Progress.Trace, OpenCall, Progress.Gates, Progress.Manifests;
  }

  lemma HaltedIsRecorded(p: Progress, open: Open)
    requires Halted(p, open)
    ensures Recorded(Sketch(p), Sketched(p), HaltedGraph(p, open))
  {
    hide Progress.Ok, Progress.Trace, OpenCall, Halted, Creation, CreateGraphCommand.Valid, UnderstandingRecord.Valid,
      UnderstandingRecord.MessageRefs;
    HaltedFields(p, open);
    SketchCreates(p);
    CreationFacts(Sketch(p), Sketched(p));
    CurrentFacts(p);
  }

  lemma OkParts(p: Progress)
    requires p.Ok()
    ensures OpenedWith(p.running.runId, p.user, p.manifest, p.opening)
    ensures p.gate.Some? ==> p.GatePart(p.gate.value.0, p.gate.value.1)
  {
    hide CreateGraphCommand.Valid, OpenedWith, DecidedWith, HookOk, Progress.GatePart, Progress.ToolPart, Progress.RunningOk;
  }

  lemma ToolsOfHalted(p: Progress, open: Open)
    requires Halted(p, open) && 1 <= p.Current().0.version
    ensures var g := HaltedGraph(p, open);
            && ManifestsClose(g.run, g.tasks, g.history, g.observations, g.manifests) && GatesClose(g.gates, g.manifests)
            && CallsClose(g.run, g.tasks, g.units, g.manifests, g.gates, g.calls) && AttemptsClose(g.calls, g.attempts)
            && GateEventsClose(g.gates, g.manifests, g.units, g.trace)
            && (forall k :: k in g.calls ==> g.calls[k].bindingRefs == [p.binding.bindingId])
  {
    hide Progress.Ok, Progress.Trace, Halted, Progress.Gates, Progress.Manifests, ManifestsClose, GatesClose, AttemptsClosed,
      GateEventsClose, CallCloses, Progress.GatePart, OpenedWith, Creation, CreateGraphCommand.Valid,
      UnderstandingRecord.Valid, UnderstandingRecord.MessageRefs, HaltedGraph;
    var g := HaltedGraph(p, open);
    HaltedFields(p, open);
    OkParts(p);
    SketchCreates(p);
    CreationFacts(Sketch(p), Sketched(p));
    CurrentFacts(p);
    ManifestOfHalted(p, g.tasks, g.history, g.observations);
    GateOfHalted(p);
    GateEventOfHalted(p, g.units);
    if open.Some? { CallOfHalted(p, open.value.0, open.value.1, g.tasks, g.units); }
  }

  lemma FamiliesOfHalted(p: Progress, open: Open)
    requires hide *; Halted(p, open) && TasksOk(p.conversation.owner, p.Graph().tasks, p.Graph().history)
    requires UnitsOk(p.Graph().tasks, p.Graph().units) && HistoryUnitsOk(p.Graph().units, p.Graph().history)
    ensures var g := HaltedGraph(p, open);
            && RootsClose(g.conversation, g.run, Only(p.user.messageId, p.user))
            && UnderstandingCloses(g.run, Only(p.user.messageId, p.user), g.understanding, g.deltas, g.bindings, g.tasks)
            && TasksClose(g.conversation, g.run, g.understanding, g.deltas, g.tasks, g.links, g.convLinks)
            && UnitsClose(g.understanding, g.deltas, g.tasks, g.units)
            && HistoriesClose(g.understanding, g.deltas, g.tasks, g.units, g.history)
            && (forall b :: b in g.bindings ==> Distinct(g.bindings[b].sourceRefs))
            && (1 <= p.Current().0.version)
  {
    hide Progress.Ok, Progress.Trace, Halted, Progress.Graph, HaltedGraph, UnderstandingCloses, TasksClose, UnitsClose,
      HistoriesClose, Chain, HistoryUnitsOk, UnitsOk;
    HaltedFields(p, open);
    GraphOfHalted(p);
    RunIsActive(p);
    assert TaskOk(p.conversation.owner, p.task.taskId, p.Graph().tasks[p.task.taskId], p.Graph().history[p.task.taskId]);
    RecordsOfHalted(p);
    HistoryOfHalted(p);
    SourcesOfHalted(p);
  }

  lemma NothingToClose(calls: map<Id, ToolCall>, attempts: map<Id, seq<Attempt>>, trace: seq<TraceEvent>)
    requires OfKind(trace, ToolResultNormalized) == [] && forall k :: LifecycleOf(trace, k) == []
    ensures NormalizedClose(calls, attempts, trace) && OpenCallsUntraced(calls, trace)
  {
    hide OfKind, LifecycleOf, NormalizedAgrees;
  }

  lemma TraceOfHalted(p: Progress, open: Open)
    requires hide *; Halted(p, open)
    ensures var g := HaltedGraph(p, open);
            && (forall i :: 0 <= i < |g.trace| ==> EventCloses(g, g.trace[i]))
            && NormalizedClose(g.calls, g.attempts, g.trace) && OpenCallsUntraced(g.calls, g.trace) && g.observations == map[]
  {
    hide Progress.Ok, Progress.Trace, Halted, Progress.Graph, HaltedGraph, EventCloses, Recorded, OfKind, LifecycleOf, AllLocal,
      NormalizedClose, OpenCallsUntraced, ReferencedObservations, ReferencedArtifacts;
    var g := HaltedGraph(p, open);
    HaltedFields(p, open);
    HaltedIsRecorded(p, open);
    EventsOfHalted(p, g);
    TraceIsLocal(p);
    NothingOfCalls(p, p.Trace());
    NothingToClose(g.calls, g.attempts, p.Trace());
    OthersOfHalted(p, g);
  }

  lemma HaltedRests(p: Progress, open: Open)
    requires hide *; Halted(p, open) && Inv(HaltedGraph(p, open))
    ensures RestCloses(Evidence(HaltedGraph(p, open), Only(p.user.messageId, p.user), {p.manifest.toolsetHash}))
  {
    hide Progress.Ok, Progress.Trace, Halted, Progress.Graph, HaltedGraph, ManifestsClose, GatesClose, AttemptsClose,
      GateEventsClose, CallsClose, OpenCall, UnderstandingCloses, TasksClose, UnitsClose, HistoriesClose, EventCloses, RootsClose,
      NormalizedClose, OpenCallsUntraced, ReferencesExact, TasksOk, CallsOk, LinksOk, ConvLinksOk, RunOk, ObservationsOk,
      TraceOk, AssistantReplied, HistoryUnitsOk, UnitsOk, Distinct;
    var g := HaltedGraph(p, open);
    HaltedFields(p, open);
    GraphOfHalted(p);
    FamiliesOfHalted(p, open);
    ToolsOfHalted(p, open);
    TraceOfHalted(p, open);
    ReferencesOfHalted(p, g);
  }

  lemma GraphOfHalted(p: Progress)
    ensures var g := p.Graph();
            && g.conversation == p.conversation && g.run == p.running && p.task.taskId in g.tasks && p.task.taskId in g.history
            && g.tasks[p.task.taskId] == p.Current().0
  {
  }

  lemma SourcesOfHalted(p: Progress)
    requires p.Ok()
    ensures p.binding.sourceRefs == [p.user.messageId]
  {
    hide Progress.Ok, Creation, CreateGraphCommand.Valid, UnderstandingRecord.Valid, UnderstandingRecord.MessageRefs;
    SketchCreates(p);
    InputSources(Sketch(p), Sketched(p));
  }

  // A turn stopped at work on its Task, with its call not made or still open, closes
  // once it is recovered, whenever that is.
  lemma HaltedTurnCloses(p: Progress, open: Open, c: RecoveryCommand, at: Time)
    requires hide *; Halted(p, open) && Inv(HaltedGraph(p, open)) && AppliedTo(HaltedGraph(p, open), c, at)
    ensures Closed(Evidence(RecoverWrites(HaltedGraph(p, open), c), Only(p.user.messageId, p.user), {p.manifest.toolsetHash}))
  {
    hide Progress.Ok, Progress.Trace, Halted, Inv, AppliedTo, RecoverWrites, Closed, RestCloses, HaltedGraph, OpenCall, OfKind,
      LifecycleOf, AllLocal, Progress.Graph, LifecycleCloses, ReferencedObservations, ReferencedArtifacts;
    var g := HaltedGraph(p, open);
    HaltedFields(p, open);
    HaltedRests(p, open);
    FirstManifestOf(p);
    HaltedManifests(p);
    OpenOnly(p, open);
    TraceIsLocal(p);
    NothingOfCalls(p, p.Trace());
    OthersOfHalted(p, g);
    RecoveredRunCloses(g, c, at, Only(p.user.messageId, p.user), {p.manifest.toolsetHash});
  }

  lemma HaltedManifests(p: Progress)
    requires p.tool.None?
    ensures p.Manifests() == map[p.manifest.manifestId := p.manifest]
  {
  }

  lemma OpenOnly(p: Progress, open: Open)
    requires open.Some? ==> OpenCall(p, open.value.0, open.value.1)
    ensures open.Some? ==> open.value.0.status.Active()
  {
  }
}
