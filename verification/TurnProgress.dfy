// A turn in progress: what the handler has written so far of a Run with a Task.

module TurnProgress {
  import opened Records
  import opened Understanding
  import opened Commands
  import opened RunStore
  import opened Turns

  datatype Progress = Progress(
    conversation: Conversation, user: Message, running: Run, manifest: ContextManifest, opening: seq<TraceEvent>,
    record: UnderstandingRecord, delta: AcceptedDelta, binding: InputBinding, task: Task, unit: RequestUnit,
    convLink: ConversationTaskLink, requested: string, decided: seq<TraceEvent>, hook: Option<(Moved, TraceEvent)>,
    gate: Option<(GateDecision, TraceEvent)>, tool: Option<Tool>, found: Option<Observation>)
  {
    function ActiveLink(): RunTaskLink { RunTaskLink(running.runId, task.taskId, None, None) }

    function Current(): (Task, RequestUnit) {
      if hook.Some? then (hook.value.0.task, hook.value.0.unit) else (task, unit)
    }

    function Transitions(): seq<Transition> { if hook.Some? then [hook.value.0.transition] else [] }

    function Manifests(): map<Id, ContextManifest> {
      if tool.Some? && tool.value.seen.Some?
      then map[manifest.manifestId := manifest][tool.value.seen.value.manifest.manifestId := tool.value.seen.value.manifest]
      else map[manifest.manifestId := manifest]
    }

    function Gates(): map<Id, GateDecision> {
      if gate.Some? then map[gate.value.0.gateId := gate.value.0] else map[]
    }

    function Calls(): map<Id, ToolCall> { if tool.Some? then map[tool.value.call.callId := tool.value.call] else map[] }

    function Attempts(): map<Id, seq<Attempt>> {
      if tool.Some? then map[tool.value.call.callId := [tool.value.attempt]] else map[]
    }

    function Observations(): map<Id, Observation> {
      if found.Some? then map[found.value.observationId := found.value] else map[]
    }

    function Sources(): map<Id, Id> {
      if found.Some? && tool.Some? then map[found.value.observationId := tool.value.call.callId] else map[]
    }

    function ToolTrace(): seq<TraceEvent> {
      match tool
      case None => []
      case Some(t) =>
        [t.created, t.started, t.ended, t.normalized]
        + (match t.seen
           case None => []
           case Some(s) => [s.observed, s.assembled] + if s.plan.Some? then [s.plan.value] else [])
    }

    function Trace(): seq<TraceEvent> {
      opening + decided + (if hook.Some? then [hook.value.1] else []) + (if gate.Some? then [gate.value.1] else [])
      + ToolTrace()
    }

    function Graph(): RunGraph {
      RunGraph(
        conversation, running, map[user.messageId := user], Some(record), map[delta.deltaId := delta],
        map[binding.bindingId := binding], map[task.taskId := Current().0], map[unit.unitId := Current().1],
        map[task.taskId := Transitions()], map[task.taskId := convLink], map[task.taskId := ActiveLink()],
        Manifests(), Gates(), Calls(), Attempts(), Observations(), Sources(), Trace())
    }

    function Creation(): CreateGraphCommand {
      CreateGraphCommand(conversation.owner, conversation, [user], running, record, delta, task, unit, binding,
                         unit.unitId, convLink, ActiveLink())
    }

    // Everything written so far fits together.
    predicate Ok() {
      && RunningOk() && Creation().Valid()
      && OpenedWith(running.runId, user, manifest, opening)
      && DecidedWith(running.runId, manifest, record, delta, binding, unit, requested, decided)
      && (hook.Some? ==> HookOk(running.runId, task, unit, hook.value.0, hook.value.1))
      && (gate.Some? ==> GatePart(gate.value.0, gate.value.1))
      && (tool.Some? ==> ToolPart(tool.value))
      && (found.Some? ==> tool.Some?)
    }

    predicate RunningOk() {
      && running.Valid() && running.status.RunRunning? && running.incompleteReason.None?
      && running.conversationId == Some(conversation.conversationId)
      && user.conversationId == conversation.conversationId && user.direction.FromUser?
    }

    predicate GatePart(d: GateDecision, e: TraceEvent) {
      && GatedWith(running.runId, manifest, binding, unit, d, e) && d.requestedTool == requested
      && (hook.Some? ==> !d.accepted)
    }

    predicate ToolPart(x: Tool) {
      && gate.Some? && gate.value.0.accepted && hook.None?
      && CalledWith(running.runId, manifest, task, unit, gate.value.0, binding, x)
      && (x.seen.Some? ==>
            found == Some(x.seen.value.observation) && SeenWith(running.runId, user, manifest, task, unit, x, x.seen.value))
    }

    // The finished turn.
    function Work(end: Moved, endEvent: TraceEvent): Turns.Work
      requires gate.Some?
    {
      Turns.Work(record, delta, binding, task, unit, convLink, ActiveLink().(result := Some(end.task.version)), decided, hook,
                 gate.value.0, gate.value.1, tool, end, endEvent)
    }

    function Turn(end: Moved, rendered: TraceEvent, endEvent: TraceEvent, terminal: Run, assistant: Message, stop: TraceEvent): Turns.Turn
      requires gate.Some?
    {
      Turns.Turn(conversation, user, manifest, opening, Some(Work(end, endEvent)), rendered, terminal, assistant, stop)
    }
  }

  // The graph of an opened Run that has no Task.
  function OpenGraph(conversation: Conversation, run: Run, user: Message, m: ContextManifest, es: seq<TraceEvent>): RunGraph {
    Inserted(conversation, run, user).(manifests := map[m.manifestId := m], trace := es)
  }

  ghost predicate FinishedTurn(g: RunGraph) { exists t: Turn :: TurnOk(t) && g == t.Graph() }

  // ----- How the graph grows -----

  lemma CreatedGraph(p: Progress)
    requires p.hook.None? && p.gate.None? && p.tool.None? && p.found.None? && p.decided == []
    ensures CreateWrites(OpenGraph(p.conversation, p.running, p.user, p.manifest, p.opening), p.Creation()) == p.Graph()
  {
    assert p.Trace() == p.opening;
  }

  lemma DecidedGraph(p: Progress, e: TraceEvent)
    requires p.hook.None? && p.gate.None? && p.tool.None? && p.found.None?
    ensures AppendWrites(p.Graph(), e) == p.(decided := p.decided + [e]).Graph()
  {
    assert p.Trace() + [e] == p.(decided := p.decided + [e]).Trace();
  }

  lemma HookedGraph(p: Progress, c: TaskTransitionCommand, e: TraceEvent)
    requires p.hook.None? && p.gate.None? && p.tool.None? && p.found.None?
    requires c.expectedTask == p.task && c.expectedUnit == p.unit
    ensures TransitMatches(p.Graph(), c)
    ensures AppendWrites(Advance(p.Graph(), c), e) == p.(hook := Some((Moved(c.nextTask, c.nextUnit, c.transition), e))).Graph()
  {
    var p' := p.(hook := Some((Moved(c.nextTask, c.nextUnit, c.transition), e)));
    assert p.Trace() + [e] == p'.Trace();
    assert [] + [c.transition] == p'.Transitions();
  }

  lemma GatedGraph(p: Progress, d: GateDecision, e: TraceEvent)
    requires p.gate.None? && p.tool.None? && p.found.None?
    ensures AppendWrites(AuditWrites(p.Graph(), p.Graph().manifests, p.Graph().gates[d.gateId := d]), e)
            == p.(gate := Some((d, e))).Graph()
  {
    assert p.Trace() + [e] == p.(gate := Some((d, e))).Trace();
  }

  lemma CalledGraph(p: Progress, x: Tool, o: Option<Observation>)
    requires p.tool.None? && p.found.None? && x.seen.None?
    ensures var g := CallWrites(p.Graph(), x.call, [x.attempt]);
            var h := if o.Some? then ObserveWrites(g, o.value, x.call.callId) else g;
            h.(trace := h.trace + [x.created, x.started, x.ended, x.normalized]) == p.(tool := Some(x), found := o).Graph()
  {
    var p' := p.(tool := Some(x), found := o);
    assert p.Trace() + [x.created, x.started, x.ended, x.normalized] == p'.Trace();
  }

  lemma SeenGraph(p: Progress, s: Seen)
    requires p.tool.Some? && p.tool.value.seen.None? && s.plan.None?
    ensures var g := AppendWrites(p.Graph(), s.observed);
            var h := AuditWrites(g, g.manifests[s.manifest.manifestId := s.manifest], g.gates);
            AppendWrites(h, s.assembled) == p.(tool := Some(p.tool.value.(seen := Some(s)))).Graph()
  {
    var p' := p.(tool := Some(p.tool.value.(seen := Some(s))));
    assert p.Trace() + [s.observed] + [s.assembled] == p'.Trace();
  }

  function WithPlan(p: Progress, e: TraceEvent): Progress
    requires p.tool.Some? && p.tool.value.seen.Some?
  {
    p.(tool := Some(p.tool.value.(seen := Some(p.tool.value.seen.value.(plan := Some(e))))))
  }

  lemma PlannedGraph(p: Progress, e: TraceEvent)
    requires p.tool.Some? && p.tool.value.seen.Some? && p.tool.value.seen.value.plan.None?
    ensures AppendWrites(p.Graph(), e) == WithPlan(p, e).Graph()
  {
    assert p.Trace() + [e] == WithPlan(p, e).Trace();
  }

  // ----- The end of a turn -----

  // An Observation is presented before the turn ends.
  predicate AllSeen(p: Progress) {
    if p.tool.Some? && p.tool.value.seen.Some? then p.found == Some(p.tool.value.seen.value.observation) else p.found.None?
  }

  function EndCommand(p: Progress, end: Moved, endEvent: TraceEvent, terminal: Run, assistant: Message, stop: TraceEvent,
                      result: AgentRunResult): FinalizeRunCommand
  {
    FinalizeRunCommand(
      p.running, terminal, [p.ActiveLink()], [p.ActiveLink().(result := Some(end.task.version))], [end.task],
      Some(TaskTransitionCommand(p.Current().0, end.task, p.Current().1, end.unit, end.transition)), Some(result),
      Some(assistant), [endEvent, stop])
  }

  lemma FinishedTrace(p: Progress, end: Moved, rendered: TraceEvent, endEvent: TraceEvent, terminal: Run,
                      assistant: Message, stop: TraceEvent)
    requires p.gate.Some?
    ensures p.Turn(end, rendered, endEvent, terminal, assistant, stop).Trace()
            == p.Trace() + [rendered] + [endEvent, stop]
  {
  }

  lemma EndWrites(g: RunGraph, c: FinalizeRunCommand)
    requires FinalizeMatches(g, c) && c.transition.Some? && c.message.Some?
    ensures var t := c.transition.value;
            && t.expectedTask.taskId in g.history
            && FinalizeWrites(g, c) == g.(
                 run := c.terminal, tasks := g.tasks[t.expectedTask.taskId := t.nextTask],
                 units := g.units[t.expectedUnit.unitId := t.nextUnit],
                 history := g.history[t.expectedTask.taskId := g.history[t.expectedTask.taskId] + [t.transition]],
                 links := OverwriteLinks(g.links, c.terminalLinks),
                 messages := g.messages[c.message.value.messageId := c.message.value], trace := g.trace + c.events)
  {
  }

  lemma OneLinkOverwritten(link: RunTaskLink, next: RunTaskLink)
    requires link.taskId == next.taskId
    ensures OverwriteLinks(map[link.taskId := link], [next]) == map[link.taskId := next]
  {
    assert [next][..0] == [];
    assert OverwriteLinks(map[link.taskId := link], []) == map[link.taskId := link];
  }

  // The families that the last write leaves alone are already those of the turn.
  lemma SameFamilies(p: Progress, end: Moved, rendered: TraceEvent, endEvent: TraceEvent, terminal: Run,
                     assistant: Message, stop: TraceEvent)
    requires p.gate.Some? && AllSeen(p)
    ensures var t, g := p.Turn(end, rendered, endEvent, terminal, assistant, stop).Graph(), p.Graph();
            && t.conversation == g.conversation && t.understanding == g.understanding && t.deltas == g.deltas
            && t.bindings == g.bindings && t.convLinks == g.convLinks && t.manifests == g.manifests && t.gates == g.gates
            && t.calls == g.calls && t.attempts == g.attempts && t.observations == g.observations && t.sources == g.sources
  {
    hide Turn.Trace, Progress.Trace;
  }

  lemma FinishedFields(p: Progress, end: Moved, rendered: TraceEvent, endEvent: TraceEvent, terminal: Run,
                       assistant: Message, stop: TraceEvent)
    requires p.gate.Some?
    ensures var t := p.Turn(end, rendered, endEvent, terminal, assistant, stop).Graph();
            && t.run == terminal && t.messages == map[p.user.messageId := p.user][assistant.messageId := assistant]
            && t.tasks == map[p.task.taskId := end.task] && t.units == map[p.unit.unitId := end.unit]
            && t.history == map[p.task.taskId := p.Work(end, endEvent).Transitions()]
            && t.links == map[p.task.taskId := p.ActiveLink().(result := Some(end.task.version))]
            && t.trace == p.Turn(end, rendered, endEvent, terminal, assistant, stop).Trace()
  {
    hide Turn.Manifests, Turn.Observations, Turn.Sources, Work.Transitions, Turn.Trace, Progress.ActiveLink;
  }

  lemma ProgressFields(p: Progress)
    ensures var g := p.Graph();
            && g.run == p.running && g.messages == map[p.user.messageId := p.user]
            && g.tasks == map[p.task.taskId := p.Current().0] && g.units == map[p.unit.unitId := p.Current().1]
            && g.history == map[p.task.taskId := p.Transitions()] && g.links == map[p.task.taskId := p.ActiveLink()]
            && g.trace == p.Trace()
  {
    hide Progress.Manifests, Progress.Calls, Progress.Attempts, Progress.Observations, Progress.Sources, Progress.Gates,
      Progress.Transitions, Progress.Trace, Progress.Current, Progress.ActiveLink;
  }

  // The others end as the last write leaves them.
  lemma EndedTask(p: Progress, end: Moved, rendered: TraceEvent, endEvent: TraceEvent, terminal: Run,
                  assistant: Message, stop: TraceEvent)
    requires p.gate.Some?
    ensures var t, g, k := p.Turn(end, rendered, endEvent, terminal, assistant, stop).Graph(), p.Graph(), p.task.taskId;
            && t.run == terminal && t.messages == g.messages[assistant.messageId := assistant]
            && t.tasks == g.tasks[k := end.task] && t.units == g.units[p.unit.unitId := end.unit]
  {
    hide Progress.Graph, Turn.Graph, Progress.Turn, Progress.Current, Progress.Trace, Turn.Trace, Progress.Transitions;
    FinishedFields(p, end, rendered, endEvent, terminal, assistant, stop);
    ProgressFields(p);
    Overwritten(p.task.taskId, p.Current().0, end.task);
    Overwritten(p.unit.unitId, p.Current().1, end.unit);
  }

  lemma Overwritten<T>(k: Id, a: T, b: T)
    ensures map[k := a][k := b] == map[k := b]
  {
  }

  lemma EndedHistory(p: Progress, end: Moved, rendered: TraceEvent, endEvent: TraceEvent, terminal: Run,
                     assistant: Message, stop: TraceEvent)
    requires p.gate.Some?
    ensures var t, g, k := p.Turn(end, rendered, endEvent, terminal, assistant, stop).Graph(), p.Graph(), p.task.taskId;
            && k in g.history && t.history == g.history[k := g.history[k] + [end.transition]]
            && t.links == OverwriteLinks(g.links, [p.ActiveLink().(result := Some(end.task.version))])
            && t.trace == g.trace + [rendered] + [endEvent, stop]
  {
    hide Progress.Graph, Turn.Graph, Progress.Turn, Progress.Work, Progress.Current, Progress.Trace, Turn.Trace, OverwriteLinks,
      Progress.Transitions, Work.Transitions;
    FinishedFields(p, end, rendered, endEvent, terminal, assistant, stop);
    ProgressFields(p);
    FinishedTrace(p, end, rendered, endEvent, terminal, assistant, stop);
    FinishedTransitions(p, end, endEvent);
    Overwritten(p.task.taskId, p.Transitions(), p.Transitions() + [end.transition]);
    OneLinkOverwritten(p.ActiveLink(), p.ActiveLink().(result := Some(end.task.version)));
  }

  lemma FinishedTransitions(p: Progress, end: Moved, endEvent: TraceEvent)
    requires p.gate.Some?
    ensures p.Work(end, endEvent).Transitions() == p.Transitions() + [end.transition]
  {
  }

  // The last write turns the graph so far into that of the finished turn.
  lemma FinishedGraph(p: Progress, end: Moved, rendered: TraceEvent, endEvent: TraceEvent, terminal: Run,
                      assistant: Message, stop: TraceEvent, result: AgentRunResult)
    requires p.gate.Some? && AllSeen(p)
    requires var g := AppendWrites(p.Graph(), rendered);
             FinalizeMatches(g, EndCommand(p, end, endEvent, terminal, assistant, stop, result))
    requires p.Current().0.taskId == p.task.taskId && p.Current().1.unitId == p.unit.unitId
    ensures var g := AppendWrites(p.Graph(), rendered);
            FinalizeWrites(g, EndCommand(p, end, endEvent, terminal, assistant, stop, result))
            == p.Turn(end, rendered, endEvent, terminal, assistant, stop).Graph()
  {
    hide FinalizeMatches, FinalizeWrites, Turn.Graph, Progress.Graph, OverwriteLinks, AllSeen;
    EndWrites(AppendWrites(p.Graph(), rendered), EndCommand(p, end, endEvent, terminal, assistant, stop, result));
    SameFamilies(p, end, rendered, endEvent, terminal, assistant, stop);
    EndedTask(p, end, rendered, endEvent, terminal, assistant, stop);
    EndedHistory(p, end, rendered, endEvent, terminal, assistant, stop);
  }

  // ----- The finished turn is what the evidence closure asks for -----

  lemma SameCreation(p: Progress, end: Moved, rendered: TraceEvent, endEvent: TraceEvent, terminal: Run,
                     assistant: Message, stop: TraceEvent)
    requires p.gate.Some? && p.RunningOk()
    requires terminal == p.running.(status := RunCompleted, completedAt := terminal.completedAt, stopReason := terminal.stopReason)
    ensures var t := p.Turn(end, rendered, endEvent, terminal, assistant, stop);
            Turns.Creation(t, p.Work(end, endEvent)) == p.Creation()
  {
  }

  lemma WorkIsOk(p: Progress, end: Moved, rendered: TraceEvent, endEvent: TraceEvent, terminal: Run,
                 assistant: Message, stop: TraceEvent)
    requires p.Ok() && p.gate.Some?
    requires terminal == p.running.(status := RunCompleted, completedAt := terminal.completedAt, stopReason := terminal.stopReason)
    requires StepOk(p.Current().0, p.Current().1, end)
    requires end.unit.observationRefs == (if p.tool.Some? && p.tool.value.seen.Some?
                                          then [p.tool.value.seen.value.observation.observationId] else [])
    requires endEvent == UnitChangedEvent(endEvent.eventId, end.transition.changedAt, terminal.runId, p.unit)
    ensures var t := p.Turn(end, rendered, endEvent, terminal, assistant, stop);
            OpeningOk(t) && WorkOk(t, p.Work(end, endEvent))
  {
    hide CreateGraphCommand.Valid, StepOk, OpenedWith, DecidedWith, GatedWith, HookOk, CalledWith, SeenWith, UnitChangedEvent,
      Progress.Creation, Turns.Creation, Progress.RunningOk;
    SameCreation(p, end, rendered, endEvent, terminal, assistant, stop);
  }
}
