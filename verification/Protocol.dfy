// The invariant of a Run's stored records, and its preservation by every write
// any client may send.  Nothing is assumed about who sends a write or when:
// handlers, the fault seam, executors that were cancelled and restart recovery
// may interleave in any order, lose answers, or stop for good after any write.

module Protocol {
  import opened Records
  import opened Commands
  import opened RecoveryCommands
  import opened RunStore

  // ----- What clients promise beyond the validators -----

  // A ToolCall names its Run, the current version of a Task of that Run, and
  // bindings of that Task's RequestUnit.
  predicate CallFits(g: RunGraph, c: ToolCall) {
    && c.runId == g.run.runId
    && c.taskId in g.tasks && c.validatedVersion == g.tasks[c.taskId].version
    && c.unitId in g.units && g.units[c.unitId].taskId == c.taskId
    && forall b :: b in c.bindingRefs ==> b in g.units[c.unitId].bindingRefs
  }

  // The command passes its own validator.
  predicate Validated(w: Write) {
    match w
    case Start(c) => c.Valid()
    case CreateGraph(c) => c.Valid()
    case Transit(c) => c.Valid()
    case Finalize(c) => c.Valid()
    case InsertCall(c) => c.Valid()
    case Dispatch(c) => c.Valid()
    case FinishCall(c) => c.Valid()
    case SaveObservation(c) => c.Valid()
    case SaveManifest(m) => true
    case SaveGate(d) => d.Valid()
    case AppendTrace(e) => e.Valid()
    case Recover(c) => c.Valid()
  }

  predicate Idle(g: RunGraph, taskId: Id) {
    forall k :: k in g.calls && g.calls[k].taskId == taskId ==> !g.calls[k].status.Active()
  }

  // What the store does not check.  A Task moves only while its Run is active and none
  // of its own calls is; a call fits its Task; RunStopped is written by finalization.
  predicate Fitting(g: RunGraph, w: Write) {
    match w
    case Transit(c) => g.run.Active() && Idle(g, c.expectedTask.taskId)
    case InsertCall(c) => CallFits(g, c.created)
    case AppendTrace(e) => e.runId == g.run.runId && !e.kind.RunStopped?
    case _ => true
  }

  predicate Allowed(g: RunGraph, w: Write) { Validated(w) && (Lands(g, w) ==> Fitting(g, w)) }

  // ----- The invariant -----

  // The transitions lead from a new ACTIVE Task to exactly the stored one.
  predicate Chain(t: Task, hs: seq<Transition>) {
    && t.version == |hs| + 1
    && (forall i :: 0 <= i < |hs| ==> hs[i].Valid() && hs[i].taskId == t.taskId && hs[i].result == i + 2)
    && (forall i, j | 0 <= i < |hs| && i < j < |hs| :: j == i + 1 ==>
          hs[i].to == hs[j].from && hs[i].changedAt <= hs[j].changedAt)
    && if hs == [] then t.status.TaskActive? && t.updatedAt == t.createdAt
       else && hs[0].from.TaskActive? && t.createdAt <= hs[0].changedAt
            && hs[|hs| - 1].to == t.status && hs[|hs| - 1].changedAt == t.updatedAt
  }

  predicate RunOk(convId: Id, run: Run) {
    && run.Valid()
    && run.conversationId == Some(convId)
    && (run.Active() ==> run.incompleteReason.None?)
    && (run.status.RunFailed? ==> run.stopReason.None?)
  }

  predicate TasksOk(owner: string, tasks: map<Id, Task>, history: map<Id, seq<Transition>>) {
    && history.Keys == tasks.Keys
    && forall t :: t in tasks ==> TaskOk(owner, t, tasks[t], history[t])
  }

  predicate TaskOk(owner: string, id: Id, t: Task, hs: seq<Transition>) {
    t.taskId == id && t.Valid() && t.owner == owner && Chain(t, hs)
  }

  predicate HasUnit(units: map<Id, RequestUnit>, t: Id) { exists u :: u in units && units[u].taskId == t }

  // Each Task has exactly one RequestUnit, which carries the same status and version.
  predicate UnitsOk(tasks: map<Id, Task>, units: map<Id, RequestUnit>) {
    && (forall u :: u in units ==> UnitOk(tasks, u, units[u]))
    && (forall u, v :: u in units && v in units && units[u].taskId == units[v].taskId ==> u == v)
    && (forall t :: t in tasks ==> HasUnit(units, t))
  }

  predicate UnitOk(tasks: map<Id, Task>, id: Id, u: RequestUnit) {
    && u.unitId == id && u.Valid() && u.taskId in tasks
    && u.status == tasks[u.taskId].status && u.version == tasks[u.taskId].version
  }

  predicate HistoryUnitsOk(units: map<Id, RequestUnit>, history: map<Id, seq<Transition>>) {
    forall t :: t in history ==> TransitionsOf(units, t, history[t])
  }

  predicate TransitionsOf(units: map<Id, RequestUnit>, t: Id, hs: seq<Transition>) {
    forall h :: h in hs ==> h.unitId in units && units[h.unitId].taskId == t
  }

  // A link has a result version exactly when its Run is terminal, and then it is the Task's version.
  predicate LinksOk(run: Run, tasks: map<Id, Task>, links: map<Id, RunTaskLink>) {
    && links.Keys == tasks.Keys
    && forall t :: t in tasks ==> LinkOk(run, t, tasks[t], links[t])
  }

  predicate LinkOk(run: Run, id: Id, t: Task, link: RunTaskLink) {
    && link.taskId == id && link.runId == run.runId && link.Valid()
    && (link.base.Some? ==> link.base.value <= t.version)
    && link.result == if run.Active() then None else Some(t.version)
  }

  predicate ConvLinksOk(convId: Id, tasks: map<Id, Task>, convLinks: map<Id, ConversationTaskLink>) {
    && convLinks.Keys == tasks.Keys
    && forall t :: t in convLinks ==>
         convLinks[t].taskId == t && convLinks[t].endedAt.None? && convLinks[t].conversationId == convId
  }

  predicate CallsOk(run: Run, tasks: map<Id, Task>, units: map<Id, RequestUnit>,
                    calls: map<Id, ToolCall>, attempts: map<Id, seq<Attempt>>)
  {
    && attempts.Keys == calls.Keys
    && forall c :: c in calls ==> CallOk(run, tasks, units, c, calls[c], attempts[c])
  }

  predicate CallOk(run: Run, tasks: map<Id, Task>, units: map<Id, RequestUnit>,
                   id: Id, c: ToolCall, attempts: seq<Attempt>)
  {
    && c.callId == id && CallAggregate(c, attempts).Valid()
    && CallOwned(run, tasks, units, c)
    && (c.status.Active() ==> run.status.RunRunning? && c.validatedVersion == tasks[c.taskId].version)
  }

  predicate CallOwned(run: Run, tasks: map<Id, Task>, units: map<Id, RequestUnit>, c: ToolCall) {
    && c.runId == run.runId && c.taskId in tasks
    && c.unitId in units && units[c.unitId].taskId == c.taskId
    && forall b :: b in c.bindingRefs ==> b in units[c.unitId].bindingRefs
  }

  predicate ObservationsOk(
    observations: map<Id, Observation>, sources: map<Id, Id>, calls: map<Id, ToolCall>)
  {
    && sources.Keys == observations.Keys
    && forall o :: o in sources ==>
         && sources[o] in calls
         && calls[sources[o]].status.CallSucceeded? && calls[sources[o]].effect.Read?
         && calls[sources[o]].tool == "get_order"
  }

  predicate AssistantReplied(run: Run, messages: map<Id, Message>) {
    exists m :: m in messages && messages[m].direction.FromAssistant?
                && Some(messages[m].conversationId) == run.conversationId
                && Some(messages[m].receivedAt) == run.completedAt
  }

  // One RunStopped event, bound to the Run, exactly when the Run stopped with a reason.
  predicate TraceOk(run: Run, trace: seq<TraceEvent>) {
    && CountStops(trace) == (if run.status.RunCompleted? || run.status.RunIncomplete? then 1 else 0)
    && (forall e :: e in trace && e.kind.RunStopped? ==>
          Some(e.at) == run.completedAt && e.stopReason == run.stopReason)
    && (forall e :: e in trace ==> e.runId == run.runId)
    && DistinctEvents(trace)
  }

  predicate Inv(g: RunGraph) {
    && RunOk(g.conversation.conversationId, g.run)
    && (g.run.status.RunCreated? ==> g.tasks == map[] && g.units == map[] && g.calls == map[])
    && TasksOk(g.conversation.owner, g.tasks, g.history)
    && UnitsOk(g.tasks, g.units)
    && HistoryUnitsOk(g.units, g.history)
    && LinksOk(g.run, g.tasks, g.links)
    && ConvLinksOk(g.conversation.conversationId, g.tasks, g.convLinks)
    && CallsOk(g.run, g.tasks, g.units, g.calls, g.attempts)
    && ObservationsOk(g.observations, g.sources, g.calls)
    && TraceOk(g.run, g.trace)
    && (g.run.status.RunCompleted? ==> AssistantReplied(g.run, g.messages))
  }

  // ----- Counting RunStopped events -----

  lemma {:induction false} CountStopsConcat(a: seq<TraceEvent>, b: seq<TraceEvent>)
    ensures CountStops(a + b) == CountStops(a) + CountStops(b)
  {
    if b == [] {
      assert a + b == a;
    } else {
      CountStopsConcat(a, b[..|b| - 1]);
      assert (a + b)[..|a + b| - 1] == a + b[..|b| - 1];
    }
  }

  lemma TraceGrows(old_: Run, run: Run, trace: seq<TraceEvent>, more: seq<TraceEvent>)
    requires TraceOk(old_, trace) && CountStops(trace) == 0 && run.runId == old_.runId
    requires CountStops(more) == (if run.status.RunCompleted? || run.status.RunIncomplete? then 1 else 0)
    requires forall e :: e in more ==> e.runId == run.runId && forall f :: f in trace ==> f.eventId != e.eventId
    requires forall e :: e in more && e.kind.RunStopped? ==>
               Some(e.at) == run.completedAt && e.stopReason == run.stopReason
    requires DistinctEvents(more)
    ensures TraceOk(run, trace + more)
  {
    CountStopsConcat(trace, more);
    NoStopsMeansNone(trace);
  }

  lemma {:induction false} NoStopsMeansNone(trace: seq<TraceEvent>)
    requires CountStops(trace) == 0
    ensures forall e :: e in trace ==> !e.kind.RunStopped?
  {
    if trace != [] {
      NoStopsMeansNone(trace[..|trace| - 1]);
      assert trace == trace[..|trace| - 1] + [trace[|trace| - 1]];
    }
  }

  // ----- Preservation, one write kind at a time -----

  lemma InsertedInv(conversation: Conversation, run: Run, message: Message)
    requires CreateRunCommand(run).Valid() && run.conversationId == Some(conversation.conversationId)
    ensures Inv(Inserted(conversation, run, message))
  {
  }

  lemma StartKeepsInv(g: RunGraph, c: StartRunCommand)
    requires Inv(g) && c.Valid() && g.run == c.expected
    ensures Inv(g.(run := c.next))
  {
  }

  // Before the initial graph is written the Run owns nothing.
  lemma NoTasksNoOwned(g: RunGraph)
    requires UnitsOk(g.tasks, g.units) && CallsOk(g.run, g.tasks, g.units, g.calls, g.attempts)
    requires g.tasks.Keys == {}
    ensures g.tasks == map[] && g.units == map[] && g.calls == map[]
  {
    assert forall u :: u in g.units ==> UnitOk(g.tasks, u, g.units[u]);
    assert forall k :: k in g.calls ==> CallOk(g.run, g.tasks, g.units, k, g.calls[k], g.attempts[k]);
    assert g.units.Keys == {} && g.calls.Keys == {};
  }

  lemma SingletonTaskOk(run: Run, convId: Id, task: Task, unit: RequestUnit, link: RunTaskLink,
                        convLink: ConversationTaskLink)
    requires task.Valid() && task.status.TaskActive? && task.version == 1 && task.updatedAt == task.createdAt
    requires unit.Valid() && unit.taskId == task.taskId && unit.status == task.status && unit.version == 1
    requires link == RunTaskLink(run.runId, task.taskId, None, None) && run.Active()
    requires convLink.taskId == task.taskId && convLink.endedAt.None? && convLink.conversationId == convId
    ensures TasksOk(task.owner, map[task.taskId := task], map[task.taskId := []])
    ensures UnitsOk(map[task.taskId := task], map[unit.unitId := unit])
    ensures HistoryUnitsOk(map[unit.unitId := unit], map[task.taskId := []])
    ensures LinksOk(run, map[task.taskId := task], map[task.taskId := link])
    ensures ConvLinksOk(convId, map[task.taskId := task], map[task.taskId := convLink])
  {
    assert map[unit.unitId := unit][unit.unitId].taskId == task.taskId;
  }

  lemma CreateKeepsInv(g: RunGraph, c: CreateGraphCommand)
    requires Inv(g) && c.CleanTaskAndUnit() && c.LinksClose() && c.OneTimestamp() && c.run.status.RunRunning?
    requires c.conversation.owner == c.owner && CreateMatches(g, c)
    ensures Inv(CreateWrites(g, c))
  {
    var g' := CreateWrites(g, c);
    assert g.tasks.Keys == g.links.Keys == {};
    NoTasksNoOwned(g);
    assert g.history == map[] && g.convLinks == map[] by {
      assert g.history.Keys == {} && g.convLinks.Keys == {};
    }
    SingletonTaskOk(g.run, g.conversation.conversationId, c.task, c.unit, c.runLink, c.convLink);
    assert g'.tasks == map[c.task.taskId := c.task];
    assert g'.units == map[c.unit.unitId := c.unit];
    assert g'.history == map[c.task.taskId := []];
    assert g'.links == map[c.task.taskId := c.runLink];
    assert g'.convLinks == map[c.task.taskId := c.convLink];
  }

  lemma ChainGrows(t: Task, hs: seq<Transition>, next: Task, h: Transition)
    requires Chain(t, hs) && h.Valid() && h.taskId == t.taskId == next.taskId
    requires h.base == t.version && h.from == t.status && t.updatedAt <= h.changedAt && t.createdAt <= t.updatedAt
    requires next.version == h.result && next.status == h.to && next.updatedAt == h.changedAt
    requires next.createdAt == t.createdAt
    ensures Chain(next, hs + [h])
  {
  }

  // Moving one Task, its RequestUnit and its history together.
  lemma AdvanceOneTask(owner: string, tasks: map<Id, Task>, history: map<Id, seq<Transition>>,
                       c: TaskTransitionCommand)
    requires TasksOk(owner, tasks, history) && c.Valid()
    requires c.expectedTask.taskId in tasks && tasks[c.expectedTask.taskId] == c.expectedTask
    ensures var t := c.expectedTask.taskId;
            TasksOk(owner, tasks[t := c.nextTask], history[t := history[t] + [c.transition]])
  {
    var t := c.expectedTask.taskId;
    assert TaskOk(owner, t, tasks[t], history[t]);
    ChainGrows(c.expectedTask, history[t], c.nextTask, c.transition);
  }

  lemma AdvanceOneUnit(tasks: map<Id, Task>, units: map<Id, RequestUnit>, c: TaskTransitionCommand)
    requires UnitsOk(tasks, units) && c.Valid()
    requires c.expectedTask.taskId in tasks
    requires c.expectedUnit.unitId in units && units[c.expectedUnit.unitId] == c.expectedUnit
    ensures UnitsOk(tasks[c.expectedTask.taskId := c.nextTask], units[c.expectedUnit.unitId := c.nextUnit])
  {
    var tasks', units' := tasks[c.expectedTask.taskId := c.nextTask], units[c.expectedUnit.unitId := c.nextUnit];
    assert forall u :: u in units' ==> u in units && units'[u].taskId == units[u].taskId;
    forall s | s in tasks' ensures HasUnit(units', s) {
      assert HasUnit(units, s);
      var u :| u in units && units[u].taskId == s;
      assert units'[u].taskId == s;
    }
    forall u | u in units' ensures UnitOk(tasks', u, units'[u]) {
      assert UnitOk(tasks, u, units[u]);
    }
  }

  lemma AdvanceOneHistory(units: map<Id, RequestUnit>, history: map<Id, seq<Transition>>,
                          c: TaskTransitionCommand)
    requires HistoryUnitsOk(units, history) && c.Valid() && c.expectedTask.taskId in history
    requires c.expectedUnit.unitId in units && units[c.expectedUnit.unitId] == c.expectedUnit
    ensures var t := c.expectedTask.taskId;
            HistoryUnitsOk(units[c.expectedUnit.unitId := c.nextUnit], history[t := history[t] + [c.transition]])
  {
    var t := c.expectedTask.taskId;
    var units', history' := units[c.expectedUnit.unitId := c.nextUnit], history[t := history[t] + [c.transition]];
    forall s | s in history' ensures TransitionsOf(units', s, history'[s]) {
      assert TransitionsOf(units, s, history[s]);
    }
  }

  lemma AdvanceKeepsTasks(g: RunGraph, c: TaskTransitionCommand)
    requires TasksOk(g.conversation.owner, g.tasks, g.history) && UnitsOk(g.tasks, g.units)
    requires HistoryUnitsOk(g.units, g.history) && c.Valid() && TransitMatches(g, c)
    ensures var g' := Advance(g, c);
            && TasksOk(g.conversation.owner, g'.tasks, g'.history)
            && UnitsOk(g'.tasks, g'.units) && HistoryUnitsOk(g'.units, g'.history)
            && g'.tasks.Keys == g.tasks.Keys
  {
    AdvanceOneTask(g.conversation.owner, g.tasks, g.history, c);
    AdvanceOneUnit(g.tasks, g.units, c);
    AdvanceOneHistory(g.units, g.history, c);
  }

  lemma AdvanceKeepsActiveLinks(run: Run, tasks: map<Id, Task>, links: map<Id, RunTaskLink>,
                                c: TaskTransitionCommand)
    requires LinksOk(run, tasks, links) && run.Active() && c.Valid()
    requires c.expectedTask.taskId in tasks && tasks[c.expectedTask.taskId] == c.expectedTask
    ensures LinksOk(run, tasks[c.expectedTask.taskId := c.nextTask], links)
  {
    var tasks' := tasks[c.expectedTask.taskId := c.nextTask];
    forall t | t in tasks' ensures LinkOk(run, t, tasks'[t], links[t]) {
      assert LinkOk(run, t, tasks[t], links[t]);
    }
  }

  lemma AdvanceKeepsCalls(g: RunGraph, c: TaskTransitionCommand)
    requires CallsOk(g.run, g.tasks, g.units, g.calls, g.attempts)
    requires c.Valid() && TransitMatches(g, c) && Idle(g, c.expectedTask.taskId)
    ensures var g' := Advance(g, c); CallsOk(g'.run, g'.tasks, g'.units, g'.calls, g'.attempts)
  {
    var g' := Advance(g, c);
    forall k | k in g'.calls ensures CallOk(g'.run, g'.tasks, g'.units, k, g'.calls[k], g'.attempts[k]) {
      assert CallOk(g.run, g.tasks, g.units, k, g.calls[k], g.attempts[k]);
    }
  }

  lemma AdvanceKeepsConvLinks(g: RunGraph, c: TaskTransitionCommand)
    requires TransitMatches(g, c) && ConvLinksOk(g.conversation.conversationId, g.tasks, g.convLinks)
    ensures ConvLinksOk(g.conversation.conversationId, Advance(g, c).tasks, g.convLinks)
  {
    assert Advance(g, c).tasks.Keys == g.tasks.Keys;
  }

  lemma TransitKeepsInv(g: RunGraph, c: TaskTransitionCommand)
    requires Inv(g) && c.Valid() && TransitMatches(g, c) && g.run.Active() && Idle(g, c.expectedTask.taskId)
    ensures Inv(Advance(g, c))
  {
    hide TaskTransitionCommand.Valid, RunOk, TasksOk, UnitsOk, HistoryUnitsOk, LinksOk, ConvLinksOk, CallsOk, ObservationsOk,
      TraceOk, Idle;
    AdvanceKeepsTasks(g, c);
    AdvanceKeepsActiveLinks(g.run, g.tasks, g.links, c);
    AdvanceKeepsConvLinks(g, c);
    AdvanceKeepsCalls(g, c);
  }

  // ----- Terminal writes -----

  lemma OverwrittenLinksOk(old_: Run, run: Run, tasks: map<Id, Task>, tasks': map<Id, Task>,
                           links: map<Id, RunTaskLink>, more: seq<RunTaskLink>)
    requires LinksOk(old_, tasks, links) && tasks'.Keys == tasks.Keys
    requires run.runId == old_.runId && !run.Active()
    requires DistinctLinkTasks(more) && LinkTasks(more) == links.Keys
    requires forall l :: l in more ==> l.taskId in tasks' && LinkOk(run, l.taskId, tasks'[l.taskId], l)
    ensures LinksOk(run, tasks', OverwriteLinks(links, more))
  {
    var links' := OverwriteLinks(links, more);
    forall t | t in tasks' ensures LinkOk(run, t, tasks'[t], links'[t]) {
      assert t in LinkTasks(more);
      var l :| l in more && l.taskId == t;
    }
  }

  // Without an active call, neither the Run's status nor Task versions matter to the calls.
  lemma SettledCallsStayOk(run: Run, run': Run, tasks: map<Id, Task>, tasks': map<Id, Task>,
                           units: map<Id, RequestUnit>, units': map<Id, RequestUnit>,
                           calls: map<Id, ToolCall>, attempts: map<Id, seq<Attempt>>)
    requires CallsOk(run, tasks, units, calls, attempts) && run'.runId == run.runId
    requires forall c :: c in calls ==> !calls[c].status.Active()
    requires tasks'.Keys == tasks.Keys && SameOwnership(units, units')
    ensures CallsOk(run', tasks', units', calls, attempts)
  {
    forall c | c in calls ensures CallOk(run', tasks', units', c, calls[c], attempts[c]) {
      assert CallOk(run, tasks, units, c, calls[c], attempts[c]);
    }
  }

  predicate SameOwnership(units: map<Id, RequestUnit>, units': map<Id, RequestUnit>) {
    && units'.Keys == units.Keys
    && forall u :: u in units ==>
         units'[u].taskId == units[u].taskId && units'[u].bindingRefs == units[u].bindingRefs
  }

  lemma FinalLinkOk(c: FinalizeRunCommand, g: RunGraph, tasks': map<Id, Task>)
    requires LinksOk(g.run, g.tasks, g.links) && LinksMatch(g, c.expectedLinks) && tasks'.Keys == g.tasks.Keys
    requires c.RunsClose() && c.LinksClose() && c.TasksClose()
    requires forall t :: t in c.resultTasks ==> t.taskId in tasks' && tasks'[t.taskId] == t
    ensures forall l :: l in c.terminalLinks ==>
              l.taskId in tasks' && LinkOk(c.terminal, l.taskId, tasks'[l.taskId], l)
  {
    forall l | l in c.terminalLinks
      ensures l.taskId in tasks' && LinkOk(c.terminal, l.taskId, tasks'[l.taskId], l)
    {
      assert l.taskId in LinkTasks(c.terminalLinks);
      var t :| t in c.resultTasks && t.taskId == l.taskId;
    }
  }

  lemma FinalTraceOk(g: RunGraph, c: FinalizeRunCommand)
    requires TraceOk(g.run, g.trace) && c.Valid() && g.run == c.expected
    requires forall e :: e in c.events ==> !EventStored(g, e.eventId)
    ensures TraceOk(c.terminal, g.trace + c.events)
  {
    hide FinalizeRunCommand.Valid, TraceOk;
    FinalEvents(c);
    NothingStoppedYet(g);
    TraceGrows(g.run, c.terminal, g.trace, c.events);
  }

  lemma NothingStoppedYet(g: RunGraph)
    requires TraceOk(g.run, g.trace) && g.run.status.RunRunning?
    ensures CountStops(g.trace) == 0
  {
  }

  // The terminal trace of a command names its Run and stops it at most once.
  lemma FinalEvents(c: FinalizeRunCommand)
    requires c.Valid()
    ensures c.expected.status.RunRunning? && c.terminal.runId == c.expected.runId && !c.terminal.status.RunIncomplete?
    ensures CountStops(c.events) == (if c.terminal.status.RunCompleted? then 1 else 0) && DistinctEvents(c.events)
    ensures forall e :: e in c.events ==> e.runId == c.terminal.runId
    ensures forall e :: e in c.events && e.kind.RunStopped? ==>
              Some(e.at) == c.terminal.completedAt && e.stopReason == c.terminal.stopReason
  {
    hide FinalizeRunCommand.LinksClose, FinalizeRunCommand.TasksClose, FinalizeRunCommand.MessageCloses,
      TaskTransitionCommand.Valid, TerminalRow;
    if c.terminal.status.RunCompleted? {
      assert c.events[..|c.events| - 1] == if c.transition.Some? then [c.events[0]] else [];
      assert CountStops(c.events) == 1;
    }
  }

  predicate MovesItsTask(c: FinalizeRunCommand) {
    c.transition.Some? ==> c.transition.value.Valid() && c.resultTasks == [c.transition.value.nextTask]
  }

  // The Task families after an optional transition.
  function Moved(g: RunGraph, t: Option<TaskTransitionCommand>): RunGraph
    requires t.Some? ==> TransitMatches(g, t.value)
  {
    if t.Some? then Advance(g, t.value) else g
  }

  lemma FinalShape(g: RunGraph, c: FinalizeRunCommand)
    requires FinalizeMatches(g, c)
    ensures var g', m := FinalizeWrites(g, c), Moved(g, c.transition);
            && g'.tasks == m.tasks && g'.units == m.units && g'.history == m.history
            && g'.conversation == g.conversation && g'.convLinks == g.convLinks
            && g'.calls == g.calls && g'.attempts == g.attempts
            && g'.observations == g.observations && g'.sources == g.sources
            && g'.run == c.terminal && g'.trace == g.trace + c.events
            && g'.links == OverwriteLinks(g.links, c.terminalLinks)
  {
    hide NoActiveCall, LinksMatch, EventStored, OverwriteLinks;
  }

  lemma AdvanceKeepsOwnership(g: RunGraph, t: TaskTransitionCommand)
    requires TransitMatches(g, t) && t.Valid()
    ensures SameOwnership(g.units, Advance(g, t).units)
  {
  }

  lemma MovedTasksOk(g: RunGraph, t: Option<TaskTransitionCommand>)
    requires TasksOk(g.conversation.owner, g.tasks, g.history) && UnitsOk(g.tasks, g.units)
    requires HistoryUnitsOk(g.units, g.history)
    requires t.Some? ==> TransitMatches(g, t.value) && t.value.Valid()
    ensures var m := Moved(g, t);
            && TasksOk(g.conversation.owner, m.tasks, m.history)
            && UnitsOk(m.tasks, m.units) && HistoryUnitsOk(m.units, m.history)
            && m.tasks.Keys == g.tasks.Keys && SameOwnership(g.units, m.units)
  {
    if t.Some? {
      AdvanceKeepsTasks(g, t.value);
      AdvanceKeepsOwnership(g, t.value);
    }
  }

  lemma ResultTasksStored(g: RunGraph, c: FinalizeRunCommand)
    requires MovesItsTask(c) && FinalizeMatches(g, c)
    ensures forall t :: t in c.resultTasks ==>
              t.taskId in Moved(g, c.transition).tasks && Moved(g, c.transition).tasks[t.taskId] == t
  {
  }

  lemma FinalLinksOk(g: RunGraph, c: FinalizeRunCommand, tasks': map<Id, Task>)
    requires LinksOk(g.run, g.tasks, g.links) && c.RunsClose() && c.LinksClose() && c.TasksClose()
    requires g.run == c.expected && LinksMatch(g, c.expectedLinks) && tasks'.Keys == g.tasks.Keys
    requires forall t :: t in c.resultTasks ==> t.taskId in tasks' && tasks'[t.taskId] == t
    ensures LinksOk(c.terminal, tasks', OverwriteLinks(g.links, c.terminalLinks))
  {
    FinalLinkOk(c, g, tasks');
    OverwrittenLinksOk(g.run, c.terminal, g.tasks, tasks', g.links, c.terminalLinks);
  }

  lemma FinalReply(g: RunGraph, c: FinalizeRunCommand)
    requires c.Valid() && FinalizeMatches(g, c) && c.terminal.status.RunCompleted?
    ensures AssistantReplied(c.terminal, FinalizeWrites(g, c).messages)
  {
    var g' := FinalizeWrites(g, c);
    assert g'.messages[c.message.value.messageId] == c.message.value;
  }

  lemma TerminalRunOk(convId: Id, c: FinalizeRunCommand)
    requires RunOk(convId, c.expected) && c.Valid()
    ensures RunOk(convId, c.terminal) && !c.terminal.Active()
  {
  }

  lemma FinalizeKeepsInv(g: RunGraph, c: FinalizeRunCommand)
    requires Inv(g) && c.Valid() && FinalizeMatches(g, c)
    ensures Inv(FinalizeWrites(g, c))
  {
    hide FinalizeRunCommand.Valid, FinalizeRunCommand.RunsClose, FinalizeRunCommand.LinksClose,
      FinalizeRunCommand.TasksClose, RunOk, TasksOk, UnitsOk, HistoryUnitsOk, LinksOk, ConvLinksOk, CallsOk, ObservationsOk,
      TraceOk, SameOwnership, AssistantReplied, LinksMatch, TransitMatches, Advance, EventStored, NoActiveCall;
    var m := Moved(g, c.transition);
    FinalCommandParts(c);
    TerminalRunOk(g.conversation.conversationId, c);
    FinalTraceOk(g, c);
    MovedTasksOk(g, c.transition);
    ResultTasksStored(g, c);
    FinalLinksOk(g, c, m.tasks);
    if c.terminal.status.RunCompleted? { FinalReply(g, c); }
    IdleCalls(g);
    SettledCallsStayOk(g.run, c.terminal, g.tasks, m.tasks, g.units, m.units, g.calls, g.attempts);
    FinalizedInv(g, c, m);
  }

  lemma FinalCommandParts(c: FinalizeRunCommand)
    requires c.Valid()
    ensures c.RunsClose() && c.LinksClose() && c.TasksClose() && MovesItsTask(c)
    ensures c.terminal.runId == c.expected.runId
  {
  }

  lemma IdleCalls(g: RunGraph)
    requires NoActiveCall(g)
    ensures forall c :: c in g.calls ==> !g.calls[c].status.Active()
  {
  }

  lemma FinalizedInv(g: RunGraph, c: FinalizeRunCommand, m: RunGraph)
    requires FinalizeMatches(g, c) && m == Moved(g, c.transition)
    requires ConvLinksOk(g.conversation.conversationId, g.tasks, g.convLinks)
    requires ObservationsOk(g.observations, g.sources, g.calls)
    requires RunOk(g.conversation.conversationId, c.terminal) && !c.terminal.Active()
    requires TraceOk(c.terminal, g.trace + c.events)
    requires TasksOk(g.conversation.owner, m.tasks, m.history)
    requires UnitsOk(m.tasks, m.units) && HistoryUnitsOk(m.units, m.history) && m.tasks.Keys == g.tasks.Keys
    requires LinksOk(c.terminal, m.tasks, OverwriteLinks(g.links, c.terminalLinks))
    requires CallsOk(c.terminal, m.tasks, m.units, g.calls, g.attempts)
    requires c.terminal.status.RunCompleted? ==> AssistantReplied(c.terminal, FinalizeWrites(g, c).messages)
    ensures Inv(FinalizeWrites(g, c))
  {
    FinalShape(g, c);
    assert ConvLinksOk(g.conversation.conversationId, m.tasks, g.convLinks);
  }

  // ----- Tool calls -----

  lemma CallsWith(run: Run, tasks: map<Id, Task>, units: map<Id, RequestUnit>, calls: map<Id, ToolCall>,
                  attempts: map<Id, seq<Attempt>>, call: ToolCall, more: seq<Attempt>)
    requires CallsOk(run, tasks, units, calls, attempts)
    requires CallOk(run, tasks, units, call.callId, call, more)
    ensures CallsOk(run, tasks, units, calls[call.callId := call], attempts[call.callId := more])
  {
    var calls', attempts' := calls[call.callId := call], attempts[call.callId := more];
    forall k | k in calls' ensures CallOk(run, tasks, units, k, calls'[k], attempts'[k]) {
      if k != call.callId {
        assert CallOk(run, tasks, units, k, calls[k], attempts[k]);
      }
    }
  }

  lemma SourcesStaySettled(g: RunGraph, call: ToolCall)
    requires ObservationsOk(g.observations, g.sources, g.calls)
    requires call.callId in g.calls ==> g.calls[call.callId].status.Active()
    ensures ObservationsOk(g.observations, g.sources, g.calls[call.callId := call])
  {
  }

  lemma CallChangeKeepsInv(g: RunGraph, call: ToolCall, more: seq<Attempt>)
    requires Inv(g) && g.run.status.RunRunning?
    requires CallsOk(g.run, g.tasks, g.units, g.calls[call.callId := call], g.attempts[call.callId := more])
    requires ObservationsOk(g.observations, g.sources, g.calls[call.callId := call])
    ensures Inv(CallWrites(g, call, more))
  {
  }

  lemma DispatchedCallOk(g: RunGraph, c: DispatchCallCommand)
    requires CallsOk(g.run, g.tasks, g.units, g.calls, g.attempts) && c.Valid() && DispatchMatches(g, c)
    ensures g.run.status.RunRunning?
    ensures CallsOk(g.run, g.tasks, g.units, g.calls[c.expected.callId := c.running],
                    g.attempts[c.expected.callId := [c.attempt]])
  {
    assert CallOk(g.run, g.tasks, g.units, c.expected.callId, c.expected, []);
    assert CallAggregate(c.running, [c.attempt]).Valid();
    CallsWith(g.run, g.tasks, g.units, g.calls, g.attempts, c.running, [c.attempt]);
  }

  lemma FinishedCallOk(g: RunGraph, c: FinalizeCallCommand)
    requires CallsOk(g.run, g.tasks, g.units, g.calls, g.attempts) && c.Valid() && FinishMatches(g, c)
    ensures g.run.status.RunRunning?
    ensures CallsOk(g.run, g.tasks, g.units, g.calls[c.expected.callId := c.terminal],
                    g.attempts[c.expected.callId := [c.attempt]])
  {
    assert CallOk(g.run, g.tasks, g.units, c.expected.callId, c.expected, [c.expectedAttempt]);
    assert CallAggregate(c.terminal, [c.attempt]).Valid();
    CallsWith(g.run, g.tasks, g.units, g.calls, g.attempts, c.terminal, [c.attempt]);
  }

  lemma InsertedCallOk(g: RunGraph, c: CreateCallCommand)
    requires CallsOk(g.run, g.tasks, g.units, g.calls, g.attempts) && c.Valid()
    requires g.run.status.RunRunning? && CallFits(g, c.created)
    ensures CallsOk(g.run, g.tasks, g.units, g.calls[c.created.callId := c.created],
                    g.attempts[c.created.callId := []])
  {
    assert CallAggregate(c.created, []).Valid();
    CallsWith(g.run, g.tasks, g.units, g.calls, g.attempts, c.created, []);
  }

  lemma AppendKeepsInv(g: RunGraph, e: TraceEvent)
    requires Inv(g) && Fitting(g, AppendTrace(e)) && !EventStored(g, e.eventId)
    ensures Inv(AppendWrites(g, e))
  {
    CountStopsConcat(g.trace, [e]);
    assert CountStops([e]) == 0;
  }
}
