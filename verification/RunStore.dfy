// Everything the record store holds for one Run, and what each write command
// does to it.  A command either matches the stored projections exactly and
// writes all of its effects, or writes nothing.

module RunStore {
  import opened Records
  import opened Understanding
  import opened Commands
  import opened RecoveryCommands

  datatype RunGraph = RunGraph(
    conversation: Conversation,
    run: Run,
    messages: map<Id, Message>,
    understanding: Option<UnderstandingRecord>,
    deltas: map<Id, AcceptedDelta>,
    bindings: map<Id, InputBinding>,
    tasks: map<Id, Task>,
    units: map<Id, RequestUnit>,
    history: map<Id, seq<Transition>>,
    convLinks: map<Id, ConversationTaskLink>,
    links: map<Id, RunTaskLink>,
    manifests: map<Id, ContextManifest>,
    gates: map<Id, GateDecision>,
    calls: map<Id, ToolCall>,
    attempts: map<Id, seq<Attempt>>,
    observations: map<Id, Observation>,
    sources: map<Id, Id>,
    trace: seq<TraceEvent>)

  datatype Write =
    | Start(start: StartRunCommand)
    | CreateGraph(graph: CreateGraphCommand)
    | Transit(transit: TaskTransitionCommand)
    | Finalize(finalize: FinalizeRunCommand)
    | InsertCall(insert: CreateCallCommand)
    | Dispatch(dispatch: DispatchCallCommand)
    | FinishCall(finish: FinalizeCallCommand)
    | SaveObservation(observe: SaveObservationCommand)
    | SaveManifest(manifest: ContextManifest)
    | SaveGate(gate: GateDecision)
    | AppendTrace(event: TraceEvent)
    | Recover(recover: RecoveryCommand)

  // The graph of a Run that has just been inserted.
  function Inserted(conversation: Conversation, run: Run, message: Message): RunGraph {
    RunGraph(conversation, run, map[message.messageId := message], None, map[], map[], map[], map[], map[],
             map[], map[], map[], map[], map[], map[], map[], map[], [])
  }

  predicate EventStored(g: RunGraph, eventId: Id) { exists e :: e in g.trace && e.eventId == eventId }

  predicate NoActiveCall(g: RunGraph) { forall c :: c in g.calls ==> !g.calls[c].status.Active() }

  // ----- When a command applies -----

  predicate LinksMatch(g: RunGraph, links: seq<RunTaskLink>) {
    && LinkTasks(links) == g.links.Keys
    && forall l :: l in links ==> l.taskId in g.links && g.links[l.taskId] == l
  }

  predicate TransitMatches(g: RunGraph, c: TaskTransitionCommand) {
    && c.expectedTask.taskId in g.tasks && g.tasks[c.expectedTask.taskId] == c.expectedTask
    && c.expectedUnit.unitId in g.units && g.units[c.expectedUnit.unitId] == c.expectedUnit
    && c.expectedTask.taskId in g.history
  }

  predicate FinalizeMatches(g: RunGraph, c: FinalizeRunCommand) {
    && g.run == c.expected
    && NoActiveCall(g)
    && LinksMatch(g, c.expectedLinks)
    && (match c.transition
        case Some(t) => TransitMatches(g, t)
        case None => forall t :: t in c.resultTasks ==> t.taskId in g.tasks && g.tasks[t.taskId] == t)
    && (c.message.Some? ==> c.message.value.messageId !in g.messages)
    && (forall e :: e in c.events ==> !EventStored(g, e.eventId))
  }

  predicate CreateMatches(g: RunGraph, c: CreateGraphCommand) {
    && g.run == c.run && g.conversation == c.conversation
    && (forall m :: m in c.messages ==> m.messageId in g.messages && g.messages[m.messageId] == m)
    && g.understanding.None? && g.links == map[]
    && c.task.taskId !in g.tasks && c.unit.unitId !in g.units && c.binding.bindingId !in g.bindings
    && c.task.taskId !in g.convLinks
  }

  // A replay finds every record it would write already there.
  predicate AlreadyCreated(g: RunGraph, c: CreateGraphCommand) {
    && g.run == c.run && g.conversation == c.conversation && g.understanding == Some(c.record)
    && c.delta.deltaId in g.deltas && g.deltas[c.delta.deltaId] == c.delta
    && c.task.taskId in g.tasks && g.tasks[c.task.taskId] == c.task
    && c.unit.unitId in g.units && g.units[c.unit.unitId] == c.unit
    && c.binding.bindingId in g.bindings && g.bindings[c.binding.bindingId] == c.binding
    && c.task.taskId in g.convLinks && g.convLinks[c.task.taskId] == c.convLink
    && g.links == map[c.task.taskId := c.runLink]
  }

  predicate DispatchMatches(g: RunGraph, c: DispatchCallCommand) {
    && !c.expected.effect.Action?
    && c.expected.callId in g.calls && g.calls[c.expected.callId] == c.expected
    && c.expected.callId in g.attempts && g.attempts[c.expected.callId] == []
  }

  predicate FinishMatches(g: RunGraph, c: FinalizeCallCommand) {
    && c.expected.callId in g.calls && g.calls[c.expected.callId] == c.expected
    && c.expected.callId in g.attempts && g.attempts[c.expected.callId] == [c.expectedAttempt]
  }

  predicate ObserveMatches(g: RunGraph, c: SaveObservationCommand) {
    && c.owner == g.conversation.owner
    && c.source.callId in g.calls && g.calls[c.source.callId] == c.source
    && c.observation.observationId !in g.observations
  }

  // The closure lists exactly the stored families; of the ToolCalls only the active ones.
  predicate Enumerates(c: RecoveryClosure, g: RunGraph) {
    && c.conversation == g.conversation && c.run == g.run && g.run.Active()
    && DistinctConvTasks(c.convLinks) && (set l | l in c.convLinks :: l.taskId) == g.convLinks.Keys
    && (forall l :: l in c.convLinks ==> l.taskId in g.convLinks && g.convLinks[l.taskId] == l)
    && DistinctLinkTasks(c.runLinks) && LinksMatch(g, c.runLinks)
    && DistinctTasks(c.tasks) && AggregateTaskIds(c.tasks) == g.tasks.Keys
    && (forall a :: a in c.tasks ==>
          && a.task.taskId in g.tasks && g.tasks[a.task.taskId] == a.task
          && a.task.taskId in g.history && g.history[a.task.taskId] == a.transitions)
    && DistinctUnitIds(c.units) && (set u | u in c.units :: u.unitId) == g.units.Keys
    && (forall u :: u in c.units ==> u.unitId in g.units && g.units[u.unitId] == u)
    && DistinctCalls(c.calls)
    && AggregateCallIds(c.calls) == ActiveCallIds(g)
    && (forall a :: a in c.calls ==>
          && a.call.callId in g.calls && g.calls[a.call.callId] == a.call
          && a.call.callId in g.attempts && g.attempts[a.call.callId] == a.attempts)
  }

  function AggregateCallIds(cs: seq<CallAggregate>): set<Id> { set a | a in cs :: a.call.callId }

  function ActiveCallIds(g: RunGraph): set<Id> { set k | k in g.calls && g.calls[k].status.Active() }

  predicate DistinctUnitIds(us: seq<RequestUnit>) {
    forall i, j :: 0 <= i < j < |us| ==> us[i].unitId != us[j].unitId
  }

  predicate RecoverMatches(g: RunGraph, c: RecoveryCommand) {
    && Enumerates(c.closure, g)
    && (forall a :: a in c.closure.calls ==> !(a.call.effect.Action? && a.call.status.CallRunning?))
    && (forall e :: e in c.events ==> !EventStored(g, e.eventId))
  }

  // True when the store answers that the write is in effect.
  predicate Lands(g: RunGraph, w: Write) {
    match w
    case Start(c) => g.run == c.expected
    case CreateGraph(c) => CreateMatches(g, c) || AlreadyCreated(g, c)
    case Transit(c) => TransitMatches(g, c)
    case Finalize(c) => FinalizeMatches(g, c)
    case InsertCall(c) => g.run.status.RunRunning? && c.created.callId !in g.calls
    case Dispatch(c) => DispatchMatches(g, c)
    case FinishCall(c) => FinishMatches(g, c)
    case SaveObservation(c) => ObserveMatches(g, c)
    case SaveManifest(m) => m.manifestId !in g.manifests
    case SaveGate(d) => d.gateId !in g.gates
    case AppendTrace(e) => !EventStored(g, e.eventId)
    case Recover(c) => RecoverMatches(g, c)
  }

  // ----- What it writes -----

  function Advance(g: RunGraph, c: TaskTransitionCommand): RunGraph
    requires TransitMatches(g, c)
  {
    var t := c.expectedTask.taskId;
    g.(tasks := g.tasks[t := c.nextTask],
       units := g.units[c.expectedUnit.unitId := c.nextUnit],
       history := g.history[t := g.history[t] + [c.transition]])
  }

  function FinalizeWrites(g: RunGraph, c: FinalizeRunCommand): RunGraph
    requires FinalizeMatches(g, c)
  {
    var moved := if c.transition.Some? then Advance(g, c.transition.value) else g;
    moved.(run := c.terminal,
           links := OverwriteLinks(g.links, c.terminalLinks),
           messages := if c.message.Some? then g.messages[c.message.value.messageId := c.message.value]
                       else g.messages,
           trace := g.trace + c.events)
  }

  function OverwriteLinks(stored: map<Id, RunTaskLink>, links: seq<RunTaskLink>): (r: map<Id, RunTaskLink>)
    ensures r.Keys == stored.Keys + LinkTasks(links)
    ensures forall t :: t in stored && t !in LinkTasks(links) ==> r[t] == stored[t]
    ensures DistinctLinkTasks(links) ==> forall l :: l in links ==> r[l.taskId] == l
  {
    if links == [] then stored
    else
      var last := links[|links| - 1];
      assert links == links[..|links| - 1] + [last];
      LastLink(links);
      OverwriteLinks(stored, links[..|links| - 1])[last.taskId := last]
  }

  lemma LastLink(links: seq<RunTaskLink>)
    requires links != []
    ensures var front, last := links[..|links| - 1], links[|links| - 1];
            && LinkTasks(links) == LinkTasks(front) + {last.taskId}
            && (DistinctLinkTasks(links) ==> DistinctLinkTasks(front) && last.taskId !in LinkTasks(front))
  {
    assert links == links[..|links| - 1] + [links[|links| - 1]];
  }

  function CreateWrites(g: RunGraph, c: CreateGraphCommand): RunGraph {
    g.(understanding := Some(c.record),
       deltas := g.deltas[c.delta.deltaId := c.delta],
       bindings := g.bindings[c.binding.bindingId := c.binding],
       tasks := g.tasks[c.task.taskId := c.task],
       units := g.units[c.unit.unitId := c.unit],
       history := g.history[c.task.taskId := []],
       convLinks := g.convLinks[c.task.taskId := c.convLink],
       links := g.links[c.task.taskId := c.runLink])
  }

  function TransitionFor(ts: seq<TaskTransitionCommand>, taskId: Id): (r: Option<TaskTransitionCommand>)
    ensures r.Some? ==> r.value in ts && r.value.expectedTask.taskId == taskId
    ensures r.Some? <==> taskId in TransitionTasks(ts)
  {
    if ts == [] then None
    else if ts[0].expectedTask.taskId == taskId then Some(ts[0])
    else
      assert ts == [ts[0]] + ts[1..];
      TransitionFor(ts[1..], taskId)
  }

  function TransitionForUnit(ts: seq<TaskTransitionCommand>, unitId: Id): (r: Option<TaskTransitionCommand>)
    ensures r.Some? ==> r.value in ts && r.value.expectedUnit.unitId == unitId
    ensures r.None? ==> forall x :: x in ts ==> x.expectedUnit.unitId != unitId
  {
    if ts == [] then None
    else if ts[0].expectedUnit.unitId == unitId then Some(ts[0])
    else
      assert ts == [ts[0]] + ts[1..];
      TransitionForUnit(ts[1..], unitId)
  }

  function InterruptFor(cs: seq<InterruptCallCommand>, callId: Id): (r: Option<InterruptCallCommand>)
    ensures r.Some? ==> r.value in cs && r.value.active.callId == callId
    ensures r.None? ==> forall x :: x in cs ==> x.active.callId != callId
  {
    if cs == [] then None
    else if cs[0].active.callId == callId then Some(cs[0])
    else
      assert cs == [cs[0]] + cs[1..];
      InterruptFor(cs[1..], callId)
  }

  function NextTasks(g: RunGraph, ts: seq<TaskTransitionCommand>): (r: map<Id, Task>)
    ensures r.Keys == g.tasks.Keys
  {
    map t | t in g.tasks :: (match TransitionFor(ts, t) case Some(x) => x.nextTask case None => g.tasks[t])
  }

  function NextUnits(g: RunGraph, ts: seq<TaskTransitionCommand>): map<Id, RequestUnit> {
    map u | u in g.units :: (match TransitionForUnit(ts, u) case Some(x) => x.nextUnit case None => g.units[u])
  }

  function NextHistory(g: RunGraph, ts: seq<TaskTransitionCommand>): map<Id, seq<Transition>> {
    map t | t in g.history ::
      (match TransitionFor(ts, t) case Some(x) => g.history[t] + [x.transition] case None => g.history[t])
  }

  function NextCalls(g: RunGraph, cs: seq<InterruptCallCommand>): map<Id, ToolCall> {
    map k | k in g.calls :: (match InterruptFor(cs, k) case Some(x) => x.interrupted case None => g.calls[k])
  }

  function RecoverWrites(g: RunGraph, c: RecoveryCommand): RunGraph {
    g.(run := c.incomplete,
       links := OverwriteLinks(g.links, c.links),
       tasks := NextTasks(g, c.tasks),
       units := NextUnits(g, c.tasks),
       history := NextHistory(g, c.tasks),
       calls := NextCalls(g, c.calls),
       trace := g.trace + c.events)
  }

  function CallWrites(g: RunGraph, call: ToolCall, attempts: seq<Attempt>): RunGraph {
    g.(calls := g.calls[call.callId := call], attempts := g.attempts[call.callId := attempts])
  }

  function ObserveWrites(g: RunGraph, o: Observation, source: Id): RunGraph {
    g.(observations := g.observations[o.observationId := o], sources := g.sources[o.observationId := source])
  }

  function AppendWrites(g: RunGraph, e: TraceEvent): RunGraph { g.(trace := g.trace + [e]) }

  function AuditWrites(g: RunGraph, manifests: map<Id, ContextManifest>, gates: map<Id, GateDecision>): RunGraph {
    g.(manifests := manifests, gates := gates)
  }

  function ApplyWrite(g: RunGraph, w: Write): RunGraph {
    if !Lands(g, w) then g
    else match w
      case Start(c) => g.(run := c.next)
      case CreateGraph(c) => if AlreadyCreated(g, c) then g else CreateWrites(g, c)
      case Transit(c) => Advance(g, c)
      case Finalize(c) => FinalizeWrites(g, c)
      case InsertCall(c) => CallWrites(g, c.created, [])
      case Dispatch(c) => CallWrites(g, c.running, [c.attempt])
      case FinishCall(c) => CallWrites(g, c.terminal, [c.attempt])
      case SaveObservation(c) => ObserveWrites(g, c.observation, c.source.callId)
      case SaveManifest(m) => AuditWrites(g, g.manifests[m.manifestId := m], g.gates)
      case SaveGate(d) => AuditWrites(g, g.manifests, g.gates[d.gateId := d])
      case AppendTrace(e) => AppendWrites(g, e)
      case Recover(c) => RecoverWrites(g, c)
  }
}
