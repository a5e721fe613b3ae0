// The exact evidence closure of one Run: every record of the Run, and every
// record those refer to, agree with each other and nothing else is included.

module Evidence {
  import opened Records
  import opened Understanding
  import opened Commands
  import opened OrderId
  import opened RunStore
  import opened VersionInForce
  import DeltaChains
  import Sorting
  import Supersedes

  // The stored records of the Run, the Messages and toolset artifacts loaded with them.
  datatype Evidence = Evidence(g: RunGraph, messages: map<Id, Message>, artifacts: set<string>)

  ghost predicate Closed(e: Evidence) {
    var g := e.g;
    && RootsClose(g.conversation, g.run, e.messages)
    && UnderstandingCloses(g.run, e.messages, g.understanding, g.deltas, g.bindings, g.tasks)
    && TasksClose(g.conversation, g.run, g.understanding, g.deltas, g.tasks, g.links, g.convLinks)
    && UnitsClose(g.understanding, g.deltas, g.tasks, g.units)
    && HistoriesClose(g.understanding, g.deltas, g.tasks, g.units, g.history)
    && (forall b :: b in g.bindings ==> Distinct(g.bindings[b].sourceRefs))
    && ManifestsClose(g.run, g.tasks, g.history, g.observations, g.manifests)
    && GatesClose(g.gates, g.manifests)
    && CallsClose(g.run, g.tasks, g.units, g.manifests, g.gates, g.calls)
    && AttemptsClose(g.calls, g.attempts)
    && (forall o :: o in g.observations ==>
          g.observations[o].supersedes.Some? ==> g.observations[o].supersedes.value in g.observations)
    && DistinctIds(g.trace)
    && (forall i :: 0 <= i < |g.trace| ==> EventCloses(g, g.trace[i]))
    && NormalizedClose(g.calls, g.attempts, g.trace)
    && GateEventsClose(g.gates, g.manifests, g.units, g.trace)
    && StopCloses(g.run, g.tasks, g.trace)
    && LifecyclesClose(g.calls, g.trace)
    && SourceEdgesClose(g.observations, g.trace)
    && ReferencesExact(e)
  }

  predicate DistinctIds(trace: seq<TraceEvent>) {
    forall i, j :: 0 <= i < j < |trace| ==> trace[i].eventId != trace[j].eventId
  }

  // ----- Roots -----

  predicate RootsClose(conversation: Conversation, run: Run, messages: map<Id, Message>) {
    && run.conversationId == Some(conversation.conversationId)
    && forall m :: m in messages ==>
         messages[m].messageId == m && messages[m].conversationId == conversation.conversationId
  }

  // ----- Request understanding and its accepted children -----

  type Deltas = map<Id, AcceptedDelta>

  // The accepted child of a candidate, when there is one.
  predicate Answers(deltas: Deltas, candidate: Id, d: Id) { d in deltas && deltas[d].candidateRef == candidate }

  predicate Answered(deltas: Deltas, candidate: Id) { exists d :: d in deltas && deltas[d].candidateRef == candidate }

  // Each candidate is answered at most once, so this is a map.
  ghost predicate ByCandidate(deltas: Deltas, children: map<Id, AcceptedDelta>) {
    && (forall c: Id :: c in children <==> Answered(deltas, c))
    && forall d :: d in deltas ==> deltas[d].candidateRef in children && children[deltas[d].candidateRef] == deltas[d]
  }

  function Links(children: map<Id, AcceptedDelta>): map<Id, DeltaChains.Delta> {
    map c | c in children :: DeltaChains.Delta(children[c].taskId, children[c].base, children[c].result)
  }

  function Versions(tasks: map<Id, Task>): map<Id, nat> { map t | t in tasks :: tasks[t].version }

  // The children of one Task in candidate order.
  function ChildrenOf(candidates: seq<Id>, children: map<Id, AcceptedDelta>, task: Id): seq<AcceptedDelta> {
    if candidates == [] then []
    else
      var last := candidates[|candidates| - 1];
      var front := ChildrenOf(candidates[..|candidates| - 1], children, task);
      if last in children && children[last].taskId == task then front + [children[last]] else front
  }

  predicate ChildCloses(r: UnderstandingRecord, d: AcceptedDelta, bindings: map<Id, InputBinding>, tasks: map<Id, Task>) {
    && (exists x :: x in r.decisions && x.candidateRef == d.candidateRef && x.accepted)
    && d.messageRef == r.messageRef && d.acceptedAt == r.createdAt
    && Distinct(d.bindingRefs) && (forall b :: b in d.bindingRefs ==> b in bindings)
    && (exists c :: c in r.candidates && c.candidateId == d.candidateRef && c.goalPatch == d.goalText
                    && BindsInputs(c, d, bindings))
    && d.taskId in tasks
  }

  // There is one input name, so the last binding is the one compared: it carries
  // the normal form of the candidate's input.
  predicate BindsInputs(c: DurableCandidate, d: AcceptedDelta, bindings: map<Id, InputBinding>) {
    && |c.inputs| == 1 && d.bindingRefs != []
    && var last := d.bindingRefs[|d.bindingRefs| - 1];
       && last in bindings && Normalize(c.inputs[0].value) == Some(bindings[last].orderId)
       && bindings[last].sourceRefs == [c.inputs[0].sourceRef]
  }

  ghost predicate UnderstandingCloses(run: Run, messages: map<Id, Message>, u: Option<UnderstandingRecord>,
                                      deltas: Deltas, bindings: map<Id, InputBinding>, tasks: map<Id, Task>)
  {
    match u
    case None => deltas == map[]
    case Some(r) =>
      && r.runId == run.runId && r.messageRef in messages
      && Elements(r.acceptedRefs) == deltas.Keys
      && (forall d :: d in deltas ==> deltas[d].deltaId == d && ChildCloses(r, deltas[d], bindings, tasks))
      && (forall d, f :: d in deltas && f in deltas && deltas[d].candidateRef == deltas[f].candidateRef ==> d == f)
      && (forall x :: x in r.decisions && x.accepted ==> Answered(deltas, x.candidateRef))
      && exists children ::
           ByCandidate(deltas, children)
           && DeltaChains.EvidenceChains(DeltaChains.InOrder(CandidateIds(r.candidates), Links(children)), Versions(tasks))
  }

  // ----- Tasks, links and units -----

  ghost predicate FirstChildHasBase(u: Option<UnderstandingRecord>, deltas: Deltas, task: Id, base: Option<nat>) {
    u.Some? && forall children :: ByCandidate(deltas, children) ==>
      var cs := ChildrenOf(CandidateIds(u.value.candidates), children, task);
      cs != [] && cs[0].base == base
  }

  predicate TaskRefsExact(deltas: Deltas, tasks: map<Id, Task>) {
    && (forall d :: d in deltas ==> deltas[d].taskId in tasks)
    && forall t :: t in tasks ==> exists d :: d in deltas && deltas[d].taskId == t
  }

  ghost predicate TasksClose(conversation: Conversation, run: Run, u: Option<UnderstandingRecord>, deltas: Deltas,
                             tasks: map<Id, Task>, links: map<Id, RunTaskLink>, convLinks: map<Id, ConversationTaskLink>)
  {
    && TaskRefsExact(deltas, tasks)
    && (forall t :: t in tasks ==> tasks[t].taskId == t && tasks[t].owner == conversation.owner)
    && links.Keys == tasks.Keys
    && (forall t :: t in links ==>
          && LinkCloses(run, tasks[t], links[t])
          && FirstChildHasBase(u, deltas, t, links[t].base))
    && convLinks.Keys == tasks.Keys
    && (forall t :: t in convLinks ==>
          convLinks[t].taskId == t && convLinks[t].conversationId == conversation.conversationId)
  }

  predicate LinkCloses(run: Run, t: Task, link: RunTaskLink) {
    && link.taskId == t.taskId && link.runId == run.runId
    && (link.base.Some? ==> link.base.value <= t.version)
    && (link.result.Some? ==> link.result.value == t.version)
    && (run.Active() <==> link.result.None?)
  }

  predicate UnitCloses(tasks: map<Id, Task>, u: RequestUnit) {
    && u.taskId in tasks && u.status == tasks[u.taskId].status && u.version == tasks[u.taskId].version
    && Distinct(u.goalSourceRefs) && Distinct(u.bindingRefs) && Distinct(u.observationRefs)
  }

  ghost predicate UnitsClose(r: Option<UnderstandingRecord>, deltas: Deltas, tasks: map<Id, Task>,
                             units: map<Id, RequestUnit>)
  {
    && (forall u :: u in units ==> units[u].unitId == u && UnitCloses(tasks, units[u]))
    && (forall u, v :: u in units && v in units && units[u].taskId == units[v].taskId ==> u == v)
    && (forall t :: t in tasks ==> exists u :: u in units && units[u].taskId == t)
    && forall u :: u in units ==> LatestChildAgrees(r, deltas, units[u])
  }

  ghost predicate LatestChildAgrees(r: Option<UnderstandingRecord>, deltas: Deltas, unit: RequestUnit) {
    r.Some? && forall children :: ByCandidate(deltas, children) ==>
      var cs := ChildrenOf(CandidateIds(r.value.candidates), children, unit.taskId);
      cs != [] && AgreesWith(cs[|cs| - 1], unit)
  }

  predicate AgreesWith(d: AcceptedDelta, unit: RequestUnit) {
    d.goalText == unit.goalText && Elements(d.bindingRefs) == Elements(unit.bindingRefs)
    && d.messageRef in unit.goalSourceRefs
  }

  // ----- Histories -----

  predicate DeltaFitsHistory(t: Task, hs: seq<Transition>, d: AcceptedDelta) {
    match d.base
    case None => t.createdAt == d.acceptedAt
    case Some(base) =>
      && 1 <= base <= |hs| + 1 && 1 <= d.result <= |hs| + 1
      && EffectiveAt(t, hs, base) <= d.acceptedAt <= EffectiveAt(t, hs, d.result)
  }

  ghost predicate HistoriesClose(u: Option<UnderstandingRecord>, deltas: Deltas, tasks: map<Id, Task>,
                                 units: map<Id, RequestUnit>, history: map<Id, seq<Transition>>)
  {
    && history.Keys == tasks.Keys
    && forall t :: t in tasks ==>
         && CompleteHistory(tasks[t], history[t])
         && (forall h :: h in history[t] ==> h.taskId == t && h.unitId in units && units[h.unitId].taskId == t)
         && forall d :: d in deltas && deltas[d].taskId == t ==> DeltaFitsHistory(tasks[t], history[t], deltas[d])
  }

  // ----- Manifests, gates, calls -----

  function Refs<T>(pairs: seq<(Id, T)>): (r: seq<Id>)
    ensures |r| == |pairs| && forall i :: 0 <= i < |pairs| ==> r[i] == pairs[i].0
  {
    seq(|pairs|, i requires 0 <= i < |pairs| => pairs[i].0)
  }

  predicate ManifestCloses(run: Run, tasks: map<Id, Task>, history: map<Id, seq<Transition>>,
                           observations: map<Id, Observation>, m: ContextManifest)
  {
    && m.runId == run.runId && Distinct(m.messageRefs)
    && (m.taskRef.Some? ==>
          && m.taskRef.value.0 in tasks && m.taskRef.value.0 in history
          && Accepted(tasks[m.taskRef.value.0], history[m.taskRef.value.0], m.taskRef.value.1, m.assembledAt))
    && Distinct(Refs(m.observationRefs))
    && forall o :: o in m.observationRefs ==> o.0 in observations && observations[o.0].sourceVersion == o.1
  }

  predicate ManifestsClose(run: Run, tasks: map<Id, Task>, history: map<Id, seq<Transition>>,
                           observations: map<Id, Observation>, manifests: map<Id, ContextManifest>)
  {
    forall m :: m in manifests ==>
      manifests[m].manifestId == m && ManifestCloses(run, tasks, history, observations, manifests[m])
  }

  predicate GatesClose(gates: map<Id, GateDecision>, manifests: map<Id, ContextManifest>) {
    forall k :: k in gates ==>
      && gates[k].gateId == k && gates[k].manifestId in manifests && Distinct(gates[k].bindingRefs)
      && gates[k].modelCallId == manifests[gates[k].manifestId].modelCallId
  }

  predicate CallCloses(run: Run, tasks: map<Id, Task>, units: map<Id, RequestUnit>,
                       manifests: map<Id, ContextManifest>, gates: map<Id, GateDecision>, c: ToolCall)
  {
    && c.runId == run.runId && c.taskId in tasks && c.unitId in units && units[c.unitId].taskId == c.taskId
    && c.manifestId in manifests && c.gateId in gates
    && Distinct(c.bindingRefs) && (forall b :: b in c.bindingRefs ==> b in units[c.unitId].bindingRefs)
    && var gate, manifest := gates[c.gateId], manifests[c.manifestId];
       && gate.accepted && gate.resolvedTool == Some(c.tool) && gate.modelCallId == c.modelCallId
       && manifest.modelCallId == c.modelCallId && gate.manifestId == c.manifestId
       && Elements(gate.bindingRefs) == Elements(c.bindingRefs)
       && gate.validatedVersion == Some(c.validatedVersion) && manifest.registryVersion == c.registryVersion
       && c.validatedVersion <= tasks[c.taskId].version
  }

  predicate CallsClose(run: Run, tasks: map<Id, Task>, units: map<Id, RequestUnit>,
                       manifests: map<Id, ContextManifest>, gates: map<Id, GateDecision>, calls: map<Id, ToolCall>)
  {
    && (forall c :: c in calls ==> calls[c].callId == c && CallCloses(run, tasks, units, manifests, gates, calls[c]))
    && forall c, d :: c in calls && d in calls && calls[c].gateId == calls[d].gateId ==> c == d
  }

  predicate Finished(a: Attempt) { a.finishedAt.Some? && a.outcome.Some? }

  predicate AttemptsClose(calls: map<Id, ToolCall>, attempts: map<Id, seq<Attempt>>) {
    && attempts.Keys == calls.Keys
    && forall c :: c in calls ==> AttemptsClosed(calls[c], attempts[c])
  }

  predicate AttemptsClosed(c: ToolCall, xs: seq<Attempt>) {
    && c.attemptCount == |xs|
    && (forall i :: 0 <= i < |xs| ==> xs[i].callId == c.callId && xs[i].attemptNo == i + 1 && c.startedAt <= xs[i].startedAt)
    && (forall i, j | 0 <= i < |xs| && i < j < |xs| :: j == i + 1 ==>
          xs[i].finishedAt.Some? && xs[i].finishedAt.value <= xs[j].startedAt)
    && match c.status
       case CallCreated => true
       case CallRunning =>
         xs != [] && xs[|xs| - 1].finishedAt.None? && xs[|xs| - 1].outcome.None?
         && forall i :: 0 <= i < |xs| - 1 ==> Finished(xs[i])
       case CallInterrupted =>
         && (forall i :: 0 <= i < |xs| - 1 ==> Finished(xs[i]))
         && (xs != [] && xs[|xs| - 1].finishedAt.Some? ==>
               xs[|xs| - 1].outcome == Some(Interrupted) && c.finishedAt == xs[|xs| - 1].finishedAt)
       case _ =>
         && xs != [] && (forall i :: 0 <= i < |xs| ==> Finished(xs[i]))
         && OutcomeFits(c.status, xs[|xs| - 1].outcome.value)
         && c.finishedAt == xs[|xs| - 1].finishedAt && c.failureCode == xs[|xs| - 1].failureCode
  }

  // ----- One trace event -----

  predicate EventCloses(g: RunGraph, e: TraceEvent) {
    && e.runId == g.run.runId && e.caseId.None?
    && FieldsBelong(e)
    && DeltaRefCloses(g.deltas, g.units, e)
    && UnitRefsClose(g.tasks, g.units, e)
    && Distinct(e.bindingRefs)
    && ManifestRefCloses(g.manifests, e)
    && (e.callId.Some? ==> e.callId.value in g.calls && CallRefCloses(g.manifests, g.calls[e.callId.value], e))
    && (e.observationRef.Some? ==>
          && e.observationRef.value in g.observations
          && (e.kind.ObservationRecorded? ==> SourceCloses(g.calls, g.observations[e.observationRef.value], e)))
  }

  // Gate, terminal and outcome fields appear only on their own kinds.
  predicate FieldsBelong(e: TraceEvent) {
    && (!e.kind.GateDecisionRecorded? ==> e.gateAccepted.None? && e.gateReason.None?)
    && (!e.kind.RunStopped? ==> e.outcome.None? && e.stopReason.None?)
    && (if e.kind.ToolResultNormalized? then e.toolOutcome.Some? && e.callId.Some? else e.toolOutcome.None?)
  }

  predicate DeltaRefCloses(deltas: Deltas, units: map<Id, RequestUnit>, e: TraceEvent) {
    e.acceptedDeltaRef.Some? ==>
      && e.acceptedDeltaRef.value in deltas
      && var d := deltas[e.acceptedDeltaRef.value];
         && (e.messageRef.Some? ==> e.messageRef.value == d.messageRef)
         && (e.taskId.Some? ==> e.taskId.value == d.taskId)
         && (e.unitId.Some? ==> e.unitId.value in units && units[e.unitId.value].taskId == d.taskId)
  }

  predicate UnitRefsClose(tasks: map<Id, Task>, units: map<Id, RequestUnit>, e: TraceEvent) {
    && (e.taskId.Some? ==> e.taskId.value in tasks)
    && (e.unitId.Some? ==> e.unitId.value in units)
    && (e.taskId.Some? && e.unitId.Some? ==> units[e.unitId.value].taskId == e.taskId.value)
  }

  predicate ManifestRefCloses(manifests: map<Id, ContextManifest>, e: TraceEvent) {
    e.manifestId.Some? ==>
      && e.manifestId.value in manifests
      && var m := manifests[e.manifestId.value];
         && (e.modelCallId.Some? ==> e.modelCallId.value == m.modelCallId)
         && (e.toolsetHash.Some? ==> e.toolsetHash.value == m.toolsetHash)
         && (e.registryVersion.Some? ==> e.registryVersion.value == m.registryVersion)
  }

  predicate CallRefCloses(manifests: map<Id, ContextManifest>, c: ToolCall, e: TraceEvent) {
    && (e.taskId.Some? ==> e.taskId.value == c.taskId)
    && (e.unitId.Some? ==> e.unitId.value == c.unitId)
    && (e.manifestId.Some? ==> e.manifestId.value == c.manifestId)
    && (e.modelCallId.Some? ==> e.modelCallId.value == c.modelCallId)
    && (e.toolsetHash.Some? ==> c.manifestId in manifests && e.toolsetHash.value == manifests[c.manifestId].toolsetHash)
    && (e.registryVersion.Some? ==> e.registryVersion.value == c.registryVersion)
    && (e.bindingRefs != [] ==> Elements(e.bindingRefs) == Elements(c.bindingRefs))
  }

  predicate SourceCloses(calls: map<Id, ToolCall>, o: Observation, e: TraceEvent) {
    && e.callId.Some? && e.callId.value in calls
    && var c := calls[e.callId.value];
       && c.status.CallSucceeded? && c.effect.Read? && o.sourceTool == c.tool
       && e.taskId == Some(c.taskId) && e.unitId == Some(c.unitId) && e.at == o.recordedAt
  }

  // ----- Events of one kind -----

  function OfKind(trace: seq<TraceEvent>, kind: EventKind): (r: seq<TraceEvent>)
    ensures forall e :: e in r <==> e in trace && e.kind == kind
  {
    if trace == [] then []
    else
      var last, front := trace[|trace| - 1], OfKind(trace[..|trace| - 1], kind);
      assert trace == trace[..|trace| - 1] + [last];
      if last.kind == kind then front + [last] else front
  }

  // At most one normalised result per call, and it agrees with the terminal call and its last attempt.
  predicate NormalizedClose(calls: map<Id, ToolCall>, attempts: map<Id, seq<Attempt>>, trace: seq<TraceEvent>) {
    var es := OfKind(trace, ToolResultNormalized);
    && (forall i, j :: 0 <= i < j < |es| ==> es[i].callId != es[j].callId)
    && forall e :: e in es ==>
         e.callId.Some? && e.callId.value in calls && e.callId.value in attempts && e.toolOutcome.Some?
         && NormalizedAgrees(calls[e.callId.value], attempts[e.callId.value], e)
  }

  predicate NormalizedAgrees(c: ToolCall, xs: seq<Attempt>, e: TraceEvent)
    requires e.toolOutcome.Some?
  {
    && !c.status.Active() && Some(e.at) == c.finishedAt && OutcomeFits(c.status, e.toolOutcome.value)
    && if c.status.CallInterrupted?
       then (if c.attemptCount == 0 then xs == []
             else xs != [] && (xs[|xs| - 1].outcome.None? || xs[|xs| - 1].outcome == Some(Interrupted)))
       else xs != [] && xs[|xs| - 1].outcome == e.toolOutcome
  }

  // ----- Gate events -----

  // What a gate record and its trace event have in common.
  datatype GateView = GateView(
    modelCallId: Option<Id>, manifestId: Option<Id>, tool: Option<string>, version: Option<nat>, bindings: seq<Id>,
    accepted: Option<bool>, reason: Option<GateReason>)

  function EventView(e: TraceEvent): GateView {
    GateView(e.modelCallId, e.manifestId, e.requestedTool, e.validatedVersion, e.bindingRefs, e.gateAccepted, e.gateReason)
  }

  function RecordView(d: GateDecision): GateView {
    GateView(Some(d.modelCallId), Some(d.manifestId), Some(d.requestedTool), d.validatedVersion, d.bindingRefs,
             Some(d.accepted), d.reason)
  }

  function Viewed(es: seq<TraceEvent>, v: GateView): (r: seq<TraceEvent>)
    ensures forall e :: e in r <==> e in es && EventView(e) == v
  {
    if es == [] then []
    else
      var last, front := es[|es| - 1], Viewed(es[..|es| - 1], v);
      assert es == es[..|es| - 1] + [last];
      if EventView(last) == v then front + [last] else front
  }

  function Owners(gates: map<Id, GateDecision>, v: GateView): set<Id> { set k | k in gates && RecordView(gates[k]) == v }

  function InvalidOwners(gates: map<Id, GateDecision>, v: GateView): set<Id> {
    set k | k in gates && RecordView(gates[k]) == v && !gates[k].checks.argumentBindingValid
  }

  // The events whose unit does not hold all bindings of the view.
  function CrossUnit(es: seq<TraceEvent>, units: map<Id, RequestUnit>): nat {
    if es == [] then 0
    else
      var e := es[|es| - 1];
      CrossUnit(es[..|es| - 1], units)
      + if e.unitId.Some? && e.unitId.value in units
           && forall b :: b in e.bindingRefs ==> b in units[e.unitId.value].bindingRefs then 0 else 1
  }

  predicate GateEventsClose(gates: map<Id, GateDecision>, manifests: map<Id, ContextManifest>,
                            units: map<Id, RequestUnit>, trace: seq<TraceEvent>)
  {
    var es := OfKind(trace, GateDecisionRecorded);
    forall e :: e in es ==>
      && |Viewed(es, EventView(e))| <= |Owners(gates, EventView(e))|
      && e.taskId.Some? && e.unitId.Some?
      && e.manifestId.Some? && e.manifestId.value in manifests
      && (manifests[e.manifestId.value].taskRef.Some? ==> e.taskId == Some(manifests[e.manifestId.value].taskRef.value.0))
      && CrossUnit(Viewed(es, EventView(e)), units) <= |InvalidOwners(gates, EventView(e))|
  }

  // ----- RunStopped -----

  function Statuses(tasks: map<Id, Task>): set<TaskStatus> { set t | t in tasks :: tasks[t].status }

  predicate StopCloses(run: Run, tasks: map<Id, Task>, trace: seq<TraceEvent>) {
    var stops := OfKind(trace, RunStopped);
    if run.Active() || run.status.RunFailed? then stops == [] && (run.status.RunFailed? ==> run.stopReason.None?)
    else
      && |stops| == 1 && StopAgrees(run, stops[0])
      && if run.status.RunCompleted?
         then |Statuses(tasks)| <= 1 && run.stopReason.Some? && stops[0].outcome.Some?
              && InMatrix(run.stopReason.value, tasks, stops[0].outcome.value)
         else run.stopReason == Some(ProcessRestartDetected) && stops[0].outcome == Some(OutcomeBlocked)
  }

  predicate StopAgrees(run: Run, stop: TraceEvent) {
    && stop == PlainEvent(stop.eventId, RunStopped, stop.at, stop.runId).(outcome := stop.outcome, stopReason := stop.stopReason)
    && stop.stopReason == run.stopReason && Some(stop.at) == run.completedAt
  }

  predicate InMatrix(reason: StopReason, tasks: map<Id, Task>, outcome: AgentOutcome) {
    if tasks == map[] then TerminalRow(reason, false, outcome, None)
    else exists t :: t in tasks && TerminalRow(reason, true, outcome, Some(tasks[t].status))
  }

  // ----- Tool lifecycles -----

  function Phase(status: CallStatus): nat {
    match status
    case CallCreated => 0
    case CallRunning => 1
    case _ => 2
  }

  function LifecycleOf(trace: seq<TraceEvent>, call: Id): (r: seq<TraceEvent>)
    ensures forall e :: e in r ==> CallStatusOf(e.kind).Some?
  {
    if trace == [] then []
    else
      var last, front := trace[|trace| - 1], LifecycleOf(trace[..|trace| - 1], call);
      if CallStatusOf(last.kind).Some? && last.callId == Some(call) then front + [last] else front
  }

  function PhaseOf(e: TraceEvent): nat {
    match CallStatusOf(e.kind) case Some(s) => Phase(s) case None => 3
  }

  // By time, then phase, then identity.
  predicate LifeLe(a: TraceEvent, b: TraceEvent) {
    || a.at < b.at
    || (a.at == b.at && PhaseOf(a) < PhaseOf(b))
    || (a.at == b.at && PhaseOf(a) == PhaseOf(b) && a.eventId <= b.eventId)
  }

  predicate LifecycleCloses(c: ToolCall, trace: seq<TraceEvent>) {
    var es := Sorting.Sort(LifecycleOf(trace, c.callId), LifeLe);
    && es != []
    && (forall i :: 0 <= i < |es| ==> CallStatusOf(es[i].kind).Some? && c.startedAt <= es[i].at)
    && (forall i, j | 0 <= i < |es| && i < j < |es| :: j == i + 1 ==> PhaseOf(es[i]) < PhaseOf(es[j]))
    && CallStatusOf(es[|es| - 1].kind) == Some(c.status)
    && (!c.status.Active() ==>
          && Some(es[|es| - 1].at) == c.finishedAt
          && forall i :: 0 <= i < |es| ==> es[i].at <= es[|es| - 1].at)
  }

  predicate LifecyclesClose(calls: map<Id, ToolCall>, trace: seq<TraceEvent>) {
    forall c :: c in calls ==> LifecycleCloses(calls[c], trace)
  }

  // ----- Observation source edges -----

  predicate SourceEdgesClose(observations: map<Id, Observation>, trace: seq<TraceEvent>) {
    var es := OfKind(trace, ObservationRecorded);
    && (forall e :: e in es && e.observationRef.Some? ==> e.observationRef.value in observations)
    && (forall o :: o in observations ==> exists e :: e in es && e.observationRef == Some(o))
    && forall i, j :: 0 <= i < j < |es| && es[i].observationRef.Some? ==> es[i].observationRef != es[j].observationRef
  }

  // ----- Exact referenced sets -----

  function UnderstandingMessages(u: Option<UnderstandingRecord>): set<Id> {
    match u
    case None => {}
    case Some(r) =>
      {r.messageRef} + Elements(r.context.sourceRefs) + (set x | x in r.context.references :: x.sourceRef)
      + (set c, x | c in r.candidates && x in c.inputs :: x.sourceRef)
  }

  ghost function ReferencedMessages(g: RunGraph): set<Id> {
    UnderstandingMessages(g.understanding)
    + (set d | d in g.deltas :: g.deltas[d].messageRef)
    + (set u, m | u in g.units && m in g.units[u].goalSourceRefs :: m)
    + (set b, m | b in g.bindings && m in g.bindings[b].sourceRefs :: m)
    + (set k, m | k in g.manifests && m in g.manifests[k].messageRefs :: m)
    + TraceMessages(g.trace)
  }

  function TraceMessages(trace: seq<TraceEvent>): set<Id> { set e | e in trace && e.messageRef.Some? :: e.messageRef.value }

  ghost function ReferencedBindings(g: RunGraph): set<Id> {
    (set d, b | d in g.deltas && b in g.deltas[d].bindingRefs :: b)
    + (set u, b | u in g.units && b in g.units[u].bindingRefs :: b)
    + (set k, b | k in g.gates && b in g.gates[k].bindingRefs :: b)
    + (set c, b | c in g.calls && b in g.calls[c].bindingRefs :: b)
    + TraceBindings(g.trace)
  }

  function TraceBindings(trace: seq<TraceEvent>): set<Id> {
    (set e | e in trace && e.inputBindingRef.Some? :: e.inputBindingRef.value)
    + (set e, b | e in trace && b in e.bindingRefs :: b)
  }

  ghost function ReferencedObservations(g: RunGraph): set<Id> {
    (set u, o | u in g.units && o in g.units[u].observationRefs :: o)
    + (set k, o | k in g.manifests && o in g.manifests[k].observationRefs :: o.0)
    + TraceObservations(g.trace)
  }

  function TraceObservations(trace: seq<TraceEvent>): set<Id> {
    set e | e in trace && e.observationRef.Some? :: e.observationRef.value
  }

  function ReferencedArtifacts(g: RunGraph): set<string> {
    (set k | k in g.manifests :: g.manifests[k].toolsetHash)
    + (set e | e in g.trace && e.toolsetHash.Some? :: e.toolsetHash.value)
  }

  function BindingChains(bindings: map<Id, InputBinding>): Supersedes.Chains { map b | b in bindings :: bindings[b].supersedes }

  function ObservationChains(observations: map<Id, Observation>): Supersedes.Chains {
    map o | o in observations :: observations[o].supersedes
  }

  // A family is exactly what is reached from its references along `supersedes`.
  ghost predicate ExactFamily(chains: Supersedes.Chains, references: set<Id>) {
    && Supersedes.Sound(chains, references)
    && forall n :: n in chains <==> Supersedes.Reached(chains, references, n)
  }

  ghost predicate ReferencesExact(e: Evidence) {
    && e.messages.Keys == ReferencedMessages(e.g)
    && ExactFamily(BindingChains(e.g.bindings), ReferencedBindings(e.g))
    && ExactFamily(ObservationChains(e.g.observations), ReferencedObservations(e.g))
    && e.artifacts == ReferencedArtifacts(e.g)
  }
}
