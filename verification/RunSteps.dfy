// What each step of a turn writes, when it may be sent, and what it leaves.

module RunSteps {
  import opened Records
  import opened Understanding
  import opened Commands
  import opened RecoveryCommands
  import opened RunStore
  import opened Protocol
  import opened Host
  import opened RuntimePort
  import opened RunClient
  import opened Proposals
  import opened Reducer
  import opened ReduceRequest
  import opened ReducerTotal
  import opened Turns
  import opened TurnProgress
  import opened ReadExecutor
  import Gateway
  import Integrity
  import OrderId

  // ----- What the turn's partners come back with -----

  datatype Proposed =
    | Proposal(output: ModelOutput)
    | CandidateInvalid
    | ProtocolFailure
    | ProposalRaises(signal: Signal)

  // The presentation plan, whether it passes the policy, and what is rendered from it.
  datatype Planned =
    | Plan(valid: bool, rendered: Option<string>)
    | PlanProtocolFailure
    | PlanRaises(signal: Signal)

  // The reducer's answer as the service sorts it.
  method ReduceOnce(request: ModelInput, output: ModelOutput, user: Message, owner: string, recordId: Id,
                    allocations: seq<Allocation>, moveRef: Id, now: Time, ghost bound: Id)
    returns (r: Awaited<Option<Decision>>)
    requires output.Valid() && AllocationsOk(allocations, output.candidates, recordId, moveRef)
    ensures r == Answer(None) ==> !Provenance(request, output, Authoritative(user))
    ensures r.Answer? && r.value.Some? ==>
              DecidedFrom(request, user, owner, output, r.value.value) && r.value.value.closure.record.createdAt == now
    ensures r.Raised? ==> Unroutable(request, user, output, bound)
  {
    hide Provenance, AllocationsOk, ModelOutput.Valid, Graphs, Decision.Valid, ClosureOf, DecisionOf, Acceptable,
      DecidedFrom, Reducer.ByCandidate, QuotesFound;
    var reduction, ids := Reduce(request, output, Authoritative(user), owner, recordId, allocations, moveRef, now);
    if reduction.Refused? {
      return if reduction.reason.SourceProvenanceInvalid? then Answer(None) else Raised(Exception);
    }
    DecidedIs(request, user, owner, output, ids, recordId, moveRef, now, reduction.decision);
    if !reduction.decision.Routable? { return Raised(Exception); }
    return Answer(Some(reduction.decision));
  }

  lemma CandidatesDiffer(output: ModelOutput)
    requires output.Valid()
    ensures forall i, j :: 0 <= i < j < |output.candidates| ==> output.candidates[i].candidateId != output.candidates[j].candidateId
  {
  }

  lemma CollisionIsUnroutable(input: ModelInput, user: Message, output: ModelOutput, low: Id, bound: Id)
    requires bound <= low && exists c :: c in output.candidates && low <= c.candidateId
    ensures Unroutable(input, user, output, bound)
  {
  }

  // The records of a Run that has just started.
  predicate BegunWith(owner: string, text: string, conversation: Conversation, user: Message, running: Run, now: Time) {
    && conversation.owner == owner && user.content == text && user.direction.FromUser?
    && user.conversationId == conversation.conversationId
    && running.Valid() && running.status.RunRunning? && running.incompleteReason.None?
    && running.conversationId == Some(conversation.conversationId)
    && running.startedAt == user.receivedAt <= now
  }

  lemma StartIsSendable(conversation: Conversation, user: Message, created: Run, running: Run, bound: Id)
    requires created.Valid() && created.status.RunCreated? && created.incompleteReason.None?
    requires running == created.(status := RunRunning)
    ensures var g, w := Inserted(conversation, created, user), Start(StartRunCommand(created, running));
            && Sendable(g, w) && NeedsActive(w) && Lands(g, w)
            && ApplyWrite(g, w) == Inserted(conversation, running, user) == Written(g, w)
            && (user.messageId < bound ==> IdsBelow(Inserted(conversation, running, user), bound))
  {
  }

  // The opening as the trace calls leave it.
  lemma Opened(conversation: Conversation, running: Run, user: Message, m: ContextManifest,
               a: TraceEvent, b: TraceEvent, c: TraceEvent, d: TraceEvent)
    requires a == MessageAcceptedEvent(0, 0, running.runId, user.messageId).(eventId := a.eventId, at := a.at)
    requires b == RunStartedEvent(0, 0, running.runId).(eventId := b.eventId, at := b.at)
    requires c == UnderstandingStartedEvent(0, 0, running.runId, user.messageId, m.modelCallId).(eventId := c.eventId, at := c.at)
    requires d == ManifestEvent(d.eventId, d.at, m, "REQUEST_UNDERSTANDING")
    requires m.runId == running.runId && m.messageRefs == [user.messageId] && m.taskRef.None? && m.observationRefs == []
    ensures OpenedWith(running.runId, user, m, [a, b, c, d])
    ensures var g := AppendWrites(AppendWrites(AppendWrites(Inserted(conversation, running, user), a), b), c);
            AppendWrites(AuditWrites(g, g.manifests[m.manifestId := m], g.gates), d)
            == OpenGraph(conversation, running, user, m, [a, b, c, d])
  {
  }

  predicate Appendable(e: TraceEvent, runId: Id) { e.runId == runId && e.Valid() && !e.kind.RunStopped? }

  lemma OpeningShapes(runId: Id, messageId: Id)
    ensures Appendable(MessageAcceptedEvent(0, 0, runId, messageId), runId) && Appendable(RunStartedEvent(0, 0, runId), runId)
    ensures forall modelCallId :: Appendable(UnderstandingStartedEvent(0, 0, runId, messageId, modelCallId), runId)
  {
  }

  lemma AppendsKeepRun()
    ensures forall g, e :: AppendWrites(g, e).run == g.run && AppendWrites(g, e).conversation == g.conversation
  {
  }

  lemma InsertedRun(conversation: Conversation, run: Run, user: Message)
    ensures Inserted(conversation, run, user).run == run
  {
  }

  lemma ManifestIsSendable(g: RunGraph, m: ContextManifest, bound: Id, b: Id)
    requires Unfinished(g)
    ensures var w := Write.SaveManifest(m);
            && Sendable(g, w) && !NeedsActive(w) && Written(g, w) == AuditWrites(g, g.manifests[m.manifestId := m], g.gates)
            && Unfinished(ApplyWrite(g, w)) && Unfinished(Written(g, w))
            && (IdsBelow(g, bound) && bound <= m.manifestId ==> Lands(g, w))
    ensures IdsBelow(g, bound) && m.manifestId < b && bound <= b ==>
              IdsBelow(AuditWrites(g, g.manifests[m.manifestId := m], g.gates), b)
    ensures forall h :: Claimed(h) ==> Unfinished(h)
  {
    hide RecoveryCommand.Valid, CreateGraphCommand.Valid, FinalizeRunCommand.Valid, TaskTransitionCommand.Valid,
      RecoverMatches, FinalizeMatches, CreateMatches, AlreadyCreated;
  }

  // ----- Understanding the request -----

  // Distinct identities, all drawn in the given range.
  predicate IdsFrom(ids: seq<Id>, low: Id, high: Id) { Distinct(ids) && forall x :: x in ids ==> low <= x < high }

  lemma DistinctJoin(a: seq<Id>, b: seq<Id>)
    requires Distinct(a) && Distinct(b) && forall x :: x in a ==> x !in b
    ensures Distinct(a + b)
  {
    forall i, j | 0 <= i < j < |a + b| ensures (a + b)[i] != (a + b)[j] {
      if i < |a| <= j { assert a[i] in a && b[j - |a|] in b; }
    }
  }

  lemma {:induction false} GeneratedGrows(allocations: seq<Allocation>, a: Allocation, low: Id, mark: Id)
    requires IdsFrom(Generated(allocations), low, mark) && low <= mark
    requires AllocationIds(a) == [mark, mark + 1, mark + 2, mark + 3]
    ensures IdsFrom(Generated(allocations + [a]), low, mark + 4)
  {
    assert (allocations + [a])[..|allocations|] == allocations;
    DistinctJoin(Generated(allocations), AllocationIds(a));
  }

  lemma {:induction false} AllocatedOk(allocations: seq<Allocation>, cs: seq<Candidate>, recordId: Id, moveRef: Id, low: Id, high: Id)
    requires |allocations| == |cs| && forall i :: 0 <= i < |cs| ==> allocations[i].candidateRef == cs[i].candidateId
    requires forall i, j :: 0 <= i < j < |cs| ==> cs[i].candidateId != cs[j].candidateId
    requires IdsFrom(Generated(allocations), low, high) && recordId < low && high <= moveRef && low <= high
    ensures AllocationsOk(allocations, cs, recordId, moveRef)
  {
    var refs, candidates := set a | a in allocations :: a.candidateRef, set c | c in cs :: c.candidateId;
    forall i | 0 <= i < |cs| ensures cs[i].candidateId in refs && allocations[i].candidateRef in candidates {
      assert allocations[i] in allocations && cs[i] in cs;
    }
    assert refs == candidates;
    DistinctJoin([recordId, moveRef], Generated(allocations));
  }

  function Authoritative(user: Message): Messages { map[user.messageId := user.content] }

  // The decision is the reducer's, with some allocation of identities.
  ghost predicate DecidedFrom(input: ModelInput, user: Message, owner: string, output: ModelOutput, d: Decision) {
    && d.Routable? && d.Valid() && output.Valid() && Provenance(input, output, Authoritative(user))
    && exists ids: Allocations, recordId: Id, moveRef: Id, now: Time ::
         ReducedTo(input, user, owner, output, ids, recordId, moveRef, now, d)
  }

  ghost predicate ReducedTo(input: ModelInput, user: Message, owner: string, output: ModelOutput, ids: Allocations,
                            recordId: Id, moveRef: Id, now: Time, d: Decision)
    requires Provenance(input, output, Authoritative(user))
  {
    && (forall c :: c in output.candidates ==> c.candidateId in ids)
    && var gs := Graphs(output, output.candidates, ids, owner, now);
       d == DecisionOf(output, ClosureOf(input, output, Authoritative(user), gs, recordId, moveRef, now), gs, moveRef)
  }

  // Why a proposal of the model comes to nothing: an identity it took is used
  // again, or there is not exactly one candidate, which is acceptable.
  ghost predicate Unroutable(input: ModelInput, user: Message, output: ModelOutput, bound: Id) {
    || (exists c :: c in output.candidates && bound <= c.candidateId)
    || (Provenance(input, output, Authoritative(user))
        && !(|output.candidates| == 1 && Acceptable(output, output.candidates[0])))
  }

  lemma DecidedIs(input: ModelInput, user: Message, owner: string, output: ModelOutput, ids: Allocations,
                  recordId: Id, moveRef: Id, now: Time, d: Decision)
    requires output.Valid() && Provenance(input, output, Authoritative(user)) && d.Valid()
    requires ReducedTo(input, user, owner, output, ids, recordId, moveRef, now, d)
    ensures d.Routable? ==> DecidedFrom(input, user, owner, output, d) && d.closure.record.createdAt == now
    ensures !d.Routable? ==> !(|output.candidates| == 1 && Acceptable(output, output.candidates[0]))
  {
    hide Provenance, ModelOutput.Valid, Graphs, Decision.Valid, Acceptable;
    ProvenanceQuotes(input, output, Authoritative(user));
    OutcomeExactly(input, output, Authoritative(user), ids, owner, recordId, moveRef, now);
  }

  lemma {:induction false} CollidingCandidate(allocations: seq<Allocation>, cs: seq<Candidate>, low: Id, high: Id)
    requires |allocations| == |cs| && forall i :: 0 <= i < |cs| ==> allocations[i].candidateRef == cs[i].candidateId
    requires IdsFrom(Generated(allocations), low, high) && exists a :: a in allocations && !a.Valid()
    ensures exists c :: c in cs && low <= c.candidateId
  {
    var i :| 0 <= i < |allocations| && !allocations[i].Valid();
    GeneratedHolds(allocations, i);
    var a := allocations[i];
    assert cs[i] in cs;
    var ids := AllocationIds(a);
    assert ids[0] != ids[1] && ids[0] != ids[2] && ids[0] != ids[3] && ids[1] != ids[2] && ids[1] != ids[3] && ids[2] != ids[3];
    assert ids[0] in ids && ids[1] in ids && ids[2] in ids && ids[3] in ids;
    assert a.candidateRef in ids;
  }

  // ----- The initial Task graph -----

  function InitialProgress(conversation: Conversation, user: Message, running: Run, m: ContextManifest,
                           es: seq<TraceEvent>, d: Decision): Progress
    requires d.Routable?
  {
    Progress(conversation, user, running, m, es, d.closure.record, d.graph.delta, d.graph.binding, d.graph.task, d.graph.unit,
             ConversationTaskLink(conversation.conversationId, d.graph.task.taskId, d.closure.record.createdAt, None),
             if d.move.tool.Some? then d.move.tool.value else "", [], None, None, None, None)
  }

  lemma DecidedFacts(input: ModelInput, user: Message, owner: string, output: ModelOutput, d: Decision)
    requires DecidedFrom(input, user, owner, output, d)
    ensures d.Routable? && d.Valid() && d.move == output.move && output.Valid()
    ensures d.closure.record.runId == input.runId && d.closure.record.messageRef == output.messageRef == input.messageRef
    ensures d.graph.task.owner == owner && QuotesFound(output, Authoritative(user))
    ensures d.closure.record.context == ProjectedContext(output.context, Authoritative(user))
    ensures d.closure.record.context.sourceRefs == output.context.sourceRefs
  {
    hide ModelOutput.Valid, Decision.Valid, Rejection, QuoteFound;
    var ids: Allocations, recordId: Id, moveRef: Id, now: Time :|
      ReducedTo(input, user, owner, output, ids, recordId, moveRef, now, d);
    var at := GraphsSourced(output, output.candidates, ids, owner, now);
    var gs := Graphs(output, output.candidates, ids, owner, now);
    hide Graphs;
    assert SourcedAt(output, output.candidates, ids, owner, now, gs[0], at[0]);
  }

  // With no recent messages everything refers to the current one.
  lemma OneSource(input: ModelInput, user: Message, output: ModelOutput)
    requires Provenance(input, output, Authoritative(user)) && input.recentRefs == [] && input.messageRef == user.messageId
    ensures forall m :: m in output.context.sourceRefs ==> m == user.messageId
  {
    hide QuotesFound;
  }

  lemma OneMessage(user: Message, r: UnderstandingRecord)
    requires r.Valid() && r.messageRef == user.messageId
    requires forall m :: m in r.context.sourceRefs ==> m == user.messageId
    ensures r.MessageRefs() == {user.messageId}
  {
    forall c, x | c in r.candidates && x in c.inputs ensures x.sourceRef == user.messageId {
      var i :| 0 <= i < |r.candidates| && r.candidates[i] == c;
      var j :| 0 <= j < |c.inputs| && c.inputs[j] == x;
    }
  }

  lemma DecisionIsWritable(input: ModelInput, owner: string, conversation: Conversation, user: Message, running: Run,
                           output: ModelOutput, d: Decision, now: Time)
    requires DecidedFrom(input, user, owner, output, d)
    requires input == ModelInput(running.runId, user.messageId, user.content, [])
    requires BegunWith(owner, user.content, conversation, user, running, now) && running.startedAt <= d.closure.record.createdAt
    ensures d.Routable? && InitialGraphCommand(d, owner, conversation, user, running).Valid()
  {
    hide ModelOutput.Valid, Decision.Valid, Provenance, QuotesFound, ProjectedContext, ProjectedCandidates,
      UnderstandingRecord.Valid, UnderstandingRecord.MessageRefs, CreateGraphCommand.Valid;
    DecidedFacts(input, user, owner, output, d);
    RecordIsValid(d);
    OneSource(input, user, output);
    OneMessage(user, d.closure.record);
    NewGoalHasNoBase(output);
    RoutableGraphIsWritable(d, owner, conversation, user, running);
  }

  lemma RecordIsValid(d: Decision)
    requires d.Valid()
    ensures d.closure.record.Valid()
  {
    hide UnderstandingRecord.Valid;
  }

  lemma NewGoalHasNoBase(output: ModelOutput)
    requires output.Valid()
    ensures output.move.base.None? && output.move.Valid()
  {
  }

  lemma CreationIs(owner: string, conversation: Conversation, user: Message, running: Run, m: ContextManifest,
                   es: seq<TraceEvent>, d: Decision, now: Time)
    requires d.Routable? && BegunWith(owner, user.content, conversation, user, running, now)
    ensures var p := InitialProgress(conversation, user, running, m, es, d);
            p.RunningOk() && p.Creation() == InitialGraphCommand(d, owner, conversation, user, running)
  {
  }

  lemma CreationIsSendable(g: RunGraph, p: Progress)
    requires g == OpenGraph(p.conversation, p.running, p.user, p.manifest, p.opening) && p.Creation().Valid()
    requires p.running.status.RunRunning?
    ensures var w := CreateGraph(p.Creation());
            && Sendable(g, w) && NeedsActive(w) && Lands(g, w)
            && Written(g, w) == ApplyWrite(g, w) == CreateWrites(g, p.Creation())
            && Unfinished(g) && Unfinished(CreateWrites(g, p.Creation()))
    ensures forall b :: IdsBelow(g, b) ==> IdsBelow(CreateWrites(g, p.Creation()), b)
    ensures forall h :: Claimed(h) ==> Unfinished(h)
  {
    hide CreateGraphCommand.Valid;
  }

  // ----- The decision in the trace -----

  function KindName(kind: MoveKind): string {
    match kind
    case CallTool => "CALL_TOOL"
    case AskUser => "ASK_USER"
    case Finish => "FINISH"
    case Escalate => "ESCALATE"
  }

  predicate Undecided(p: Progress) {
    p.decided == [] && p.hook.None? && p.gate.None? && p.tool.None? && p.found.None? && p.running.status.RunRunning?
  }

  predicate ComesFrom(p: Progress, d: Decision)
    requires d.Routable?
  {
    p.record == d.closure.record && p.delta == d.graph.delta && p.binding == d.graph.binding && p.task == d.graph.task
    && p.unit == d.graph.unit && p.requested == if d.move.tool.Some? then d.move.tool.value else ""
  }

  predicate FirstFive(p: Progress, move: NextMove, es: seq<TraceEvent>) {
    && |es| == 5
    && es[0] == NextMoveEvent(es[0].eventId, es[0].at, p.record, p.manifest, KindName(move.kind), move.tool)
    && es[1] == DeltaValidatedEvent(es[1].eventId, es[1].at, p.record, p.delta)
    && es[2] == DeltaAcceptedEvent(es[2].eventId, es[2].at, p.record, p.delta, p.unit)
    && es[3] == BindingEvent(es[3].eventId, es[3].at, p.running.runId, p.unit, p.binding)
    && es[4] == UnitChangedEvent(es[4].eventId, es[4].at, p.running.runId, p.unit)
  }

  lemma GraphTasks(p: Progress)
    ensures p.Graph().tasks == map[p.task.taskId := p.Current().0] && p.Graph().units == map[p.unit.unitId := p.Current().1]
    ensures p.Graph().run == p.running && p.Graph().conversation == p.conversation
  {
    hide Progress.Manifests, Progress.Calls, Progress.Attempts, Progress.Observations, Progress.Sources, Progress.Gates,
      Progress.Trace, Progress.Transitions;
  }

  lemma GraphRuns(p: Progress)
    ensures p.Graph().run == p.running && p.Graph().conversation == p.conversation
  {
    hide Progress.Manifests, Progress.Calls, Progress.Attempts, Progress.Observations, Progress.Sources, Progress.Gates,
      Progress.Trace, Progress.Transitions, Progress.Current;
  }

  lemma ProposalShapes(runId: Id, record: UnderstandingRecord, delta: AcceptedDelta, unit: RequestUnit,
                       m: ContextManifest, move: NextMove)
    requires record.runId == runId
    ensures Appendable(NextMoveEvent(0, 0, record, m, KindName(move.kind), move.tool), runId)
    ensures Appendable(DeltaValidatedEvent(0, 0, record, delta), runId)
    ensures Appendable(DeltaAcceptedEvent(0, 0, record, delta, unit), runId)
  {
    hide KindName;
  }

  lemma DecisionShapes(runId: Id, unit: RequestUnit, b: InputBinding)
    ensures Appendable(BindingEvent(0, 0, runId, unit, b), runId)
    ensures Appendable(UnitChangedEvent(0, 0, runId, unit), runId)
  {
  }

  lemma DecisionRoots(p: Progress, d: Decision)
    requires Undecided(p) && d.Routable? && ComesFrom(p, d)
    ensures p.record == d.closure.record && p.delta == d.graph.delta && p.unit == d.graph.unit
    ensures p.binding == d.graph.binding && p.running.status.RunRunning?
  {
  }

  lemma FirstFiveHold(p: Progress, move: NextMove, a: TraceEvent, b: TraceEvent, c: TraceEvent, e: TraceEvent, f: TraceEvent)
    requires Undecided(p)
    requires a == NextMoveEvent(0, 0, p.record, p.manifest, KindName(move.kind), move.tool).(eventId := a.eventId, at := a.at)
    requires b == DeltaValidatedEvent(0, 0, p.record, p.delta).(eventId := b.eventId, at := b.at)
    requires c == DeltaAcceptedEvent(0, 0, p.record, p.delta, p.unit).(eventId := c.eventId, at := c.at)
    requires e == BindingEvent(0, 0, p.running.runId, p.unit, p.binding).(eventId := e.eventId, at := e.at)
    requires f == UnitChangedEvent(0, 0, p.running.runId, p.unit).(eventId := f.eventId, at := f.at)
    ensures FirstFive(p, move, [a, b, c, e, f])
    ensures AppendWrites(AppendWrites(AppendWrites(AppendWrites(AppendWrites(p.Graph(), a), b), c), e), f)
            == p.(decided := [a, b, c, e, f]).Graph()
  {
    hide KindName;
    assert p.Trace() + [a] + [b] + [c] + [e] + [f] == p.(decided := [a, b, c, e, f]).Trace();
  }

  // ----- Revalidation and the fault seam -----

  predicate NothingGated(p: Progress) {
    p.hook.None? && p.gate.None? && p.tool.None? && p.found.None? && p.running.status.RunRunning?
  }

  lemma MoveIs(p: Progress, d: Decision, move: Gateway.RevalidatedMove)
    requires d.Routable? && ComesFrom(p, d)
    requires Some(move) == Gateway.Revalidate(d, d.graph.task, d.graph.unit, d.graph.binding)
    ensures move.tool == p.requested && move.validatedVersion == 1 && move.bindingRefs == [p.binding.bindingId]
    ensures d.move.kind.CallTool? && move.proposedBase == d.move.base && move.bindingOrderId == p.binding.orderId
    ensures move.runId == d.closure.record.runId && move.taskId == p.task.taskId && move.unitId == p.unit.unitId
    ensures d.move.tool.Some?
  {
  }

  lemma RevalidatedShape(runId: Id, unit: RequestUnit, modelCallId: Id, move: Gateway.RevalidatedMove)
    ensures Appendable(
              RevalidatedEvent(0, 0, runId, unit, modelCallId, move.tool, move.validatedVersion, move.bindingRefs), runId)
  {
  }

  lemma SixthHolds(p: Progress, d: Decision, m: ContextManifest, move: Gateway.RevalidatedMove, e: TraceEvent)
    requires d.Routable? && ComesFrom(p, d) && FirstFive(p, d.move, p.decided) && p.manifest == m && d.move.kind.CallTool?
    requires d.move.tool.Some?
    requires Undecided(p.(decided := []))
    requires move.tool == p.requested && move.validatedVersion == 1 && move.bindingRefs == [p.binding.bindingId]
    requires e == RevalidatedEvent(0, 0, p.running.runId, d.graph.unit, m.modelCallId, move.tool, move.validatedVersion,
                                   move.bindingRefs).(eventId := e.eventId, at := e.at)
    ensures DecidedWith(p.running.runId, m, p.record, p.delta, p.binding, p.unit, p.requested, p.decided + [e])
    ensures AppendWrites(p.Graph(), e) == p.(decided := p.decided + [e]).Graph()
  {
    DecidedGraph(p, e);
    hide Progress.Graph;
  }

  // The Task graph is the one the creation command wrote.
  lemma CreatedTask(p: Progress)
    requires p.Creation().Valid()
    ensures p.task.Valid() && p.task.status.TaskActive? && p.task.version == 1 && p.task.updatedAt == p.record.createdAt
    ensures p.unit.Valid() && p.unit.status.TaskActive? && p.unit.version == 1 && p.unit.updatedAt == p.record.createdAt
    ensures p.unit.taskId == p.task.taskId && p.unit.bindingRefs == [p.binding.bindingId]
    ensures p.unit.observationRefs == [] && p.unit.resultRefs == [] && p.task.owner == p.conversation.owner
    ensures p.task.createdAt == p.record.createdAt
  {
    hide CreateGraphCommand.AcceptedChildCloses, CreateGraphCommand.RootsClose, CreateGraphCommand.BindingProjectsCandidate,
      CreateGraphCommand.LinksClose;
  }

  predicate HookStep(p: Progress, c: TaskTransitionCommand) {
    && c.expectedTask == p.task && c.expectedUnit == p.unit
    && c.nextTask == p.task.(status := TaskWaitingUser, version := 2, updatedAt := c.transition.changedAt,
                             lastOutcomeRef := c.nextTask.lastOutcomeRef)
    && c.nextUnit == p.unit.(status := TaskWaitingUser, version := 2, updatedAt := c.transition.changedAt)
    && c.transition == Transition(p.task.taskId, p.unit.unitId, TaskActive, TaskWaitingUser, 1, 2, c.transition.reasonRef,
                                  c.transition.changedAt)
  }

  lemma HookIsValid(p: Progress, c: TaskTransitionCommand)
    requires p.Creation().Valid() && HookStep(p, c) && p.task.updatedAt <= c.transition.changedAt
    ensures c.Valid() && c.expectedTask.status.Recoverable()
  {
    hide CreateGraphCommand.Valid, Progress.Creation;
    CreatedTask(p);
  }

  lemma AdvanceBelow(g: RunGraph, c: TaskTransitionCommand)
    requires TransitMatches(g, c)
    ensures forall b :: IdsBelow(g, b) ==> IdsBelow(Advance(g, c), b)
    ensures Advance(g, c).run == g.run
  {
  }

  lemma HookIsSendable(g: RunGraph, p: Progress, c: TaskTransitionCommand)
    requires hide *; g == p.Graph() && NothingGated(p) && c.Valid() && c.expectedTask.status.Recoverable()
    requires c.expectedTask == p.task && c.expectedUnit == p.unit
    ensures Sendable(g, Transit(c)) && NeedsActive(Transit(c)) && Lands(g, Transit(c)) && TransitMatches(g, c)
    ensures Written(g, Transit(c)) == ApplyWrite(g, Transit(c)) == Advance(g, c)
    ensures Appendable(UnitChangedEvent(0, 0, p.running.runId, p.unit), p.running.runId)
  {
    hide TaskTransitionCommand.Valid, Progress.Trace, Advance;
  }

  lemma HookHolds(p: Progress, c: TaskTransitionCommand, e: TraceEvent)
    requires c.Valid() && HookStep(p, c) && p.unit.observationRefs == []
    requires e == UnitChangedEvent(0, 0, p.running.runId, p.unit).(eventId := e.eventId, at := e.at)
    requires e.at == c.transition.changedAt
    ensures HookOk(p.running.runId, p.task, p.unit, Moved(c.nextTask, c.nextUnit, c.transition), e)
  {
  }

  // ----- The gate -----

  // The revalidated move is about the turn's own graph.
  predicate MoveFits(p: Progress, move: Gateway.RevalidatedMove) {
    && move.Valid() && move.tool == p.requested && move.validatedVersion == 1 && move.bindingRefs == [p.binding.bindingId]
    && move.proposedBase.None?
  }

  // What the handler loaded is what it left, unless recovery came in between.
  predicate AtCurrent(g: RunGraph, p: Progress, task: Task, unit: RequestUnit) {
    || (g == p.Graph() && (task, unit) == p.Current())
    || (Claimed(g) && !(task.status.TaskActive? && unit.status.TaskActive?))
  }

  // The gate let the move through: the registration resolves and the Task is the revalidated one.
  predicate AcceptedBy(gate: GateDecision, move: Gateway.RevalidatedMove, owner: string, task: Task, unit: RequestUnit,
                       binding: InputBinding, snapshot: Gateway.Snapshot, m: ContextManifest)
  {
    && gate.resolvedTool == Some("get_order") && move.tool == "get_order" && gate.requestedTool == "get_order"
    && task.owner == owner && task.status.TaskActive? && unit.status.TaskActive? && task.version == 1
    && Gateway.ResolveValidatedGetOrder(snapshot, gate.requestedTool).Some?
    && gate.accepted
    && gate == Gateway.Evaluate(gate.gateId, move, owner, task, unit, binding, snapshot, m, m.modelCallId,
                                Gateway.Budget(0, 1), true, gate.decidedAt)
  }

  lemma GraphIsNotClaimed(p: Progress)
    requires p.running.status.RunRunning?
    ensures !Claimed(p.Graph())
  {
    GraphRuns(p);
    hide Progress.Graph;
  }

  lemma AtCurrentRuns(g: RunGraph, p: Progress, task: Task, unit: RequestUnit)
    requires AtCurrent(g, p, task, unit) && p.running.status.RunRunning?
    ensures Unfinished(g) && (g == p.Graph() || Claimed(g))
  {
    GraphRuns(p);
    hide Progress.Graph;
  }

  // The RequestUnit keeps its identity when the hook moves it.
  predicate SameUnit(p: Progress) { p.Current().1.taskId == p.unit.taskId && p.Current().1.unitId == p.unit.unitId }

  lemma GateIsSound(p: Progress, move: Gateway.RevalidatedMove, owner: string, task: Task, unit: RequestUnit,
                    snapshot: Gateway.Snapshot, gateId: Id, decidedAt: Time, g: RunGraph)
    requires MoveFits(p, move) && AtCurrent(g, p, task, unit)
    requires p.hook.Some? ==> !p.Current().0.status.TaskActive?
    ensures var m := p.manifest;
            var gate := Gateway.Evaluate(gateId, move, owner, task, unit, p.binding, snapshot, m, m.modelCallId,
                                         Gateway.Budget(0, 1), true, decidedAt);
            && gate.gateId == gateId && gate.decidedAt == decidedAt && gate.Valid()
            && gate.manifestId == m.manifestId && gate.modelCallId == m.modelCallId
            && gate.bindingRefs == [p.binding.bindingId] && gate.validatedVersion == Some(1)
            && gate.requestedTool == p.requested
            && (gate.accepted ==> AcceptedBy(gate, move, owner, task, unit, p.binding, snapshot, m) && p.hook.None? && g == p.Graph())
  {
    hide Gateway.RevalidatedMove.Valid, Progress.Graph, GateDecision.Valid, OrderId.Normalize, Gateway.SchemaValid,
      Gateway.ResolveVisibleSpec, Gateway.ResolveValidatedGetOrder;
    Gateway.DecisionWellFormed(gateId, move, owner, task, unit, p.binding, snapshot, p.manifest, p.manifest.modelCallId,
                               Gateway.Budget(0, 1), true, decidedAt);
    var gate := Gateway.Evaluate(gateId, move, owner, task, unit, p.binding, snapshot, p.manifest, p.manifest.modelCallId,
                                 Gateway.Budget(0, 1), true, decidedAt);
    if gate.accepted {
      Gateway.AcceptanceSuffices(gateId, move, owner, task, unit, p.binding, snapshot, p.manifest, p.manifest.modelCallId,
                                 Gateway.Budget(0, 1), true, decidedAt);
    }
  }

  lemma GateIsSendable(g: RunGraph, d: GateDecision, bound: Id, b: Id)
    requires d.Valid() && Unfinished(g)
    ensures var w := Write.SaveGate(d);
            && Sendable(g, w) && !NeedsActive(w) && Written(g, w) == AuditWrites(g, g.manifests, g.gates[d.gateId := d])
            && Unfinished(ApplyWrite(g, w)) && Unfinished(Written(g, w))
            && (IdsBelow(g, bound) && bound <= d.gateId ==> Lands(g, w))
    ensures IdsBelow(g, bound) && d.gateId < b && bound <= b ==>
              IdsBelow(AuditWrites(g, g.manifests, g.gates[d.gateId := d]), b)
    ensures forall h :: Claimed(h) ==> Unfinished(h)
  {
    hide RecoveryCommand.Valid, CreateGraphCommand.Valid, FinalizeRunCommand.Valid, TaskTransitionCommand.Valid,
      RecoverMatches, FinalizeMatches, CreateMatches, AlreadyCreated, GateDecision.Valid;
  }

  lemma GateShape(runId: Id, unit: RequestUnit, d: GateDecision)
    ensures Appendable(GateEvent(0, 0, runId, unit, d), runId)
  {
  }

  lemma GateHolds(p: Progress, task: Task, unit: RequestUnit, gate: GateDecision, e: TraceEvent, g: RunGraph)
    requires AtCurrent(g, p, task, unit) && gate.Valid() && gate.manifestId == p.manifest.manifestId && SameUnit(p)
    requires p.gate.None? && p.tool.None? && p.found.None?
    requires gate.accepted ==> p.hook.None? && g == p.Graph()
    requires gate.modelCallId == p.manifest.modelCallId && gate.requestedTool == p.requested
    requires gate.bindingRefs == [p.binding.bindingId] && gate.validatedVersion == Some(1)
    requires e == GateEvent(0, 0, p.running.runId, unit, gate).(eventId := e.eventId, at := e.at)
    ensures var h := AppendWrites(AuditWrites(g, g.manifests, g.gates[gate.gateId := gate]), e);
            && (g == p.Graph() && !Claimed(g) ==>
                  && h == p.(gate := Some((gate, e))).Graph() && p.(gate := Some((gate, e))).GatePart(gate, e))
            && (Claimed(g) ==> Claimed(h))
  {
    hide GateDecision.Valid, Progress.Graph;
    if g == p.Graph() { GatedGraph(p, gate, e); }
  }

  // ----- The end of a turn -----

  const NOT_FOUND_TEXT := "not found or not accessible"
  const UNAVAILABLE_TEXT := "order service unavailable"
  const GENERIC_TEXT := "request cannot be completed"

  // The one user outcome of each stop reason; a completed goal needs its rendered message.
  function MapResult(runId: Id, reason: StopReason, rendered: Option<string>): Option<AgentRunResult> {
    match reason
    case GoalCompleted =>
      if rendered.Some? && 1 <= |rendered.value| <= 4000 then Some(AgentRunResult(runId, OutcomeCompleted, rendered.value))
      else None
    case OrderNotFound => Some(AgentRunResult(runId, OutcomeNotFound, NOT_FOUND_TEXT))
    case OrderServiceUnavailable => Some(AgentRunResult(runId, OutcomeBlocked, UNAVAILABLE_TEXT))
    case _ => Some(AgentRunResult(runId, OutcomeBlocked, GENERIC_TEXT))
  }

  // The graph is that of a finished turn, bound to the result and the reason.
  ghost predicate Ended(g: RunGraph, t: Turn, result: AgentRunResult, reason: StopReason) {
    && TurnOk(t) && g == t.Graph() && t.terminal.stopReason == Some(reason) && t.terminal.runId == result.runId
    && t.stop.outcome == Some(result.outcome) && t.assistant.content == result.message
  }

  lemma RenderedShape(runId: Id)
    ensures Appendable(RenderedEvent(0, 0, runId, None, None, None), runId)
  {
  }

  lemma OpenRuns(conversation: Conversation, running: Run, user: Message, m: ContextManifest, es: seq<TraceEvent>)
    ensures OpenGraph(conversation, running, user, m, es).run == running
  {
  }

  lemma BegunLater(conversation: Conversation, user: Message, running: Run, now: Time)
    requires BegunWith(conversation.owner, user.content, conversation, user, running, now)
    ensures running.status.RunRunning?
    ensures forall later: Time :: now <= later ==> BegunWith(conversation.owner, user.content, conversation, user, running, later)
  {
  }

  lemma BareResult(runId: Id, reason: StopReason)
    requires reason.InputInvalid? || reason.ProviderProtocolError?
    ensures MapResult(runId, reason, None).Some? && MapResult(runId, reason, None).value.runId == runId
  {
  }

  lemma BareCommandIsValid(conversation: Conversation, user: Message, running: Run, c: FinalizeRunCommand,
                           result: AgentRunResult, reason: StopReason, completedAt: Time, stopId: Id)
    requires BegunWith(conversation.owner, user.content, conversation, user, running, completedAt)
    requires reason.InputInvalid? || reason.ProviderProtocolError?
    requires MapResult(running.runId, reason, None) == Some(result)
    requires c == FinalizeRunCommand(
                    running,
                    running.(status := RunCompleted, completedAt := Some(completedAt), stopReason := Some(reason)),
                    [], [], [], None, Some(result), c.message, [RunStoppedEvent(stopId, completedAt, running.runId, result.outcome, reason)])
    requires c.message.Some?
    requires c.message == Some(Message(c.message.value.messageId, conversation.conversationId, FromAssistant, result.message, completedAt))
    ensures c.Valid()
  {
  }

  lemma BareIsSendable(conversation: Conversation, user: Message, running: Run, m: ContextManifest, es: seq<TraceEvent>,
                       rendered: TraceEvent, c: FinalizeRunCommand, bound: Id)
    requires hide *; c.Valid() && c.expected == running && c.expectedLinks == [] && c.transition.None? && c.resultTasks == []
    requires c.message.Some? && bound <= c.message.value.messageId && |c.events| == 1 && bound <= c.events[0].eventId
    ensures var g, w := AppendWrites(OpenGraph(conversation, running, user, m, es), rendered), Finalize(c);
            && Sendable(g, w) && NeedsActive(w)
            && (IdsBelow(g, bound) ==> Lands(g, w))
            && Written(g, w) == ApplyWrite(g, w)
  {
    hide FinalizeRunCommand.Valid;
    assert LinkTasks([]) == {};
  }

  lemma NotLanded(g: RunGraph, w: Write)
    ensures !Lands(g, w) ==> ApplyWrite(g, w) == g
    ensures forall h :: Claimed(h) ==> Unfinished(h)
  {
  }

  lemma BareTurn(t: Turn, running: Run, result: AgentRunResult, reason: StopReason, c: FinalizeRunCommand,
                 g: RunGraph, g': RunGraph)
    requires hide *; t.work.None? && c.Valid() && Inv(g') && g'.run.runId == running.runId
    requires g == AppendWrites(OpenGraph(t.conversation, running, t.user, t.manifest, t.opening), t.rendered)
    requires Lands(g, Finalize(c)) && g' == ApplyWrite(g, Finalize(c))
    requires OpenedWith(running.runId, t.user, t.manifest, t.opening)
    requires BegunWith(t.conversation.owner, t.user.content, t.conversation, t.user, running, t.assistant.receivedAt)
    requires c == FinalizeRunCommand(running, t.terminal, [], [], [], None, Some(result), Some(t.assistant), [t.stop])
    requires t.rendered == RenderedEvent(0, 0, running.runId, None, None, None).(eventId := t.rendered.eventId, at := t.rendered.at)
    requires t.terminal.stopReason == Some(reason)
    ensures Ended(g', t, result, reason) && FinishedTurn(g')
  {
    hide FinalizeRunCommand.Valid, OpenGraph, OpenedWith, BegunWith, Turn.Graph, Turn.Trace, EndOk, WorkOk, ApplyWrite,
      Lands, Inv, FinalizeMatches, FinalizeWrites, AppendWrites, RenderedEvent;
    BareLanded(t, running, c, g);
    BareGraph(t, running, result, c, g);
    BareEnd(t, running, result, c, g);
    DistinctTrace(g');
    BareTraceIs(t);
  }

  lemma BareLanded(t: Turn, running: Run, c: FinalizeRunCommand, g: RunGraph)
    requires g == AppendWrites(OpenGraph(t.conversation, running, t.user, t.manifest, t.opening), t.rendered)
    requires Lands(g, Finalize(c))
    ensures FinalizeMatches(g, c) && ApplyWrite(g, Finalize(c)) == FinalizeWrites(g, c) && t.user.messageId in g.messages
  {
    hide FinalizeMatches, FinalizeWrites, RecoverMatches, CreateMatches, AlreadyCreated;
  }

  lemma BareTraceIs(t: Turn)
    requires t.work.None?
    ensures t.Graph().trace == t.Trace()
  {
  }

  lemma DistinctTrace(g: RunGraph)
    requires Inv(g)
    ensures forall i, j :: 0 <= i < j < |g.trace| ==> g.trace[i].eventId != g.trace[j].eventId
  {
  }

  lemma BareGraph(t: Turn, running: Run, result: AgentRunResult, c: FinalizeRunCommand, g: RunGraph)
    requires t.work.None?
    requires g == AppendWrites(OpenGraph(t.conversation, running, t.user, t.manifest, t.opening), t.rendered)
    requires c == FinalizeRunCommand(running, t.terminal, [], [], [], None, Some(result), Some(t.assistant), [t.stop])
    requires FinalizeMatches(g, c)
    ensures FinalizeWrites(g, c) == t.Graph()
  {
    hide FinalizeMatches;
    assert OverwriteLinks(map[], []) == map[];
  }

  lemma BareEnd(t: Turn, running: Run, result: AgentRunResult, c: FinalizeRunCommand, g: RunGraph)
    requires t.work.None? && c.Valid() && FinalizeMatches(g, c) && t.user.messageId in g.messages
    requires c == FinalizeRunCommand(running, t.terminal, [], [], [], None, Some(result), Some(t.assistant), [t.stop])
    requires BegunWith(t.conversation.owner, t.user.content, t.conversation, t.user, running, t.assistant.receivedAt)
    requires t.rendered == RenderedEvent(0, 0, running.runId, None, None, None).(eventId := t.rendered.eventId, at := t.rendered.at)
    ensures EndOk(t) && t.stop.outcome == Some(result.outcome) && t.assistant.content == result.message
    ensures t.terminal.runId == running.runId == result.runId
  {
  }

  // ----- The end of a turn with a Task -----

  // The Task status each stop reason ends in.
  function TargetOf(reason: StopReason): (r: Option<TaskStatus>)
    ensures r.Some? ==> forall runId, text :: MapResult(runId, reason, text).Some? ==>
              TerminalRow(reason, true, MapResult(runId, reason, text).value.outcome, r)
  {
    match reason
    case GoalCompleted => Some(TaskCompleted)
    case OrderNotFound => Some(TaskCompleted)
    case InputInvalid => None
    case ProcessRestartDetected => None
    case _ => Some(TaskBlocked)
  }

  function SeenRef(p: Progress): Option<Id> {
    if p.tool.Some? && p.tool.value.seen.Some? then Some(p.tool.value.seen.value.observation.observationId) else None
  }

  // The last step of the Task with its unit.
  function EndMoved(task: Task, unit: RequestUnit, target: TaskStatus, reasonRef: Id, observationRef: Option<Id>, at: Time): Moved {
    Moved(
      task.(status := target, version := task.version + 1, updatedAt := at, lastOutcomeRef := Some(reasonRef)),
      unit.(observationRefs :=
              if observationRef.Some? && observationRef.value !in unit.observationRefs
              then unit.observationRefs + [observationRef.value] else unit.observationRefs,
            resultRefs := unit.resultRefs + [reasonRef], status := target, version := unit.version + 1, updatedAt := at),
      Transition(task.taskId, unit.unitId, task.status, target, task.version, task.version + 1, reasonRef, at))
  }

  // Task and unit take the target status one version later, for this reason, and the unit
  // names the reason as a result and the Observation, once, as seen.
  predicate EndsAs(task: Task, unit: RequestUnit, target: TaskStatus, reasonRef: Id, observationRef: Option<Id>, end: Moved) {
    && end.task.status == target == end.unit.status
    && end.task.version == task.version + 1 && end.unit.version == unit.version + 1
    && end.transition.reasonRef == reasonRef && end.task.lastOutcomeRef == Some(reasonRef)
    && end.unit.resultRefs == unit.resultRefs + [reasonRef]
    && (end.unit.observationRefs ==
        if observationRef.None? || observationRef.value in unit.observationRefs then unit.observationRefs
        else unit.observationRefs + [observationRef.value])
    && end.task.updatedAt == end.unit.updatedAt == end.transition.changedAt
  }

  lemma EndsFor(task: Task, unit: RequestUnit, target: TaskStatus, reasonRef: Id, observationRef: Option<Id>, end: Moved)
    requires EndsAs(task, unit, target, reasonRef, observationRef, end)
    ensures end.transition.reasonRef == reasonRef
  {
  }

  lemma EndMovedFor(task: Task, unit: RequestUnit, target: TaskStatus, reasonRef: Id, observationRef: Option<Id>, at: Time)
    ensures EndsAs(task, unit, target, reasonRef, observationRef, EndMoved(task, unit, target, reasonRef, observationRef, at))
  {
  }

  // Everything is in place for the last write, and the clock has passed it.
  predicate Endable(p: Progress, now: Time) {
    && p.Ok() && p.gate.Some? && AllSeen(p) && SameUnit(p)
    && (p.hook.Some? ==> p.hook.value.0.task.status.TaskWaitingUser?)
    && p.Current().0.updatedAt <= now && p.Current().1.updatedAt <= now && p.running.startedAt <= now
  }

  predicate SameRoots(p: Progress, t: Turn) { t.conversation == p.conversation && t.user == p.user }

  // The finished work is the turn's own, with the hook, the gate and the tool it had.
  predicate WorkOf(p: Progress, t: Turn) {
    && SameRoots(p, t) && t.work.Some?
    && var w := t.work.value;
       && w.record == p.record && w.delta == p.delta && w.binding == p.binding && w.task == p.task && w.unit == p.unit
       && w.hook == p.hook && p.gate.Some? && w.gate == p.gate.value.0 && w.tool == p.tool
  }

  predicate EndsAfter(w: Work, now: Time, strict: bool) {
    now <= w.end.transition.changedAt && (strict ==> now < w.end.transition.changedAt)
  }

  lemma RunningFacts(p: Progress)
    requires p.RunningOk()
    ensures p.running.status.RunRunning? && p.running.Valid() && p.running.incompleteReason.None?
    ensures p.running.conversationId == Some(p.conversation.conversationId)
  {
  }

  lemma RenderedTaskShape(runId: Id, unit: RequestUnit, o: Option<Id>, planRef: Option<Id>)
    ensures Appendable(RenderedEvent(0, 0, runId, Some(unit), o, planRef), runId)
    ensures RenderedEvent(0, 0, runId, Some(unit), o, planRef).planRef == planRef
  {
  }

  lemma FinalIsSendable(g: RunGraph, c: FinalizeRunCommand)
    requires c.Valid()
    ensures Sendable(g, Finalize(c)) && NeedsActive(Finalize(c))
    ensures Claimed(g) ==> !Lands(g, Finalize(c))
    ensures forall h :: Claimed(h) ==> Unfinished(h)
    ensures !Lands(g, Finalize(c)) ==> ApplyWrite(g, Finalize(c)) == g
  {
    hide FinalizeRunCommand.LinksClose, FinalizeRunCommand.TasksClose, FinalizeRunCommand.CompletedIsWhole,
      FinalizeRunCommand.FailedIsBare;
  }

  // The records of the last write.
  datatype Last = Last(end: Moved, shown: TraceEvent, changed: TraceEvent, terminal: Run, assistant: Message, stop: TraceEvent)

  predicate EndsIn(reason: StopReason, target: TaskStatus, result: AgentRunResult) {
    TerminalRow(reason, true, result.outcome, Some(target))
  }

  lemma EndsByTable(runId: Id, reason: StopReason, rendered: Option<string>)
    requires MapResult(runId, reason, rendered).Some? && TargetOf(reason).Some?
    ensures EndsIn(reason, TargetOf(reason).value, MapResult(runId, reason, rendered).value)
    ensures MapResult(runId, reason, rendered).value.runId == runId
  {
  }

  lemma EndStart(g: RunGraph, p: Progress, task: Task, unit: RequestUnit)
    requires AtCurrent(g, p, task, unit) && p.running.status.RunRunning?
    ensures if g == p.Graph() then (task, unit) == p.Current() else Claimed(g)
    ensures forall e :: Claimed(g) ==> Claimed(AppendWrites(g, e))
  {
    GraphIsNotClaimed(p);
    hide Progress.Graph;
  }

  lemma EndableLater(p: Progress, now: Time)
    ensures Endable(p, now) ==> forall later: Time :: now <= later ==> Endable(p, later)
  {
    hide Progress.Ok, AllSeen, SameUnit, Progress.Current;
  }

  // Why and when the turn ends.
  datatype How = How(
    target: TaskStatus, reasonRef: Id, observationRef: Option<Id>, reason: StopReason, result: AgentRunResult,
    changedAt: Time, completedAt: Time)

  predicate LastFits(p: Progress, last: Last, how: How) {
    && last.end == EndMoved(p.Current().0, p.Current().1, how.target, how.reasonRef, how.observationRef, how.changedAt)
    && last.terminal == p.running.(status := RunCompleted, completedAt := Some(how.completedAt), stopReason := Some(how.reason))
    && last.assistant == Message(last.assistant.messageId, p.conversation.conversationId, FromAssistant, how.result.message,
                                 how.completedAt)
    && last.changed == TaskChangedEvent(last.changed.eventId, how.changedAt, p.running.runId, last.end.task.taskId,
                                        last.end.unit.unitId)
    && last.stop == RunStoppedEvent(last.stop.eventId, how.completedAt, p.running.runId, how.result.outcome, how.reason)
    && last.changed.eventId != last.stop.eventId
  }

  lemma LastFitsAll(p: Progress, last: Last, how: How)
    requires last.end == EndMoved(p.Current().0, p.Current().1, how.target, how.reasonRef, how.observationRef, how.changedAt)
    requires last.terminal == p.running.(status := RunCompleted, completedAt := Some(how.completedAt), stopReason := Some(how.reason))
    requires last.assistant == Message(last.assistant.messageId, p.conversation.conversationId, FromAssistant, how.result.message,
                                       how.completedAt)
    requires exists id, stop :: id != stop
              && last.changed == TaskChangedEvent(id, how.changedAt, p.running.runId, last.end.task.taskId, last.end.unit.unitId)
              && last.stop == RunStoppedEvent(stop, how.completedAt, p.running.runId, how.result.outcome, how.reason)
    ensures LastFits(p, last, how)
  {
    hide EndMoved;
  }

  function LastCommand(p: Progress, last: Last, how: How): FinalizeRunCommand {
    EndCommand(p, last.end, last.changed, last.terminal, last.assistant, last.stop, how.result)
  }

  function LastTurn(p: Progress, last: Last): Turn
    requires p.gate.Some?
  {
    p.Turn(last.end, last.shown, last.changed, last.terminal, last.assistant, last.stop)
  }

  lemma LastParts(p: Progress, last: Last)
    requires p.gate.Some?
    ensures LastTurn(p, last).work.Some? && LastTurn(p, last).work.value.end == last.end && LastTurn(p, last).rendered == last.shown
  {
  }

  // What holds of the Task and the unit the last step starts from.
  lemma CurrentFacts(p: Progress, now: Time)
    requires Endable(p, now)
    ensures var (task, unit) := p.Current();
            && task.Valid() && unit.Valid() && task.taskId == p.task.taskId == unit.taskId == p.unit.taskId
            && unit.unitId == p.unit.unitId
            && (task.status.TaskActive? || task.status.TaskWaitingUser?) && unit.status == task.status
            && unit.version == task.version && unit.observationRefs == []
            && task.updatedAt <= now && unit.updatedAt <= now
    ensures p.gate.Some? && AllSeen(p) && p.running.startedAt <= now && p.RunningOk()
  {
    CreatedTask(p);
    hide CreateGraphCommand.Valid, OpenedWith, DecidedWith, Progress.GatePart, Progress.ToolPart, AllSeen,
      Progress.RunningOk;
  }

  lemma EndMovedOk(task: Task, unit: RequestUnit, target: TaskStatus, reasonRef: Id, o: Option<Id>, at: Time)
    requires task.Valid() && unit.Valid() && unit.taskId == task.taskId && unit.version == task.version
    requires unit.status == task.status && (task.status.TaskActive? || task.status.TaskWaitingUser?)
    requires task.updatedAt <= at && unit.updatedAt <= at && unit.observationRefs == []
    requires target.TaskCompleted? || target.TaskBlocked?
    ensures var end := EndMoved(task, unit, target, reasonRef, o, at);
            && StepOk(task, unit, end) && end.unit.observationRefs == (if o.Some? then [o.value] else [])
            && end.task.taskId == task.taskId && end.unit.unitId == unit.unitId && end.transition.changedAt == at
            && end.task.version == task.version + 1 && end.task.status == target && end.task.Valid()
  {
  }

  lemma EndStepOk(p: Progress, last: Last, how: How, now: Time)
    requires Endable(p, now) && LastFits(p, last, how) && now <= how.changedAt
    requires how.target.TaskCompleted? || how.target.TaskBlocked?
    ensures StepOk(p.Current().0, p.Current().1, last.end)
    ensures last.end.unit.observationRefs == if how.observationRef.Some? then [how.observationRef.value] else []
    ensures last.end.task.taskId == p.task.taskId && last.end.unit.unitId == p.unit.unitId
    ensures last.end.transition.changedAt == how.changedAt && last.end.task.version == p.Current().0.version + 1
    ensures last.end.task.status == how.target && last.end.task.Valid() && 1 <= p.Current().0.version
  {
    hide Endable, Progress.Current, EndMoved, StepOk, AllSeen, Progress.RunningOk;
    CurrentFacts(p, now);
    EndMovedOk(p.Current().0, p.Current().1, how.target, how.reasonRef, how.observationRef, how.changedAt);
  }

  lemma EndIsValid(p: Progress, last: Last, how: How, now: Time)
    requires Endable(p, now) && LastFits(p, last, how) && now <= how.changedAt <= how.completedAt
    requires EndsIn(how.reason, how.target, how.result) && how.result.runId == p.running.runId
    ensures LastCommand(p, last, how).Valid()
  {
    EndsKnown(how.reason, how.target, how.result);
    CurrentFacts(p, now);
    EndStepOk(p, last, how, now);
    hide Endable, EndMoved, StepOk, Progress.Current, AllSeen, TerminalRow;
    EndParts(p, last, how, now);
  }

  lemma EndParts(p: Progress, last: Last, how: How, now: Time)
    requires LastFits(p, last, how) && now <= how.changedAt <= how.completedAt && p.running.startedAt <= now && p.RunningOk()
    requires StepOk(p.Current().0, p.Current().1, last.end) && last.end.task.taskId == p.task.taskId
    requires p.Current().0.taskId == p.task.taskId && last.end.transition.changedAt == how.changedAt
    requires last.end.task.Valid() && last.end.task.status == how.target && 1 <= p.Current().0.version
    requires EndsIn(how.reason, how.target, how.result) && how.result.runId == p.running.runId
    requires !how.reason.ProcessRestartDetected?
    ensures LastCommand(p, last, how).Valid()
  {
    hide EndMoved, TaskTransitionCommand.Valid, Progress.Current, TerminalRow;
    var c := LastCommand(p, last, how);
    assert LinkTasks(c.expectedLinks) == {p.task.taskId} == LinkTasks(c.terminalLinks);
    assert (set t | t in c.resultTasks :: t.taskId) == {p.task.taskId};
  }

  lemma EndsKnown(reason: StopReason, target: TaskStatus, result: AgentRunResult)
    requires EndsIn(reason, target, result)
    ensures (target.TaskCompleted? || target.TaskBlocked?) && !reason.ProcessRestartDetected?
  {
  }

  lemma EndLinks(p: Progress, last: Last, how: How)
    ensures LinksMatch(AppendWrites(p.Graph(), last.shown), LastCommand(p, last, how).expectedLinks)
  {
    hide Progress.Trace;
    assert LinkTasks([p.ActiveLink()]) == {p.task.taskId};
  }

  lemma EndTask(p: Progress, last: Last, how: How)
    requires p.Current().0.taskId == p.task.taskId && p.Current().1.unitId == p.unit.unitId
    ensures TransitMatches(AppendWrites(p.Graph(), last.shown), LastCommand(p, last, how).transition.value)
  {
    hide Progress.Trace, Progress.Current;
  }

  lemma EndLands(p: Progress, last: Last, how: How, now: Time, bound: Id)
    requires Endable(p, now) && LastFits(p, last, how)
    requires bound <= last.assistant.messageId && bound <= last.changed.eventId && bound <= last.stop.eventId
    ensures var g := AppendWrites(p.Graph(), last.shown);
            IdsBelow(g, bound) ==> Lands(g, Finalize(LastCommand(p, last, how)))
  {
    hide Endable, EndMoved, AllSeen, Progress.RunningOk, NoActiveCall, Progress.Graph, LinksMatch, TransitMatches, LastFits;
    CurrentFacts(p, now);
    EndLinks(p, last, how);
    EndTask(p, last, how);
    NoCallActive(p, now, last.shown);
    GraphRuns(p);
  }

  lemma NoCallActive(p: Progress, now: Time, e: TraceEvent)
    requires Endable(p, now)
    ensures NoActiveCall(AppendWrites(p.Graph(), e))
  {
    hide Progress.Creation, CreateGraphCommand.Valid, OpenedWith, DecidedWith, Progress.GatePart, AllSeen,
      Progress.RunningOk, Progress.Trace;
  }

  lemma EndIsTurn(p: Progress, last: Last, how: How, planRef: Option<Id>, now: Time, g: RunGraph)
    requires Endable(p, now) && LastFits(p, last, how) && now <= how.changedAt <= how.completedAt
    requires EndsIn(how.reason, how.target, how.result) && how.result.runId == p.running.runId
    requires how.observationRef == SeenRef(p)
    requires last.shown == RenderedEvent(0, 0, p.running.runId, Some(p.Current().1), how.observationRef, planRef)
                             .(eventId := last.shown.eventId, at := last.shown.at)
    requires Lands(AppendWrites(p.Graph(), last.shown), Finalize(LastCommand(p, last, how)))
    requires g == ApplyWrite(AppendWrites(p.Graph(), last.shown), Finalize(LastCommand(p, last, how))) && Inv(g)
    ensures Ended(g, LastTurn(p, last), how.result, how.reason) && FinishedTurn(g)
    ensures WorkOf(p, LastTurn(p, last)) && LastTurn(p, last).work == Some(p.Work(last.end, last.changed))
    ensures p.Work(last.end, last.changed).end.transition.changedAt == how.changedAt
  {
    hide Endable, LastFits, EndOk, WorkOk, OpeningOk, Turn.Graph, Turn.Trace, StepOk, Progress.Graph, Lands,
      ApplyWrite, Inv, FinalizeMatches, FinalizeWrites, FinalizeRunCommand.Valid, Progress.Current, AllSeen,
      RenderedEvent, EndsIn;
    EndsKnown(how.reason, how.target, how.result);
    CurrentFacts(p, now);
    EndStepOk(p, last, how, now);
    var g0, c := AppendWrites(p.Graph(), last.shown), LastCommand(p, last, how);
    LandsGives(g0, c);
    DistinctTrace(g);
    FinishedGraph(p, last.end, last.shown, last.changed, last.terminal, last.assistant, last.stop, how.result);
    EndOfWork(p, last, how, planRef, now);
    LastWorkOk(p, last, how, now);
    WorkTraceIs(LastTurn(p, last));
    LastFacts(p, last, how);
  }

  lemma LastFacts(p: Progress, last: Last, how: How)
    requires LastFits(p, last, how) && p.gate.Some?
    ensures last.stop.outcome == Some(how.result.outcome) && last.assistant.content == how.result.message
    ensures last.terminal.stopReason == Some(how.reason) && last.terminal.runId == p.running.runId
    ensures WorkOf(p, LastTurn(p, last))
  {
    hide EndMoved, Progress.Current;
  }

  lemma WorkTraceIs(t: Turn)
    requires t.work.Some?
    ensures t.Graph().trace == t.Trace()
  {
    hide Turn.Trace;
  }

  lemma LandsGives(g: RunGraph, c: FinalizeRunCommand)
    requires Lands(g, Finalize(c))
    ensures FinalizeMatches(g, c) && ApplyWrite(g, Finalize(c)) == FinalizeWrites(g, c)
  {
    hide FinalizeMatches, FinalizeWrites;
  }

  lemma LastWorkOk(p: Progress, last: Last, how: How, now: Time)
    requires Endable(p, now) && LastFits(p, last, how) && how.observationRef == SeenRef(p)
    requires StepOk(p.Current().0, p.Current().1, last.end)
    requires last.end.unit.observationRefs == if how.observationRef.Some? then [how.observationRef.value] else []
    requires last.end.task.taskId == p.task.taskId && last.end.unit.unitId == p.unit.unitId
    requires last.end.transition.changedAt == how.changedAt
    ensures OpeningOk(LastTurn(p, last)) && WorkOk(LastTurn(p, last), p.Work(last.end, last.changed))
  {
    CurrentFacts(p, now);
    hide EndMoved, StepOk, Progress.Current, CreateGraphCommand.Valid, AllSeen, OpeningOk, WorkOk;
    WorkIsOk(p, last.end, last.shown, last.changed, last.terminal, last.assistant, last.stop);
  }

  lemma ShownForm(p: Progress, shown: TraceEvent, o: Option<Id>, planRef: Option<Id>)
    requires shown == RenderedEvent(0, 0, p.running.runId, Some(p.Current().1), o, planRef).(eventId := shown.eventId, at := shown.at)
    requires SameUnit(p)
    ensures shown == RenderedEvent(shown.eventId, shown.at, p.running.runId, Some(p.unit), shown.observationRef, shown.planRef)
    ensures shown.observationRef == o
  {
    hide Progress.Current;
  }

  lemma EndOfWork(p: Progress, last: Last, how: How, planRef: Option<Id>, now: Time)
    requires Endable(p, now) && LastFits(p, last, how) && how.observationRef == SeenRef(p)
    requires EndsIn(how.reason, how.target, how.result) && now <= how.changedAt <= how.completedAt
    requires last.shown == RenderedEvent(0, 0, p.running.runId, Some(p.Current().1), how.observationRef, planRef)
                             .(eventId := last.shown.eventId, at := last.shown.at)
    requires last.end.task.status == how.target
    requires FinalizeMatches(AppendWrites(p.Graph(), last.shown), LastCommand(p, last, how))
    ensures EndOk(LastTurn(p, last))
  {
    hide EndMoved, StepOk, Progress.Current, AllSeen, TerminalRow, FinalizeMatches, Progress.Graph, RenderedEvent, Endable;
    EndableUnit(p, now);
    CurrentFacts(p, now);
    AnotherMessage(p, last, how);
    ShownForm(p, last.shown, how.observationRef, planRef);
    hide SameUnit;
  }

  lemma EndableUnit(p: Progress, now: Time)
    requires Endable(p, now)
    ensures SameUnit(p)
  {
  }

  lemma AnotherMessage(p: Progress, last: Last, how: How)
    requires FinalizeMatches(AppendWrites(p.Graph(), last.shown), LastCommand(p, last, how))
    ensures last.assistant.messageId != p.user.messageId
  {
    hide LinksMatch, TransitMatches, NoActiveCall;
    assert p.user.messageId in p.Graph().messages;
  }

  // Everything the last write of an undisturbed turn needs.
  predicate EndReady(p: Progress, last: Last, how: How, planRef: Option<Id>, now: Time, bound: Id) {
    && Endable(p, now) && LastFits(p, last, how) && now <= how.changedAt <= how.completedAt
    && EndsIn(how.reason, how.target, how.result) && how.result.runId == p.running.runId
    && how.observationRef == SeenRef(p)
    && last.shown == RenderedEvent(0, 0, p.running.runId, Some(p.Current().1), how.observationRef, planRef)
                       .(eventId := last.shown.eventId, at := last.shown.at)
    && bound <= last.assistant.messageId && bound <= last.changed.eventId && bound <= last.stop.eventId
  }

  lemma ReadyIsValid(p: Progress, last: Last, how: How, planRef: Option<Id>, now: Time, bound: Id)
    requires EndReady(p, last, how, planRef, now, bound)
    ensures LastCommand(p, last, how).Valid() && p.gate.Some?
    ensures var g := AppendWrites(p.Graph(), last.shown);
            && Unfinished(g) && (IdsBelow(g, bound) ==> Lands(g, Finalize(LastCommand(p, last, how))))
  {
    hide Endable, LastFits, EndsIn, RenderedEvent, FinalizeRunCommand.Valid, Lands, Progress.Graph, LastCommand;
    CurrentFacts(p, now);
    RunningFacts(p);
    GraphRuns(p);
    EndIsValid(p, last, how, now);
    EndLands(p, last, how, now, bound);
  }

  lemma ReadyEnds(p: Progress, last: Last, how: How, planRef: Option<Id>, now: Time, bound: Id, g: RunGraph)
    requires hide *; EndReady(p, last, how, planRef, now, bound) && p.gate.Some? && Inv(g)
    requires Lands(AppendWrites(p.Graph(), last.shown), Finalize(LastCommand(p, last, how)))
    requires g == ApplyWrite(AppendWrites(p.Graph(), last.shown), Finalize(LastCommand(p, last, how)))
    ensures Ended(g, LastTurn(p, last), how.result, how.reason) && FinishedTurn(g)
    ensures LastTurn(p, last).work.Some? && WorkOf(p, LastTurn(p, last))
    ensures LastTurn(p, last).work.value.end.transition.changedAt == how.changedAt
  {
    hide Endable, LastFits, EndsIn, RenderedEvent, Lands, ApplyWrite, Progress.Graph, LastCommand, Inv, Ended, FinishedTurn;
    EndIsTurn(p, last, how, planRef, now, g);
  }

  // ----- The tool -----

  predicate WithinBudget(running: Run, budgetMs: int, at: Time) {
    1000 <= budgetMs * 1000 - (if at < running.startedAt then 0 else at - running.startedAt)
  }

  // The gate let the move through and nothing was called yet; this is what is authorised.
  predicate CallStage(p: Progress, a: Authorized) {
    && p.gate.Some? && p.gate.value.0.accepted && p.hook.None? && p.tool.None? && p.found.None?
    && p.running.status.RunRunning? && p.gate.value.0.resolvedTool == Some("get_order")
    && a.owner == p.conversation.owner && a.gateId == p.gate.value.0.gateId && a.tool == "get_order"
    && a.orderId == p.binding.orderId && a.bindingRefs == [p.binding.bindingId] && a.validatedVersion == 1
    && a.runId == p.running.runId && a.taskId == p.task.taskId && a.unitId == p.unit.unitId
    && a.modelCallId == p.manifest.modelCallId && a.manifestId == p.manifest.manifestId
    && a.registryVersion == p.manifest.registryVersion && a.registryRef == a.registryVersion
  }

  lemma ExecutedRuns(p: Progress, a: Authorized, reply: OrderReply, x: Execution, g: RunGraph)
    requires CallStage(p, a) && Executed(p.Graph(), g, a, reply, x)
    ensures Unfinished(g) && x.terminal.Some? && x.attempt.Some? && x.created.runId == p.running.runId
    ensures x.terminal.value.runId == p.running.runId && x.terminal.value.finishedAt.Some?
    ensures EndedTogether(RunningCall(x.created), Attempt(x.terminal.value.callId, 1, x.attempt.value.startedAt, None, None, None),
                          x.terminal.value, x.attempt.value)
  {
    hide Progress.Graph, Executed, EndedTogether, CallStage, CallWrites, ObserveWrites;
    GraphRuns(p);
    StageRun(p, a);
    ExecutedGraph(p, a, reply, x, g);
    EndedRunId(x.created, Attempt(x.terminal.value.callId, 1, x.attempt.value.startedAt, None, None, None),
               x.terminal.value, x.attempt.value);
  }

  lemma StageRun(p: Progress, a: Authorized)
    requires CallStage(p, a)
    ensures a.runId == p.running.runId && p.running.status.RunRunning?
  {
  }

  lemma EndedRunId(created: ToolCall, attempt: Attempt, c: ToolCall, x: Attempt)
    requires EndedTogether(RunningCall(created), attempt, c, x)
    ensures c.runId == created.runId && c.finishedAt.Some? && !c.status.Active()
  {
  }

  lemma ToolShapes(runId: Id, created: ToolCall, c: ToolCall, x: Attempt)
    requires created.runId == runId == c.runId && c.finishedAt.Some?
    requires !c.status.Active()
    ensures Appendable(CallCreatedEvent(0, created), runId) && Appendable(CallStartedEvent(0, created, x), runId)
    ensures Appendable(CallEndedEvent(0, c), runId) && Appendable(NormalizedEvent(0, c, x), runId)
  {
  }

  lemma StampedTool(a: Authorized, created: ToolCall, c: ToolCall, x: Attempt, e1: TraceEvent, e2: TraceEvent, e3: TraceEvent, e4: TraceEvent)
    requires created == CreatedCall(a, c.callId, c.startedAt)
    requires EndedTogether(RunningCall(created), Attempt(c.callId, 1, x.startedAt, None, None, None), c, x)
    requires e1 == CallCreatedEvent(0, created).(eventId := e1.eventId, at := e1.at) && e1.at == created.startedAt
    requires e2 == CallStartedEvent(0, created, x).(eventId := e2.eventId, at := e2.at) && e2.at == x.startedAt
    requires e3 == CallEndedEvent(0, c).(eventId := e3.eventId, at := e3.at) && Some(e3.at) == c.finishedAt
    requires e4 == NormalizedEvent(0, c, x).(eventId := e4.eventId, at := e4.at) && Some(e4.at) == c.finishedAt
    ensures e1 == CallCreatedEvent(e1.eventId, c) && e2 == CallStartedEvent(e2.eventId, c, x)
    ensures e3 == CallEndedEvent(e3.eventId, c) && e4 == NormalizedEvent(e4.eventId, c, x)
  {
  }

  lemma CallHolds(p: Progress, a: Authorized, reply: OrderReply, x: Execution, g: RunGraph, t: Tool)
    requires CallStage(p, a) && Executed(p.Graph(), g, a, reply, x)
    requires Some(t.call) == x.terminal && Some(t.attempt) == x.attempt && t.seen.None?
    requires t.created == CallCreatedEvent(t.created.eventId, t.call)
    requires t.started == CallStartedEvent(t.started.eventId, t.call, t.attempt)
    requires t.call.finishedAt.Some? && t.ended == CallEndedEvent(t.ended.eventId, t.call)
    requires t.normalized == NormalizedEvent(t.normalized.eventId, t.call, t.attempt)
    ensures p.(tool := Some(t), found := x.observation).ToolPart(t)
  {
    hide Progress.Graph, CanonicalVersion, CallCreatedEvent, CallStartedEvent, CallEndedEvent, NormalizedEvent;
  }

  lemma ToolHolds(p: Progress, a: Authorized, reply: OrderReply, x: Execution, g: RunGraph,
                  e1: TraceEvent, e2: TraceEvent, e3: TraceEvent, e4: TraceEvent)
    requires CallStage(p, a) && Executed(p.Graph(), g, a, reply, x)
    requires x.terminal.Some? && x.attempt.Some? && x.terminal.value.finishedAt.Some?
    requires var c, at := x.terminal.value, x.attempt.value;
             && e1 == CallCreatedEvent(0, x.created).(eventId := e1.eventId, at := e1.at) && e1.at == x.created.startedAt
             && e2 == CallStartedEvent(0, x.created, at).(eventId := e2.eventId, at := e2.at) && e2.at == at.startedAt
             && e3 == CallEndedEvent(0, c).(eventId := e3.eventId, at := e3.at) && Some(e3.at) == c.finishedAt
             && e4 == NormalizedEvent(0, c, at).(eventId := e4.eventId, at := e4.at) && Some(e4.at) == c.finishedAt
    ensures var t := Tool(x.terminal.value, x.attempt.value, e1, e2, e3, e4, None);
            var p' := p.(tool := Some(t), found := x.observation);
            && p'.ToolPart(t)
            && AppendWrites(AppendWrites(AppendWrites(AppendWrites(g, e1), e2), e3), e4) == p'.Graph()
  {
    hide Progress.Graph, Executed, CallStage, CallCreatedEvent, CallStartedEvent, CallEndedEvent, NormalizedEvent,
      EndedTogether, Progress.ToolPart, CallWrites, ObserveWrites;
    var c, at := x.terminal.value, x.attempt.value;
    var t := Tool(c, at, e1, e2, e3, e4, None);
    ExecutedRuns(p, a, reply, x, g);
    ExecutedGraph(p, a, reply, x, g);
    StampedTool(a, x.created, c, at, e1, e2, e3, e4);
    CallHolds(p, a, reply, x, g, t);
    NothingCalled(p, a);
    CalledGraph(p, t, x.observation);
    FourAppended(g, e1, e2, e3, e4);
  }

  lemma NothingCalled(p: Progress, a: Authorized)
    requires CallStage(p, a)
    ensures p.tool.None? && p.found.None?
  {
  }

  lemma FourAppended(g: RunGraph, e1: TraceEvent, e2: TraceEvent, e3: TraceEvent, e4: TraceEvent)
    ensures AppendWrites(AppendWrites(AppendWrites(AppendWrites(g, e1), e2), e3), e4)
            == g.(trace := g.trace + [e1, e2, e3, e4])
  {
    assert g.trace + [e1] + [e2] + [e3] + [e4] == g.trace + [e1, e2, e3, e4];
  }

  lemma ExecutedGraph(p: Progress, a: Authorized, reply: OrderReply, x: Execution, g: RunGraph)
    requires Executed(p.Graph(), g, a, reply, x)
    ensures x.terminal.Some? && x.attempt.Some? && x.created == CreatedCall(a, x.terminal.value.callId, x.terminal.value.startedAt)
    ensures EndedTogether(RunningCall(x.created), Attempt(x.terminal.value.callId, 1, x.attempt.value.startedAt, None, None, None),
                          x.terminal.value, x.attempt.value)
    ensures g.run == p.Graph().run
    ensures var h := CallWrites(p.Graph(), x.terminal.value, [x.attempt.value]);
            g == if x.observation.Some? then ObserveWrites(h, x.observation.value, x.terminal.value.callId) else h
  {
    hide Progress.Graph, CanonicalVersion, EndedTogether;
  }

  // The gate let the turn's own move through and nothing else happened since.
  predicate Callable(p: Progress, snapshot: Gateway.Snapshot, m: ContextManifest, gate: GateDecision, owner: string,
                     task: Task, unit: RequestUnit, binding: InputBinding)
  {
    && p.Ok() && p.gate.Some? && p.gate.value.0 == gate && gate.accepted && gate.resolvedTool == Some("get_order")
    && Gateway.ResolveValidatedGetOrder(snapshot, gate.requestedTool).Some?
    && p.hook.None? && p.tool.None? && p.found.None? && p.manifest == m && m.registryVersion == snapshot.version
    && p.conversation.owner == owner && task == p.task && unit == p.unit && binding == p.binding
  }

  predicate SoundPolicy(snapshot: Gateway.Snapshot) {
    var registration := Gateway.ResolveValidatedGetOrder(snapshot, "get_order");
    && registration.Some? && registration.value.policy.maxAttempts == 1
    && registration.value.policy.interruptBehavior == "MARK_INTERRUPTED"
  }

  // In a built registry: the policy of the registered get_order.
  lemma SoundPolicyExactly(snapshot: Gateway.Snapshot)
    requires Gateway.Built(snapshot)
    ensures SoundPolicy(snapshot) <==>
              exists r :: Gateway.Registered(snapshot, "get_order", r) && r.spec == Gateway.GET_ORDER_SPEC
                          && r.policy.maxAttempts == 1 && r.policy.interruptBehavior == "MARK_INTERRUPTED"
  {
    hide Gateway.Built, Gateway.ResolveValidatedGetOrder, Gateway.Registered;
    forall r ensures Gateway.ResolveValidatedGetOrder(snapshot, "get_order") == Some(r)
                     <==> Gateway.Registered(snapshot, "get_order", r) && r.spec == Gateway.GET_ORDER_SPEC {
      Gateway.LookupIsRegistered(snapshot, r);
    }
  }

  predicate AskedAtMostOnce(before: seq<Integrity.OrderQuery>, after: seq<Integrity.OrderQuery>, owner: string,
                            binding: InputBinding)
  {
    after == before || after == before + [Integrity.OrderQuery(owner, binding.orderId)]
  }

  lemma CallableFacts(p: Progress, snapshot: Gateway.Snapshot, m: ContextManifest, gate: GateDecision, owner: string,
                      task: Task, unit: RequestUnit, binding: InputBinding)
    requires Callable(p, snapshot, m, gate, owner, task, unit, binding)
    ensures Gateway.ResolveValidatedGetOrder(snapshot, gate.requestedTool).Some? && gate.requestedTool == "get_order"
    ensures gate.validatedVersion == Some(1) && gate.bindingRefs == [binding.bindingId]
    ensures p.running.status.RunRunning? && Unfinished(p.Graph()) && p.Graph().conversation.owner == owner
    ensures p.Graph().run == p.running
  {
    LookupNamesTool(snapshot, gate.requestedTool);
    hide Progress.Graph, Progress.Creation, CreateGraphCommand.Valid, OpenedWith, DecidedWith, Progress.ToolPart,
      GateDecision.Valid, Gateway.ResolveValidatedGetOrder;
    GraphRuns(p);
  }

  lemma LookupNamesTool(snapshot: Gateway.Snapshot, name: string)
    requires Gateway.ResolveValidatedGetOrder(snapshot, name).Some?
    ensures name == "get_order"
  {
    hide Gateway.ResolveRegistration, Gateway.ResolveVisibleSpec;
  }

  lemma CallableFits(p: Progress, snapshot: Gateway.Snapshot, m: ContextManifest, gate: GateDecision, owner: string,
                     task: Task, unit: RequestUnit, binding: InputBinding, a: Authorized)
    requires hide *; Callable(p, snapshot, m, gate, owner, task, unit, binding)
    requires a == Authorized(owner, gate.gateId, "get_order", binding.orderId, gate.bindingRefs, 1, snapshot.version,
                             p.running.runId, task.taskId, unit.unitId, m.modelCallId, m.manifestId, snapshot.version,
                             a.policy, a.remainingMs)
    requires gate.bindingRefs == [binding.bindingId]
    ensures CallStage(p, a) && Fits(p.Graph(), a)
    ensures a.policy.maxAttempts == 1 && a.policy.interruptBehavior == "MARK_INTERRUPTED" && 0 < a.remainingMs ==> a.Sound()
    ensures a.tool == "get_order" && a.registryRef == a.registryVersion
  {
    hide Progress.Creation, CreateGraphCommand.Valid, OpenedWith, DecidedWith, HookOk, Progress.GatePart, Progress.ToolPart,
      Progress.RunningOk, Progress.Graph, Gateway.ResolveValidatedGetOrder;
    CreatedTask(p);
    RunningFacts(p);
    GraphTasks(p);
  }

  lemma ExecutedAnswers(g: RunGraph, a: Authorized, reply: OrderReply, x: Execution)
    ensures forall h :: Executed(g, h, a, reply, x) ==> Answers(reply, x) && x.terminal.Some? && !reply.OrderRaises?
  {
    hide CanonicalVersion, EndedTogether;
  }

  // ----- Presentation -----

  // The call succeeded with this Observation, which has not been presented yet.
  predicate Presentable(p: Progress, snapshot: Gateway.Snapshot, user: Message, task: Task, call: ToolCall, o: Observation) {
    && p.tool.Some? && p.tool.value.seen.None? && p.tool.value.call == call && p.ToolPart(p.tool.value)
    && p.found == Some(o) && p.user == user && p.task == task && task.version == 1 && p.running.status.RunRunning?
    && p.manifest.registryVersion == snapshot.version && p.manifest.toolsetHash == snapshot.hash
    && call.status.CallSucceeded? && o.sourceTool == "get_order" && o.supersedes.None?
    && call.finishedAt == Some(o.recordedAt)
  }

  lemma PresentableFacts(p: Progress, snapshot: Gateway.Snapshot, user: Message, task: Task, call: ToolCall, o: Observation)
    requires Presentable(p, snapshot, user, task, call, o)
    ensures p.tool.Some? && Unfinished(p.Graph()) && p.Graph().run == p.running
    ensures Appendable(ObservationEvent(0, call, o), p.running.runId)
  {
    hide Progress.Graph;
    GraphRuns(p);
  }

  lemma SeenHolds(p: Progress, snapshot: Gateway.Snapshot, user: Message, task: Task, call: ToolCall, s: Seen)
    requires Presentable(p, snapshot, user, task, call, s.observation) && s.plan.None?
    requires s.observed == ObservationEvent(0, call, s.observation).(eventId := s.observed.eventId, at := s.observed.at)
    requires s.observed.at == s.observation.recordedAt
    requires s.assembled == ManifestEvent(s.assembled.eventId, s.assembled.at, s.manifest, "PRESENTATION")
    requires s.manifest == ContextManifest(s.manifest.manifestId, p.running.runId, s.manifest.modelCallId, snapshot.version,
                                           snapshot.hash, [user.messageId], Some((task.taskId, task.version)),
                                           [(s.observation.observationId, s.observation.sourceVersion)], s.manifest.assembledAt)
    requires s.manifest.manifestId != p.manifest.manifestId && task.createdAt <= s.manifest.assembledAt
    ensures var p' := p.(tool := Some(p.tool.value.(seen := Some(s))));
            && p'.ToolPart(p'.tool.value)
            && var g := AppendWrites(p.Graph(), s.observed);
               AppendWrites(AuditWrites(g, g.manifests[s.manifest.manifestId := s.manifest], g.gates), s.assembled) == p'.Graph()
  {
    SeenGraph(p, s);
    hide Progress.Graph, AppendWrites, AuditWrites, OutcomeFits, ToolCall.Valid, Attempt.Valid, CallCreatedEvent,
      CallStartedEvent, CallEndedEvent, NormalizedEvent, ManifestEvent;
  }

  lemma PlanShape(runId: Id, unit: RequestUnit, m: ContextManifest, o: Id, planRef: Id)
    ensures Appendable(PlanEvent(0, 0, runId, unit, m, o, planRef), runId)
    ensures PlanEvent(0, 0, runId, unit, m, o, planRef).planRef == Some(planRef)
  {
  }

  lemma PlanHolds(p: Progress, planRef: Id, e: TraceEvent)
    requires p.tool.Some? && p.tool.value.seen.Some? && p.tool.value.seen.value.plan.None? && p.ToolPart(p.tool.value)
    requires var s := p.tool.value.seen.value;
             e == PlanEvent(0, 0, p.running.runId, p.unit, s.manifest, s.observation.observationId, planRef)
                    .(eventId := e.eventId, at := e.at)
    ensures var p' := WithPlan(p, e); p'.ToolPart(p'.tool.value) && AppendWrites(p.Graph(), e) == p'.Graph()
  {
    PlannedGraph(p, e);
    hide Progress.Graph, AppendWrites, OutcomeFits, ToolCall.Valid, Attempt.Valid, CallCreatedEvent, CallStartedEvent,
      CallEndedEvent, NormalizedEvent, ManifestEvent, ObservationEvent;
  }

  // ----- From the reply to the reason the turn stops -----

  // The plan may be rejected, fail to render, or lead to the goal.
  function PlanReason(planned: Planned): StopReason {
    match planned
    case PlanProtocolFailure => ProviderProtocolError
    case Plan(valid, rendered) =>
      if !valid then PresentationPlanRejected else if rendered.None? then RendererInvariantFailed else GoalCompleted
    case PlanRaises(_) => ProviderProtocolError
  }

  // Why the turn stopped, what became of its Task, and what the customer is told.
  predicate Told(t: Turn, reason: StopReason, status: Option<TaskStatus>, outcome: AgentOutcome, message: string) {
    && t.terminal.stopReason == Some(reason) && t.stop.outcome == Some(outcome) && t.assistant.content == message
    && status == if t.work.Some? then Some(t.work.value.end.task.status) else None
  }

  // The plan is what the Task ended for.
  predicate EndsForPlan(t: Turn) {
    t.work.Some? && t.rendered.planRef == Some(t.work.value.end.transition.reasonRef)
  }

  // The response is rendered for the plan that was proposed.
  predicate ShowsPlan(t: Turn) {
    && t.work.Some? && t.work.value.tool.Some? && t.work.value.tool.value.seen.Some?
    && t.work.value.tool.value.seen.value.plan.Some? && t.rendered.planRef.Some?
    && t.rendered.planRef == t.work.value.tool.value.seen.value.plan.value.planRef
  }

  // What a presentation plan leads to.
  predicate PlanTold(t: Turn, planned: Planned) {
    match planned
    case PlanProtocolFailure => Told(t, ProviderProtocolError, Some(TaskBlocked), OutcomeBlocked, "request cannot be completed")
    case Plan(false, _) =>
      && ShowsPlan(t) && EndsForPlan(t)
      && Told(t, PresentationPlanRejected, Some(TaskBlocked), OutcomeBlocked, "request cannot be completed")
    case Plan(true, None) =>
      && ShowsPlan(t) && EndsForPlan(t)
      && Told(t, RendererInvariantFailed, Some(TaskBlocked), OutcomeBlocked, "request cannot be completed")
    case Plan(true, Some(text)) =>
      ShowsPlan(t) && 1 <= |text| <= 4000 && Told(t, GoalCompleted, Some(TaskCompleted), OutcomeCompleted, text)
    case PlanRaises(_) => false
  }

  // What a reply of the order service leads to.
  predicate ReplyTold(t: Turn, reply: OrderReply, planned: Planned) {
    match reply
    case NotFound => Told(t, OrderNotFound, Some(TaskCompleted), OutcomeNotFound, "not found or not accessible")
    case Unavailable => Told(t, OrderServiceUnavailable, Some(TaskBlocked), OutcomeBlocked, "order service unavailable")
    case TimesOut => Told(t, OrderServiceUnavailable, Some(TaskBlocked), OutcomeBlocked, "order service unavailable")
    case Found(_, version) =>
      if CanonicalVersion(version) then PlanTold(t, planned)
      else Told(t, OrderServiceUnavailable, Some(TaskBlocked), OutcomeBlocked, "order service unavailable")
    case OrderRaises(_) => false
  }

  // A plan, and a reply with a plan, that lead to a result.
  predicate PlanEndsTurn(planned: Planned) {
    match planned
    case PlanRaises(_) => false
    case Plan(true, Some(text)) => 1 <= |text| <= 4000
    case _ => true
  }

  predicate ReplyEndsTurn(reply: OrderReply, planned: Planned) {
    !reply.OrderRaises? && (reply.Found? && CanonicalVersion(reply.version) ==> PlanEndsTurn(planned))
  }

  lemma TurnTells(g: RunGraph, t: Turn, result: AgentRunResult, reason: StopReason)
    requires Ended(g, t, result, reason) && t.work.Some?
    ensures t.terminal.stopReason == Some(reason) && t.stop.outcome == Some(result.outcome) && t.assistant.content == result.message
    ensures TerminalRow(reason, true, result.outcome, Some(t.work.value.end.task.status))
  {
    hide OpeningOk, WorkOk, Turn.Trace, Turn.Graph;
  }

  lemma BlockedTells(g: RunGraph, t: Turn, result: AgentRunResult, runId: Id, reason: StopReason)
    requires hide *; Ended(g, t, result, reason) && t.work.Some? && MapResult(runId, reason, None) == Some(result)
    requires reason.GateRejected? || reason.ProviderProtocolError? || reason.PresentationPlanRejected? || reason.RendererInvariantFailed?
    ensures Told(t, reason, Some(TaskBlocked), OutcomeBlocked, "request cannot be completed")
  {
    hide Ended;
    TurnTells(g, t, result, reason);
  }

  lemma UnavailableTells(g: RunGraph, t: Turn, result: AgentRunResult, runId: Id)
    requires hide *; Ended(g, t, result, OrderServiceUnavailable) && t.work.Some?
    requires MapResult(runId, OrderServiceUnavailable, None) == Some(result)
    ensures Told(t, OrderServiceUnavailable, Some(TaskBlocked), OutcomeBlocked, "order service unavailable")
  {
    hide Ended;
    TurnTells(g, t, result, OrderServiceUnavailable);
  }

  lemma NotFoundTells(g: RunGraph, t: Turn, result: AgentRunResult, runId: Id)
    requires hide *; Ended(g, t, result, OrderNotFound) && t.work.Some? && MapResult(runId, OrderNotFound, None) == Some(result)
    ensures Told(t, OrderNotFound, Some(TaskCompleted), OutcomeNotFound, "not found or not accessible")
  {
    hide Ended;
    TurnTells(g, t, result, OrderNotFound);
  }

  lemma GoalTells(g: RunGraph, t: Turn, result: AgentRunResult, runId: Id, rendered: Option<string>)
    requires hide *; Ended(g, t, result, GoalCompleted) && t.work.Some? && MapResult(runId, GoalCompleted, rendered) == Some(result)
    ensures rendered.Some? && 1 <= |rendered.value| <= 4000
    ensures Told(t, GoalCompleted, Some(TaskCompleted), OutcomeCompleted, rendered.value)
  {
    hide Ended;
    TurnTells(g, t, result, GoalCompleted);
  }

  lemma ShownPlan(p: Progress, t: Turn, planRef: Id)
    requires WorkOf(p, t) && p.tool.Some? && p.tool.value.seen.Some? && p.tool.value.seen.value.plan.Some?
    requires p.tool.value.seen.value.plan.value.planRef == Some(planRef) == t.rendered.planRef
    ensures ShowsPlan(t)
  {
  }

  lemma PlanTells(g: RunGraph, t: Turn, result: AgentRunResult, runId: Id, planned: Planned)
    requires hide *; Ended(g, t, result, PlanReason(planned)) && t.work.Some? && !planned.PlanRaises?
    requires Some(result) == MapResult(runId, PlanReason(planned),
                                       if planned.Plan? && PlanReason(planned).GoalCompleted? then planned.rendered else None)
    requires planned.Plan? ==> ShowsPlan(t) && (!PlanReason(planned).GoalCompleted? ==> EndsForPlan(t))
    ensures PlanTold(t, planned)
  {
    hide Ended, MapResult, Told, ShowsPlan, EndsForPlan;
    if PlanReason(planned).GoalCompleted? {
      GoalTells(g, t, result, runId, planned.rendered);
    } else {
      BlockedTells(g, t, result, runId, PlanReason(planned));
    }
  }

  lemma ReplyTells(g: RunGraph, t: Turn, result: AgentRunResult, runId: Id, reply: OrderReply, planned: Planned)
    requires hide *; !OutcomeOf(reply).FoundOutcome? && !reply.OrderRaises? && t.work.Some?
    requires var reason := if OutcomeOf(reply).NotFoundOutcome? then OrderNotFound else OrderServiceUnavailable;
             Ended(g, t, result, reason) && MapResult(runId, reason, None) == Some(result)
    ensures ReplyTold(t, reply, planned)
  {
    hide Ended, MapResult, Told, CanonicalVersion, PlanTold;
    if OutcomeOf(reply).NotFoundOutcome? {
      NotFoundTells(g, t, result, runId);
    } else {
      UnavailableTells(g, t, result, runId);
    }
  }

  lemma FoundTells(t: Turn, reply: OrderReply, planned: Planned)
    requires OutcomeOf(reply).FoundOutcome? && PlanTold(t, planned)
    ensures ReplyTold(t, reply, planned)
  {
    hide PlanTold, CanonicalVersion;
  }

  lemma PlanCompletes(runId: Id, planned: Planned)
    ensures planned.Plan? && PlanEndsTurn(planned) ==>
              MapResult(runId, PlanReason(planned), if PlanReason(planned).GoalCompleted? then planned.rendered else None).Some?
    ensures planned.PlanRaises? ==> !PlanEndsTurn(planned)
  {
  }

  lemma ReplyCompletes(reply: OrderReply, planned: Planned)
    ensures OutcomeOf(reply).FoundOutcome? && ReplyEndsTurn(reply, planned) ==> PlanEndsTurn(planned)
  {
    hide PlanEndsTurn, CanonicalVersion;
  }

  // The tool was called and the turn can go on from there.
  predicate Respondable(p: Progress, snapshot: Gateway.Snapshot, user: Message, task: Task, unit: RequestUnit, now: Time, nextId: Id) {
    && p.Ok() && p.gate.Some? && p.hook.None? && p.tool.Some? && p.tool.value.seen.None?
    && p.user == user && p.task == task && p.unit == unit
    && p.manifest.registryVersion == snapshot.version && p.manifest.toolsetHash == snapshot.hash
    && p.manifest.manifestId < nextId && p.record.createdAt <= now && p.running.startedAt <= now
  }

  predicate FoundBy(call: ToolCall, o: Observation) {
    && call.status.CallSucceeded? && o.sourceTool == "get_order" && o.supersedes.None? && call.finishedAt == Some(o.recordedAt)
  }

  // The work of the finished turn is the one in progress, down to the call.
  predicate WorkKeeps(p: Progress, t: Turn) {
    && SameRoots(p, t) && t.work.Some?
    && var w := t.work.value;
       && w.record == p.record && w.delta == p.delta && w.binding == p.binding && w.task == p.task && w.unit == p.unit
       && w.hook == p.hook && p.gate.Some? && w.gate == p.gate.value.0 && p.tool.Some? && w.tool.Some?
       && w.tool.value.call == p.tool.value.call
  }

  lemma ReplyIs(reply: OrderReply, x: Execution)
    requires Answers(reply, x)
    ensures x.outcome == Some(OutcomeOf(reply)) && x.terminal.Some? && !reply.OrderRaises?
    ensures OutcomeOf(reply).FoundOutcome? <==> x.observation.Some?
    ensures x.observation.Some? ==> FoundBy(x.terminal.value, x.observation.value)
  {
    hide CanonicalVersion;
  }

  lemma TableRow(runId: Id, reason: StopReason)
    ensures TargetOf(reason) == match reason
              case GoalCompleted => Some(TaskCompleted)
              case OrderNotFound => Some(TaskCompleted)
              case InputInvalid => None
              case ProcessRestartDetected => None
              case _ => Some(TaskBlocked)
    ensures !reason.GoalCompleted? ==> MapResult(runId, reason, None).Some?
  {
  }

  lemma EndableNow(p: Progress, task: Task, unit: RequestUnit, now: Time)
    requires p.Ok() && p.gate.Some? && p.hook.None? && AllSeen(p) && p.task == task && p.unit == unit
    requires p.record.createdAt <= now && p.running.startedAt <= now
    ensures Endable(p, now) && AtCurrent(p.Graph(), p, task, unit) && p.RunningOk()
  {
    hide Progress.Ok, AllSeen, Progress.Graph, Progress.Creation, CreateGraphCommand.Valid, Progress.RunningOk, Claimed;
    OkParts(p);
    CreatedTask(p);
  }

  lemma OkRuns(p: Progress)
    requires p.Ok()
    ensures p.RunningOk()
  {
    hide Progress.RunningOk;
  }

  lemma RespondableEnds(p: Progress, snapshot: Gateway.Snapshot, user: Message, task: Task, unit: RequestUnit, now: Time, nextId: Id)
    requires Respondable(p, snapshot, user, task, unit, now, nextId) && p.found.None?
    ensures Endable(p, now) && AtCurrent(p.Graph(), p, task, unit) && SeenRef(p) == None && p.RunningOk()
    ensures p.tool.Some? && p.tool.value.seen.None?
  {
    hide Progress.Ok, Endable, AtCurrent, Progress.RunningOk, Progress.Graph;
    EndableNow(p, task, unit, now);
  }

  lemma RunsUnfinished(p: Progress)
    requires p.running.status.RunRunning?
    ensures Unfinished(p.Graph())
  {
    GraphRuns(p);
    hide Progress.Graph;
  }

  lemma RespondablePresents(p: Progress, snapshot: Gateway.Snapshot, user: Message, task: Task, unit: RequestUnit, now: Time,
                            nextId: Id, call: ToolCall, o: Observation)
    requires Respondable(p, snapshot, user, task, unit, now, nextId)
    requires p.found == Some(o) && p.tool.value.call == call && FoundBy(call, o)
    ensures Presentable(p, snapshot, user, task, call, o) && task.createdAt <= now && p.manifest.manifestId < nextId
    ensures p.RunningOk() && p.running.status.RunRunning? && p.tool.Some?
  {
    CreatedTask(p);
    hide Progress.Creation, CreateGraphCommand.Valid, OpenedWith, DecidedWith, Progress.GatePart, Progress.ToolPart;
    RunningFacts(p);
  }

  lemma SeenEnds(p: Progress, p': Progress, snapshot: Gateway.Snapshot, user: Message, task: Task, unit: RequestUnit, now: Time,
                 nextId: Id, later: Time)
    requires Respondable(p, snapshot, user, task, unit, now, nextId) && now <= later
    requires p'.tool.Some? && p'.tool.value.seen.Some? && p' == p.(tool := Some(p.tool.value.(seen := p'.tool.value.seen)))
    requires p'.ToolPart(p'.tool.value)
    ensures p'.tool.value.seen.value.plan.None? ==> Presented(p, p', unit)
    ensures Endable(p', later) && AtCurrent(p'.Graph(), p', task, unit) && p'.RunningOk()
    ensures SeenRef(p') == Some(p'.tool.value.seen.value.observation.observationId)
    ensures p'.running.status.RunRunning?
  {
    PresentedOk(p, p');
    hide Progress.Ok, Progress.ToolPart, Endable, AtCurrent, Progress.RunningOk, Progress.Graph;
    EndableNow(p', task, unit, later);
    RunningFacts(p');
  }

  // Presenting the Observation leaves everything else in place.
  lemma PresentedOk(p: Progress, p': Progress)
    requires p.Ok() && p.tool.Some? && p'.tool.Some? && p'.tool.value.seen.Some?
    requires p' == p.(tool := Some(p.tool.value.(seen := p'.tool.value.seen))) && p'.ToolPart(p'.tool.value)
    ensures p'.Ok() && AllSeen(p')
  {
    hide CreateGraphCommand.Valid, OpenedWith, DecidedWith, HookOk, CalledWith, SeenWith, GatedWith;
  }

  lemma PlanEnds(p: Progress, p1: Progress, p2: Progress, snapshot: Gateway.Snapshot, user: Message, task: Task,
                 unit: RequestUnit, now: Time, nextId: Id, later: Time)
    requires Respondable(p, snapshot, user, task, unit, now, nextId) && now <= later
    requires p1.tool.Some? && p1.tool.value.seen.Some? && p1 == p.(tool := Some(p.tool.value.(seen := p1.tool.value.seen)))
    requires p2.tool.Some? && p2.tool.value.seen.Some? && p2.tool.value.seen.value.plan.Some?
    requires p2 == WithPlan(p1, p2.tool.value.seen.value.plan.value) && p2.ToolPart(p2.tool.value)
    ensures p2 == p.(tool := Some(p.tool.value.(seen := p2.tool.value.seen)))
    ensures Endable(p2, later) && AtCurrent(p2.Graph(), p2, task, unit) && p2.RunningOk()
    ensures SeenRef(p2) == Some(p1.tool.value.seen.value.observation.observationId)
    ensures p2.tool.value.seen.value.manifest == p1.tool.value.seen.value.manifest
  {
    hide Respondable, Endable, AtCurrent, Progress.RunningOk, Progress.Graph, Progress.ToolPart;
    SeenEnds(p, p2, snapshot, user, task, unit, now, nextId, later);
  }

  lemma KeptUnseen(p: Progress, t: Turn)
    requires t.work.Some? && WorkOf(p, t) && p.tool.Some? && p.tool.value.seen.None?
    ensures WorkKeeps(p, t) && MovedAfterPresentation(t)
  {
  }

  // The presented version was in force until the clock moved on.
  lemma KeptSeen(p: Progress, p': Progress, t: Turn, at: Time, strict: bool)
    requires t.work.Some? && WorkOf(p', t) && EndsAfter(t.work.value, at, strict)
    requires p.tool.Some? && p'.tool.Some? && p'.tool.value.seen.Some?
    requires p' == p.(tool := Some(p.tool.value.(seen := p'.tool.value.seen)))
    requires p'.tool.value.seen.value.manifest.assembledAt <= at
    ensures WorkKeeps(p, t) && (strict ==> MovedAfterPresentation(t))
  {
  }

  // One Observation was put before the model since.
  predicate Presented(p: Progress, p': Progress, unit: RequestUnit) {
    && p.tool.Some? && p'.tool.Some? && p'.tool.value.seen.Some? && p'.tool.value.seen.value.plan.None?
    && p' == p.(tool := Some(p.tool.value.(seen := p'.tool.value.seen))) && p'.ToolPart(p'.tool.value)
    && p'.running.status.RunRunning? && p'.unit == unit
  }

  lemma PresentedFacts(p: Progress, p': Progress, unit: RequestUnit)
    requires Presented(p, p', unit)
    ensures p.tool.Some? && p'.tool.Some? && p'.tool.value.seen.Some? && p'.tool.value.seen.value.plan.None?
    ensures p' == p.(tool := Some(p.tool.value.(seen := p'.tool.value.seen))) && p'.ToolPart(p'.tool.value)
    ensures p'.running.status.RunRunning? && p'.unit == unit
  {
    hide Progress.ToolPart;
  }

  // ----- Between revalidation and the gate -----

  // The graph the gate is about to look at.
  predicate Gatable(p: Progress, now: Time) {
    && p.Ok() && p.gate.None? && p.tool.None? && p.found.None? && p.running.status.RunRunning? && SameUnit(p)
    && p.Current().0.taskId == p.task.taskId
    && (p.hook.Some? ==> p.hook.value.0.task.status.TaskWaitingUser? && !p.Current().0.status.TaskActive?)
    && p.Current().0.updatedAt <= now && p.Current().1.updatedAt <= now
    && p.Current().0.owner == p.conversation.owner
  }

  lemma OkParts(p: Progress)
    requires p.Ok()
    ensures p.RunningOk() && p.Creation().Valid() && p.task.updatedAt == p.record.createdAt
  {
    hide Progress.RunningOk, CreateGraphCommand.Valid, OpenedWith, DecidedWith;
    CreatedTask(p);
  }

  lemma HookedIsGatable(p: Progress, p': Progress, now: Time)
    requires p.Ok() && NothingGated(p) && p' == p.(hook := p'.hook) && p.record.createdAt <= now
    requires p'.hook.Some? ==>
               && HookOk(p.running.runId, p.task, p.unit, p'.hook.value.0, p'.hook.value.1)
               && p'.hook.value.0.task.status.TaskWaitingUser? && p'.hook.value.0.task.updatedAt <= now
    ensures Gatable(p', now)
  {
    hide CreateGraphCommand.Valid, OpenedWith, DecidedWith, Progress.GatePart, Progress.ToolPart, HookOk;
    CreatedTask(p);
    if p'.hook.Some? { HookFacts(p.running.runId, p.task, p.unit, p'.hook.value.0, p'.hook.value.1); }
  }

  lemma HookFacts(r: Id, task: Task, unit: RequestUnit, m: Moved, e: TraceEvent)
    requires HookOk(r, task, unit, m, e)
    ensures m.task.taskId == task.taskId && m.task.owner == task.owner && m.unit.unitId == unit.unitId
    ensures m.unit.taskId == unit.taskId && m.unit.updatedAt == m.task.updatedAt
  {
  }

  // ----- Acting on the revalidated move -----

  predicate Actable(p: Progress, snapshot: Gateway.Snapshot, m: ContextManifest, conversation: Conversation, user: Message,
                    task: Task, unit: RequestUnit, binding: InputBinding, link: RunTaskLink, now: Time, nextId: Id)
  {
    && p.conversation == conversation && p.user == user && p.task == task && p.unit == unit && p.binding == binding
    && link == p.ActiveLink() && p.manifest == m && m.registryVersion == snapshot.version && m.toolsetHash == snapshot.hash
    && m.manifestId < nextId && p.record.createdAt <= now && p.running.startedAt <= now
  }

  // The cursor keeps its Task or takes a newer state of the same one.
  predicate TaskCursor(before: Option<Task>, after: Option<Task>, taskId: Id) {
    after == before || (after.Some? && after.value.Valid() && after.value.taskId == taskId)
  }

  // Some gate evaluation accepted the move.
  ghost predicate LetThrough(move: Gateway.RevalidatedMove, owner: string, binding: InputBinding, snapshot: Gateway.Snapshot,
                             m: ContextManifest)
  {
    exists gateId: Id, task: Task, unit: RequestUnit, at: Time ::
      Gateway.Evaluate(gateId, move, owner, task, unit, binding, snapshot, m, m.modelCallId, Gateway.Budget(0, 1), true, at).accepted
  }

  predicate Worked(p: Progress, t: Turn) {
    && SameRoots(p, t) && t.work.Some?
    && var w := t.work.value;
       && w.record == p.record && w.delta == p.delta && w.binding == p.binding && w.task == p.task && w.unit == p.unit
       && w.hook == p.hook
  }

  // A rejected move ends the turn there and then; an accepted one is called, and the
  // order service and the plan decide.
  predicate Acted(t: Turn, reply: OrderReply, planned: Planned) {
    && t.work.Some? && (t.work.value.gate.accepted <==> t.work.value.tool.Some?)
    && if t.work.value.gate.accepted then ReplyTold(t, reply, planned)
       else && Told(t, GateRejected, Some(TaskBlocked), OutcomeBlocked, "request cannot be completed")
            && t.work.value.end.transition.reasonRef == t.work.value.gate.gateId
  }

  // What it takes, besides calm, for an accepted call to end in a result.
  predicate Completes(snapshot: Gateway.Snapshot, running: Run, budgetMs: int, reply: OrderReply, planned: Planned, now: Time) {
    SoundPolicy(snapshot) && WithinBudget(running, budgetMs, now) && ReplyEndsTurn(reply, planned)
  }

  lemma CompletesParts(snapshot: Gateway.Snapshot, running: Run, budgetMs: int, reply: OrderReply, planned: Planned)
    ensures forall now :: Completes(snapshot, running, budgetMs, reply, planned, now) ==>
              && SoundPolicy(snapshot) && !reply.OrderRaises? && ReplyEndsTurn(reply, planned)
              && forall at: Time :: at <= now ==> WithinBudget(running, budgetMs, at)
  {
    hide SoundPolicy, PlanEndsTurn, CanonicalVersion;
  }

  lemma GatableFacts(p: Progress, now: Time)
    requires Gatable(p, now)
    ensures p.running.status.RunRunning? && Unfinished(p.Graph()) && p.gate.None? && p.tool.None? && p.found.None? && SameUnit(p)
    ensures p.hook.Some? ==> !p.Current().0.status.TaskActive?
    ensures p.RunningOk()
    ensures StoredTask(p.Graph(), p.conversation.owner, p.task.taskId).Some?
    ensures StoredUnit(p.Graph(), p.conversation.owner, p.unit.unitId).Some?
  {
    hide Progress.Ok, Progress.RunningOk, Progress.Graph;
    OkRuns(p);
    GraphTasks(p);
  }

  lemma ActableFacts(p: Progress, snapshot: Gateway.Snapshot, m: ContextManifest, conversation: Conversation, user: Message,
                     task: Task, unit: RequestUnit, binding: InputBinding, link: RunTaskLink, now: Time, nextId: Id)
    requires Actable(p, snapshot, m, conversation, user, task, unit, binding, link, now, nextId)
    ensures p.conversation == conversation && p.user == user && p.task == task && p.unit == unit && p.binding == binding
    ensures link == p.ActiveLink() && p.manifest == m && p.running.startedAt <= now && p.record.createdAt <= now
    ensures m.registryVersion == snapshot.version && m.toolsetHash == snapshot.hash && m.manifestId < nextId
  {
  }

  lemma KeepsCursor(task: Option<Task>, taskId: Id)
    ensures TaskCursor(task, task, taskId)
  {
  }

  lemma MovesCursor(before: Option<Task>, task: Task)
    requires task.Valid()
    ensures TaskCursor(before, Some(task), task.taskId)
  {
  }

  lemma LoadedIsCurrent(g: RunGraph, p: Progress, owner: string, task: Task, unit: RequestUnit)
    requires || (g == p.Graph() && StoredTask(g, owner, p.task.taskId) == Some(task) && StoredUnit(g, owner, p.unit.unitId) == Some(unit))
             || (Claimed(g) && !(task.status.TaskActive? && unit.status.TaskActive?))
    ensures AtCurrent(g, p, task, unit)
  {
    hide Progress.Trace;
  }

  lemma GatedAtCurrent(g: RunGraph, g': RunGraph, p: Progress, p': Progress, task: Task, unit: RequestUnit)
    requires AtCurrent(g, p, task, unit) && p' == p.(gate := p'.gate) && p.running.status.RunRunning?
    requires g == p.Graph() ==> g' == p'.Graph()
    requires Claimed(g) ==> Claimed(g')
    ensures AtCurrent(g', p', task, unit)
  {
    GraphIsNotClaimed(p');
    hide Progress.Graph;
  }

  lemma GatedOk(p: Progress, p': Progress)
    requires p.Ok() && p.gate.None? && p.tool.None? && p.found.None? && p' == p.(gate := p'.gate) && p'.gate.Some?
    requires p'.GatePart(p'.gate.value.0, p'.gate.value.1)
    ensures p'.Ok()
  {
    hide CreateGraphCommand.Valid, OpenedWith, DecidedWith, HookOk, GatedWith;
  }

  lemma RejectedEnds(g: RunGraph, p: Progress, p': Progress, now: Time, later: Time, task: Task, unit: RequestUnit)
    requires Gatable(p, now) && now <= later && p' == p.(gate := p'.gate) && p'.gate.Some? && p.running.startedAt <= now
    requires (g == p'.Graph() && p'.GatePart(p'.gate.value.0, p'.gate.value.1)) || Claimed(g)
    ensures g == p'.Graph() ==> Endable(p', later)
    ensures SeenRef(p') == None && p'.RunningOk()
  {
    hide Progress.Ok, Progress.Graph, Progress.GatePart, Progress.RunningOk, Claimed;
    OkRuns(p);
    GatableFacts(p, now);
    KeptRunning(p, p');
    GraphIsNotClaimed(p');
    if g == p'.Graph() { GatedOk(p, p'); }
  }

  lemma KeptRunning(p: Progress, p': Progress)
    requires p.RunningOk() && p' == p.(gate := p'.gate)
    ensures p'.RunningOk() && p'.running.status.RunRunning?
  {
  }

  lemma RejectedActed(p: Progress, p': Progress, t: Turn, g: RunGraph, result: AgentRunResult, reply: OrderReply, planned: Planned)
    requires hide *; Ended(g, t, result, GateRejected) && t.work.Some? && WorkOf(p', t)
    requires p' == p.(gate := p'.gate) && p'.gate.Some? && !p'.gate.value.0.accepted && p.tool.None?
    requires MapResult(result.runId, GateRejected, None) == Some(result)
    requires t.work.value.end.transition.reasonRef == p'.gate.value.0.gateId
    ensures Acted(t, reply, planned) && Worked(p, t) && MovedAfterPresentation(t)
    ensures EndedSomehow(g, t, result) && t.work.value.gate == p'.gate.value.0
  {
    hide Ended, ReplyTold, Told, MapResult, EndedSomehow;
    BlockedTells(g, t, result, result.runId, GateRejected);
    EndedBy(g, t, result, GateRejected);
    RejectedTool(g, t, result);
  }

  lemma RejectedTool(g: RunGraph, t: Turn, result: AgentRunResult)
    requires Ended(g, t, result, GateRejected) && t.work.Some?
    ensures !t.work.value.gate.accepted ==> t.work.value.tool.None?
  {
    hide OpeningOk, EndOk, Turn.Trace, Turn.Graph;
  }

  lemma AcceptedIsCallable(p: Progress, p': Progress, snapshot: Gateway.Snapshot, m: ContextManifest, conversation: Conversation,
                           gate: GateDecision, move: Gateway.RevalidatedMove, task: Task, unit: RequestUnit,
                           binding: InputBinding, g: RunGraph, now: Time)
    requires hide *; Gatable(p, now) && p' == p.(gate := p'.gate) && p'.gate.Some? && p'.gate.value.0 == gate && gate.accepted
    requires g == p'.Graph() && p'.GatePart(gate, p'.gate.value.1) && AtCurrent(g, p', task, unit)
    requires AcceptedBy(gate, move, conversation.owner, task, unit, binding, snapshot, m)
    requires p.conversation == conversation && p.binding == binding && p.manifest == m && m.registryVersion == snapshot.version
    ensures Callable(p', snapshot, m, gate, conversation.owner, task, unit, binding) && g == p'.Graph()
    ensures task == p.task && unit == p.unit
    ensures LetThrough(move, conversation.owner, binding, snapshot, m)
  {
    GatedOk(p, p');
    GraphIsNotClaimed(p');
    hide Progress.Ok, Progress.Graph, Gateway.Evaluate, Gateway.ResolveValidatedGetOrder, GatedWith;
  }

  lemma ToolOkParts(p: Progress, p': Progress)
    requires p.Ok() && p.tool.None? && p.found.None? && p'.tool.Some? && p' == p.(tool := p'.tool, found := p'.found)
    requires p'.ToolPart(p'.tool.value)
    ensures p'.Ok()
  {
    hide CreateGraphCommand.Valid, OpenedWith, DecidedWith, HookOk, GatedWith, CalledWith;
  }

  lemma ToolIsRespondable(p: Progress, p': Progress, snapshot: Gateway.Snapshot, user: Message, task: Task, unit: RequestUnit,
                          m: ContextManifest, gate: GateDecision, owner: string, binding: InputBinding, now: Time, nextId: Id)
    requires Callable(p, snapshot, m, gate, owner, task, unit, binding)
    requires p'.tool.Some? && p'.tool.value.seen.None? && p' == p.(tool := p'.tool, found := p'.found)
    requires p'.ToolPart(p'.tool.value) && p.user == user && m.toolsetHash == snapshot.hash
    requires m.manifestId < nextId && p.record.createdAt <= now && p.running.startedAt <= now
    ensures Respondable(p', snapshot, user, task, unit, now, nextId)
  {
    ToolOkParts(p, p');
    hide Progress.Ok, Progress.ToolPart, Gateway.ResolveValidatedGetOrder;
  }

  lemma RespondedActed(p: Progress, p': Progress, t: Turn, reply: OrderReply, planned: Planned)
    requires hide *; ReplyTold(t, reply, planned) && CallKeeps(p', t)
    requires p'.gate.Some? && p'.gate.value.0.accepted
    requires p'.record == p.record && p'.delta == p.delta && p'.binding == p.binding && p'.task == p.task && p'.unit == p.unit
    requires p'.hook == p.hook && p'.conversation == p.conversation && p'.user == p.user
    ensures Acted(t, reply, planned) && Worked(p, t) && t.work.Some? && t.work.value.gate == p'.gate.value.0
  {
    hide ReplyTold;
  }

  lemma EndedFacts(g: RunGraph, t: Turn, result: AgentRunResult, reason: StopReason)
    requires Ended(g, t, result, reason)
    ensures t.terminal.stopReason == Some(reason) && t.terminal.runId == result.runId && t.assistant.content == result.message
    ensures t.stop.outcome == Some(result.outcome)
  {
    hide TurnOk, Turn.Graph;
  }

  // The verdict of the gate on what was loaded.
  ghost predicate Judged(g: RunGraph, p: Progress, p': Progress, move: Gateway.RevalidatedMove, owner: string, task: Task,
                         unit: RequestUnit, snapshot: Gateway.Snapshot, gate: GateDecision)
  {
    && p' == p.(gate := p'.gate) && p'.gate.Some? && p'.gate.value.0 == gate && AtCurrent(g, p', task, unit)
    && ((g == p'.Graph() && p'.GatePart(gate, p'.gate.value.1)) || (Claimed(g) && !gate.accepted))
    && (gate.accepted ==> AcceptedBy(gate, move, owner, task, unit, p.binding, snapshot, p.manifest))
    && (gate.accepted <==> Passes(move, owner, task, unit, p.binding, snapshot, p.manifest))
  }

  // The gate's verdict on a move of a Run whose one call is still to be made.
  predicate Passes(move: Gateway.RevalidatedMove, owner: string, task: Task, unit: RequestUnit, binding: InputBinding,
                   snapshot: Gateway.Snapshot, m: ContextManifest)
  {
    Gateway.Evaluate(0, move, owner, task, unit, binding, snapshot, m, m.modelCallId, Gateway.Budget(0, 1), true, 0).accepted
  }

  lemma PassesAny(move: Gateway.RevalidatedMove, owner: string, task: Task, unit: RequestUnit, binding: InputBinding,
                  snapshot: Gateway.Snapshot, m: ContextManifest, gateId: Id, at: Time)
    ensures Gateway.Evaluate(gateId, move, owner, task, unit, binding, snapshot, m, m.modelCallId, Gateway.Budget(0, 1), true, at).accepted
            <==> Passes(move, owner, task, unit, binding, snapshot, m)
  {
    hide Gateway.Checks;
  }

  // Nobody came in between: the verdict is on the graph the turn left.
  lemma VerdictExactly(g: RunGraph, p: Progress, p': Progress, move: Gateway.RevalidatedMove, owner: string, task: Task,
                       unit: RequestUnit, snapshot: Gateway.Snapshot, gate: GateDecision, now: Time)
    requires hide *; Judged(g, p, p', move, owner, task, unit, snapshot, gate) && g == p'.Graph() && Gatable(p, now)
    ensures gate.accepted <==> p.hook.None? && Passes(move, owner, p.task, p.unit, p.binding, snapshot, p.manifest)
  {
    hide Progress.Graph, Passes, Progress.GatePart, Progress.Ok, Gateway.Evaluate, Gateway.ResolveValidatedGetOrder;
    GraphIsNotClaimed(p');
  }

  // The one candidate and the move name the same order.
  ghost predicate AsksAsNamed(output: ModelOutput) {
    && |output.candidates| == 1 && |output.candidates[0].inputs| == 1
    && exists orderId :: OrderId.Names(output.candidates[0].inputs[0].value, orderId) && Gateway.AsksFor(output.move, orderId)
  }

  // The bound order is the one the candidate names.
  lemma BoundIsNamed(input: ModelInput, user: Message, owner: string, output: ModelOutput, d: Decision)
    requires DecidedFrom(input, user, owner, output, d)
    ensures d.Routable? && |output.candidates| == 1 && |output.candidates[0].inputs| == 1
    ensures OrderId.Names(output.candidates[0].inputs[0].value, d.graph.binding.orderId)
  {
    hide Provenance, ModelOutput.Valid, Graphs, Decision.Valid, ClosureOf, OrderId.Normalize, OrderId.Names,
      Rejection, GraphFor, Acceptable;
    var ids: Allocations, recordId: Id, moveRef: Id, now: Time :|
      ReducedTo(input, user, owner, output, ids, recordId, moveRef, now, d);
    ProvenanceQuotes(input, output, Authoritative(user));
    OutcomeExactly(input, output, Authoritative(user), ids, owner, recordId, moveRef, now);
    Integrity.RoutableBinding(output, ids, owner, now);
    Integrity.GraphBinds(output, output.candidates[0], ids[output.candidates[0].candidateId], owner, now);
    OrderId.NormalizesExactly(output.candidates[0].inputs[0].value, d.graph.binding.orderId);
  }

  lemma NamedOnce(value: string, a: string, b: string)
    requires OrderId.Names(value, a) && OrderId.Names(value, b)
    ensures a == b
  {
    hide OrderId.Names, OrderId.Normalize;
    OrderId.NormalizesExactly(value, a);
    OrderId.NormalizesExactly(value, b);
  }

  // With a built registry the gate lets the turn's own move through exactly when the
  // registry offers get_order and the move asks for the order that was bound.
  lemma PassesExactly(input: ModelInput, user: Message, owner: string, output: ModelOutput, d: Decision,
                      move: Gateway.RevalidatedMove, snapshot: Gateway.Snapshot, m: ContextManifest, es: seq<TraceEvent>)
    requires hide *; DecidedFrom(input, user, owner, output, d) && Gateway.Built(snapshot) && output.move.kind.CallTool?
    requires d.Routable? && Some(move) == Gateway.Revalidate(d, d.graph.task, d.graph.unit, d.graph.binding)
    requires OpenedWith(input.runId, user, m, es) && m.registryVersion == snapshot.version && m.toolsetHash == snapshot.hash
    requires input.messageRef == user.messageId
    ensures Passes(move, owner, d.graph.task, d.graph.unit, d.graph.binding, snapshot, m)
            <==> Gateway.Offers(snapshot) && AsksAsNamed(output)
  {
    hide DecidedFrom, Gateway.Built, Gateway.Revalidate, Gateway.Evaluate, Gateway.Offers, Gateway.AsksFor, OrderId.Names,
      Decision.Valid, NextMove.Valid, ModelOutput.Valid, QuotesFound, ProjectedContext;
    DecidedFacts(input, user, owner, output, d);
    DecisionStarts(input, user, owner, output, d);
    BoundIsNamed(input, user, owner, output, d);
    OpenedManifest(input.runId, user, m, es);
    Gateway.OrdinaryMoveExactly(0, d, owner, snapshot, m, 0);
    var value, bound := output.candidates[0].inputs[0].value, d.graph.binding.orderId;
    forall orderId | OrderId.Names(value, orderId) ensures orderId == bound { NamedOnce(value, orderId, bound); }
  }

  lemma OpenedManifest(runId: Id, user: Message, m: ContextManifest, es: seq<TraceEvent>)
    requires OpenedWith(runId, user, m, es)
    ensures m.runId == runId && m.taskRef.None?
  {
  }

  lemma RejectedParts(g: RunGraph, p: Progress, p': Progress, move: Gateway.RevalidatedMove, owner: string, task: Task,
                      unit: RequestUnit, snapshot: Gateway.Snapshot, gate: GateDecision, now: Time, later: Time)
    requires hide *; Judged(g, p, p', move, owner, task, unit, snapshot, gate) && Gatable(p, now) && now <= later
    requires p.running.startedAt <= now
    ensures AtCurrent(g, p', task, unit) && (g == p'.Graph() ==> Endable(p', later)) && SeenRef(p') == None && p'.RunningOk()
    ensures p' == p.(gate := p'.gate) && p'.gate.Some? && p'.gate.value.0 == gate && p.tool.None?
  {
    hide AtCurrent, AcceptedBy, Progress.GatePart, Progress.Graph, Endable, Progress.RunningOk, Progress.Ok;
    RejectedEnds(g, p, p', now, later, task, unit);
  }

  lemma AcceptedParts(g: RunGraph, p: Progress, p': Progress, snapshot: Gateway.Snapshot, m: ContextManifest,
                      conversation: Conversation, gate: GateDecision, move: Gateway.RevalidatedMove, task: Task,
                      unit: RequestUnit, binding: InputBinding, now: Time)
    requires hide *; Judged(g, p, p', move, conversation.owner, task, unit, snapshot, gate) && Gatable(p, now) && gate.accepted
    requires p.conversation == conversation && p.binding == binding && p.manifest == m && m.registryVersion == snapshot.version
    ensures Callable(p', snapshot, m, gate, conversation.owner, task, unit, binding) && g == p'.Graph()
    ensures p' == p.(gate := p'.gate) && p'.gate.Some? && p'.gate.value.0 == gate
    ensures LetThrough(move, conversation.owner, binding, snapshot, m) && p.hook.None?
  {
    hide AtCurrent, AcceptedBy, Progress.GatePart, Progress.Graph, LetThrough, Gatable, Progress.Ok,
      Gateway.ResolveValidatedGetOrder;
    AcceptedIsCallable(p, p', snapshot, m, conversation, gate, move, task, unit, binding, g, now);
  }

  ghost predicate EndedSomehow(g: RunGraph, t: Turn, result: AgentRunResult) { exists reason :: Ended(g, t, result, reason) }

  lemma EndedBy(g: RunGraph, t: Turn, result: AgentRunResult, reason: StopReason)
    requires Ended(g, t, result, reason)
    ensures EndedSomehow(g, t, result)
  {
    hide Ended;
  }

  // The finished work up to the accepted gate, with some call.
  predicate CallKeeps(p: Progress, t: Turn) {
    && SameRoots(p, t) && t.work.Some?
    && var w := t.work.value;
       && w.record == p.record && w.delta == p.delta && w.binding == p.binding && w.task == p.task && w.unit == p.unit
       && w.hook == p.hook && p.gate.Some? && w.gate == p.gate.value.0 && w.tool.Some?
  }

  lemma CallIsKept(p: Progress, p': Progress, t: Turn)
    requires WorkKeeps(p', t) && p' == p.(tool := p'.tool, found := p'.found)
    ensures CallKeeps(p, t)
  {
  }

  // ----- From the decision to the revalidated move -----

  // The local cursor names a Task of the Run, if it names both.
  predicate CursorOk(link: Option<RunTaskLink>, task: Option<Task>, runId: Id) {
    link.Some? && task.Some? ==> link.value == RunTaskLink(runId, task.value.taskId, None, None) && task.value.Valid()
  }

  predicate Established(p: Progress, conversation: Conversation, user: Message, running: Run, m: ContextManifest, d: Decision,
                        move: Gateway.RevalidatedMove)
    requires d.Routable?
  {
    && p.Ok() && NothingGated(p) && ComesFrom(p, d) && MoveFits(p, move) && d.move.kind.CallTool?
    && p.conversation == conversation && p.user == user && p.running == running && p.manifest == m
    && Some(move) == Gateway.Revalidate(d, d.graph.task, d.graph.unit, d.graph.binding)
  }

  lemma DecisionStarts(input: ModelInput, user: Message, owner: string, output: ModelOutput, d: Decision)
    requires DecidedFrom(input, user, owner, output, d)
    ensures d.Routable? && d.Valid() && d.move.Valid() && d.move.base.None?
    ensures d.closure.record.runId == input.runId
  {
    DecidedFacts(input, user, owner, output, d);
    NewGoalHasNoBase(output);
    hide DecidedFrom, Decision.Valid, NextMove.Valid, ModelOutput.Valid;
  }

  lemma StartsUndecided(conversation: Conversation, user: Message, running: Run, m: ContextManifest, es: seq<TraceEvent>,
                        d: Decision, owner: string, now: Time)
    requires d.Routable? && BegunWith(owner, user.content, conversation, user, running, now)
    ensures var p := InitialProgress(conversation, user, running, m, es, d);
            && Undecided(p) && ComesFrom(p, d) && p.running == running && p.manifest == m
            && p.tool.None? && p.conversation == conversation
  {
  }

  lemma CreatedCursor(p: Progress)
    requires p.Creation().Valid()
    ensures CursorOk(Some(p.ActiveLink()), Some(p.task), p.running.runId)
    ensures CursorOk(None, None, p.running.runId)
  {
    CreatedTask(p);
    hide CreateGraphCommand.Valid;
  }

  lemma DecidedFive(p: Progress, p': Progress, d: Decision)
    requires d.Routable? && Undecided(p) && ComesFrom(p, d) && p' == p.(decided := p'.decided) && FirstFive(p, d.move, p'.decided)
    ensures p'.(decided := []) == p && ComesFrom(p', d) && FirstFive(p', d.move, p'.decided) && p'.running == p.running
    ensures p'.manifest == p.manifest
  {
    hide KindName;
  }

  lemma IsEstablished(p0: Progress, p: Progress, conversation: Conversation, user: Message, running: Run, m: ContextManifest,
                      es: seq<TraceEvent>, d: Decision, move: Gateway.RevalidatedMove, owner: string, input: ModelInput,
                      output: ModelOutput)
    requires hide *; d.Routable? && p0 == InitialProgress(conversation, user, running, m, es, d) && p == p0.(decided := p.decided)
    requires OpenedWith(running.runId, user, m, es) && p0.RunningOk() && p0.Creation().Valid()
    requires DecidedWith(running.runId, m, p.record, p.delta, p.binding, p.unit, p.requested, p.decided)
    requires Some(move) == Gateway.Revalidate(d, d.graph.task, d.graph.unit, d.graph.binding) && move.Valid()
    requires d.move.base.None? && d.move.kind.CallTool?
    ensures Established(p, conversation, user, running, m, d, move)
  {
    hide OpenedWith, DecidedWith, Progress.RunningOk, Progress.Creation, CreateGraphCommand.Valid, Gateway.Revalidate,
      Gateway.RevalidatedMove.Valid, Progress.Ok;
    EstablishedComes(conversation, user, running, m, es, d);
    MoveIs(p0, d, move);
    EstablishedOk(p0, p);
  }

  lemma EstablishedComes(conversation: Conversation, user: Message, running: Run, m: ContextManifest, es: seq<TraceEvent>, d: Decision)
    requires d.Routable?
    ensures ComesFrom(InitialProgress(conversation, user, running, m, es, d), d)
  {
  }

  lemma EstablishedOk(p0: Progress, p: Progress)
    requires p == p0.(decided := p.decided) && p0.hook.None? && p0.gate.None? && p0.tool.None? && p0.found.None?
    requires OpenedWith(p.running.runId, p.user, p.manifest, p.opening) && p0.RunningOk() && p0.Creation().Valid()
    requires DecidedWith(p.running.runId, p.manifest, p.record, p.delta, p.binding, p.unit, p.requested, p.decided)
    ensures p.Ok() && NothingGated(p)
  {
    hide OpenedWith, DecidedWith, CreateGraphCommand.Valid;
  }

  // ----- A routable decision, carried through -----

  // The query asks for the authenticated customer and for an identifier that the
  // candidate, the model's argument and the user's own text agree on.
  ghost predicate QuerySound(q: Integrity.OrderQuery, owner: string, text: string, output: ModelOutput) {
    && OrderId.IsOrderId(q.orderId) && q.customerId == owner && Integrity.WrittenIn(text, q.orderId)
    && |output.candidates| == 1 && |output.candidates[0].inputs| == 1
    && OrderId.Names(output.candidates[0].inputs[0].value, q.orderId)
    && output.move.arguments.Some? && output.move.arguments.value.Keys == {"order_id"}
    && output.move.arguments.value["order_id"].JsonText?
    && OrderId.Names(output.move.arguments.value["order_id"].text, q.orderId)
  }

  ghost predicate AskedSoundly(before: seq<Integrity.OrderQuery>, after: seq<Integrity.OrderQuery>, owner: string, text: string,
                               output: ModelOutput)
  {
    after == before || exists q :: after == before + [q] && QuerySound(q, owner, text, output)
  }

  lemma BegunOwner(owner: string, conversation: Conversation, user: Message, running: Run, now: Time)
    requires BegunWith(owner, user.content, conversation, user, running, now)
    ensures conversation.owner == owner && running.status.RunRunning?
  {
  }

  lemma NothingAsked(asked: seq<Integrity.OrderQuery>, owner: string, text: string, output: ModelOutput)
    ensures AskedSoundly(asked, asked, owner, text, output)
  {
  }

  // The work of the turn is on the graph the reducer decided.
  predicate WorksOut(w: Work, d: Decision)
    requires d.Routable?
  {
    w.record == d.closure.record && w.delta == d.graph.delta && w.binding == d.graph.binding && w.task == d.graph.task
    && w.unit == d.graph.unit
  }

  lemma WorkedOut(p: Progress, t: Turn, d: Decision)
    requires d.Routable? && ComesFrom(p, d) && Worked(p, t)
    ensures WorksOut(t.work.value, d) && t.work.value.hook == p.hook && t.conversation == p.conversation && t.user == p.user
  {
  }

  lemma EstablishedParts(p: Progress, conversation: Conversation, user: Message, running: Run, m: ContextManifest, d: Decision,
                         move: Gateway.RevalidatedMove, now: Time)
    requires d.Routable? && Established(p, conversation, user, running, m, d, move) && d.closure.record.createdAt <= now
    ensures p.Ok() && NothingGated(p) && p.running == running && d.graph.task == p.task && d.graph.unit == p.unit
    ensures p.record.createdAt <= now && p.ActiveLink() == RunTaskLink(running.runId, p.task.taskId, None, None)
    ensures Some(move) == Gateway.Revalidate(d, d.graph.task, d.graph.unit, d.graph.binding) && ComesFrom(p, d)
    ensures d.move.kind.CallTool? && p.conversation == conversation && p.user == user
  {
    hide Progress.Ok, Gateway.Revalidate, MoveFits;
  }

  lemma HookedActable(p: Progress, p': Progress, snapshot: Gateway.Snapshot, conversation: Conversation, user: Message,
                      running: Run, m: ContextManifest, d: Decision, move: Gateway.RevalidatedMove, link: RunTaskLink,
                      owner: string, now: Time, nextId: Id)
    requires hide *; d.Routable? && Established(p, conversation, user, running, m, d, move) && p' == p.(hook := p'.hook)
    requires link == RunTaskLink(running.runId, d.graph.task.taskId, None, None)
    requires BegunWith(owner, user.content, conversation, user, running, now) || running.startedAt <= now
    requires d.closure.record.createdAt <= now && running.startedAt <= d.closure.record.createdAt
    requires m.registryVersion == snapshot.version && m.toolsetHash == snapshot.hash && m.manifestId < nextId
    ensures Actable(p', snapshot, m, conversation, user, d.graph.task, d.graph.unit, d.graph.binding, link, now, nextId)
    ensures MoveFits(p', move) && p'.running == running && ComesFrom(p', d)
  {
    hide Progress.Ok, Gateway.Revalidate, Gateway.RevalidatedMove.Valid;
  }

  lemma ActedCursor(p: Progress, after: Option<Task>)
    requires p.Ok() && TaskCursor(Some(p.task), after, p.task.taskId)
    ensures CursorOk(Some(p.ActiveLink()), after, p.running.runId)
  {
    OkParts(p);
    CreatedTask(p);
    hide Progress.Ok;
  }

  // The one query of the turn follows from an accepted gate, so it is sound.
  lemma AskedOnce(before: seq<Integrity.OrderQuery>, after: seq<Integrity.OrderQuery>, input: ModelInput, user: Message,
                  owner: string, output: ModelOutput, d: Decision, move: Gateway.RevalidatedMove, snapshot: Gateway.Snapshot,
                  m: ContextManifest)
    requires DecidedFrom(input, user, owner, output, d) && input.query == user.content && input.messageRef == user.messageId
    requires Some(move) == Gateway.Revalidate(d, d.graph.task, d.graph.unit, d.graph.binding)
    requires AskedAtMostOnce(before, after, owner, d.graph.binding)
    requires after != before ==> LetThrough(move, owner, d.graph.binding, snapshot, m)
    ensures AskedSoundly(before, after, owner, user.content, output)
  {
    if after != before {
      var q := Integrity.OrderQuery(owner, d.graph.binding.orderId);
      QueryIsSound(input, user, owner, output, d, move, snapshot, m, q);
      hide QuerySound, DecidedFrom, LetThrough, Gateway.Revalidate;
      assert after == before + [q] && QuerySound(q, owner, user.content, output);
    }
  }

  lemma QueryIsSound(input: ModelInput, user: Message, owner: string, output: ModelOutput, d: Decision,
                     move: Gateway.RevalidatedMove, snapshot: Gateway.Snapshot, m: ContextManifest, q: Integrity.OrderQuery)
    requires DecidedFrom(input, user, owner, output, d) && input.query == user.content
    requires Some(move) == Gateway.Revalidate(d, d.graph.task, d.graph.unit, d.graph.binding)
    requires LetThrough(move, owner, d.graph.binding, snapshot, m) && q == Integrity.OrderQuery(owner, d.graph.binding.orderId)
    ensures QuerySound(q, owner, user.content, output)
  {
    hide Provenance, ModelOutput.Valid, Graphs, Decision.Valid, ClosureOf, DecisionOf, Gateway.Revalidate, Gateway.Evaluate,
      OrderId.Normalize, OrderId.IsOrderId, OrderId.Names, Integrity.WrittenIn;
    var ids: Allocations, recordId: Id, moveRef: Id, now: Time :|
      ReducedTo(input, user, owner, output, ids, recordId, moveRef, now, d);
    var gateId: Id, task: Task, unit: RequestUnit, at: Time :|
      Gateway.Evaluate(gateId, move, owner, task, unit, d.graph.binding, snapshot, m, m.modelCallId,
                       Gateway.Budget(0, 1), true, at).accepted;
    Integrity.ArgumentIntegrity(input, output, Authoritative(user), ids, owner, recordId, moveRef, now, d, gateId, task, unit,
                                snapshot, m, m.modelCallId, Gateway.Budget(0, 1), true, at, q);
  }

  // ----- The whole turn -----

  predicate RunCursor(running: Option<Run>, runId: Id, now: Time) {
    running.Some? ==>
      && running.value.runId == runId && running.value.Valid() && running.value.status.RunRunning?
      && running.value.incompleteReason.None? && running.value.startedAt <= now
  }

  ghost predicate AskedInTurn(before: seq<Integrity.OrderQuery>, after: seq<Integrity.OrderQuery>, owner: string, text: string,
                              proposed: Proposed)
  {
    after == before || (proposed.Proposal? && AskedSoundly(before, after, owner, text, proposed.output))
  }

  // Why the turn stopped where it did: the table from what its partners came back with.
  ghost predicate Explained(t: Turn, owner: string, text: string, proposed: Proposed, hook: bool, reply: OrderReply,
                            planned: Planned)
  {
    && t.conversation.owner == owner && t.user.content == text
    && var input := ModelInput(t.terminal.runId, t.user.messageId, text, []);
       match t.work
       case None =>
         if proposed.ProtocolFailure? then Told(t, ProviderProtocolError, None, OutcomeBlocked, "request cannot be completed")
         else && Told(t, InputInvalid, None, OutcomeBlocked, "request cannot be completed")
              && (proposed.CandidateInvalid? || (proposed.Proposal? && !Provenance(input, proposed.output, Authoritative(t.user))))
       case Some(w) =>
         && proposed.Proposal? && (w.hook.Some? <==> hook) && Acted(t, reply, planned)
         && exists d :: DecidedFrom(input, t.user, owner, proposed.output, d) && WorksOut(w, d)
  }

  // Partners with whom an undisturbed turn comes to a result.
  ghost predicate Cooperative(proposed: Proposed, hook: bool, snapshot: Gateway.Snapshot, reply: OrderReply, planned: Planned,
                              bound: Id)
  {
    match proposed
    case CandidateInvalid => true
    case ProtocolFailure => true
    case ProposalRaises(_) => false
    case Proposal(output) =>
      && (forall c :: c in output.candidates ==> c.candidateId < bound)
      && |output.candidates| == 1 && Acceptable(output, output.candidates[0]) && output.move.kind.CallTool?
      && (hook || (SoundPolicy(snapshot) && ReplyEndsTurn(reply, planned)))
  }

  predicate InTime(budgetMs: int, start: Time, end: Time) { 1000 <= budgetMs * 1000 - (end - start) }

  lemma CooperativeParts(proposed: Proposed, hook: bool, snapshot: Gateway.Snapshot, reply: OrderReply, planned: Planned, bound: Id,
                         running: Run, budgetMs: int)
    requires Cooperative(proposed, hook, snapshot, reply, planned, bound)
    ensures !proposed.ProposalRaises?
    ensures proposed.Proposal? ==>
              && proposed.output.move.kind.CallTool?
              && (forall input, user, later :: bound <= later ==> !Unroutable(input, user, proposed.output, later))
              && forall now :: WithinBudget(running, budgetMs, now) ==> hook || Completes(snapshot, running, budgetMs, reply, planned, now)
  {
    hide SoundPolicy, ReplyEndsTurn, Acceptable, Provenance;
  }

  lemma CooperativeLater(proposed: Proposed, hook: bool, snapshot: Gateway.Snapshot, reply: OrderReply, planned: Planned,
                         bound: Id, later: Id)
    requires bound <= later
    ensures Cooperative(proposed, hook, snapshot, reply, planned, bound) ==> Cooperative(proposed, hook, snapshot, reply, planned, later)
  {
    hide SoundPolicy, ReplyEndsTurn, Acceptable;
  }

  lemma BudgetLeft(running: Run, budgetMs: int, start: Time, end: Time)
    requires start <= end
    ensures InTime(budgetMs, start, end) && start <= running.startedAt ==> WithinBudget(running, budgetMs, end)
  {
  }

  lemma OpenStarts(owner: string, conversation: Conversation, running: Run, user: Message, m: ContextManifest,
                   es: seq<TraceEvent>, now: Time)
    requires BegunWith(owner, user.content, conversation, user, running, now)
    ensures Unfinished(OpenGraph(conversation, running, user, m, es)) && conversation.owner == owner
    ensures running.startedAt <= now
    ensures CursorOk(None, None, running.runId)
  {
  }

  lemma OpenLater(owner: string, conversation: Conversation, user: Message, running: Run, now: Time)
    ensures BegunWith(owner, user.content, conversation, user, running, now) ==>
              forall later: Time :: now <= later ==> BegunWith(owner, user.content, conversation, user, running, later)
  {
  }

  lemma NothingAskedYet(asked: seq<Integrity.OrderQuery>, owner: string, text: string, proposed: Proposed, runId: Id)
    ensures AskedInTurn(asked, asked, owner, text, proposed)
  {
  }

  lemma AskedWithin(before: seq<Integrity.OrderQuery>, after: seq<Integrity.OrderQuery>, owner: string, text: string,
                    proposed: Proposed)
    requires proposed.Proposal? && AskedSoundly(before, after, owner, text, proposed.output)
    ensures AskedInTurn(before, after, owner, text, proposed)
  {
    hide AskedSoundly;
  }

  lemma BegunCursor(owner: string, text: string, conversation: Conversation, user: Message, running: Run, now: Time)
    requires BegunWith(owner, text, conversation, user, running, now)
    ensures user.content == text && CursorOk(None, None, running.runId) && running.status.RunRunning? && running.startedAt <= now
    ensures forall later: Time :: now <= later ==> RunCursor(Some(running), running.runId, later)
    ensures forall later: Time :: now <= later ==> BegunWith(owner, user.content, conversation, user, running, later)
    ensures forall id, at :: RunCursor(None, id, at)
  {
  }

  lemma EndedRun(g: RunGraph, t: Turn, result: AgentRunResult)
    requires EndedSomehow(g, t, result)
    ensures t.terminal == g.run && t.terminal.runId == result.runId
  {
    var reason :| Ended(g, t, result, reason);
    assert t.Graph().run == t.terminal by { TurnRun(t); }
    hide TurnOk, Turn.Graph;
  }

  lemma TurnRun(t: Turn)
    ensures t.Graph().run == t.terminal
  {
    hide Turn.Trace;
  }

  lemma BareExplained(t: Turn, g: RunGraph, result: AgentRunResult, reason: StopReason, conversation: Conversation, user: Message,
                      running: Run, proposed: Proposed, hook: bool, reply: OrderReply, planned: Planned)
    requires Ended(g, t, result, reason) && t.work.None? && t.conversation == conversation && t.user == user
    requires result.runId == running.runId && MapResult(running.runId, reason, None) == Some(result)
    requires match proposed
             case ProtocolFailure => reason.ProviderProtocolError?
             case CandidateInvalid => reason.InputInvalid?
             case Proposal(output) =>
               reason.InputInvalid?
               && !Provenance(ModelInput(running.runId, user.messageId, user.content, []), output, Authoritative(user))
             case ProposalRaises(_) => false
    ensures EndedSomehow(g, t, result) && MovedAfterPresentation(t) && FinishedTurn(g)
    ensures Explained(t, conversation.owner, user.content, proposed, hook, reply, planned)
  {
    hide TurnOk, Turn.Graph, Provenance, Ended, FinishedTurn;
    EndedFacts(g, t, result, reason);
    EndedIsFinished(g, t, result);
  }

  lemma EndedIsFinished(g: RunGraph, t: Turn, result: AgentRunResult)
    requires EndedSomehow(g, t, result)
    ensures FinishedTurn(g)
  {
    hide TurnOk, Turn.Graph;
  }

  lemma WorkExplained(t: Turn, g: RunGraph, result: AgentRunResult, conversation: Conversation, user: Message, running: Run,
                      proposed: Proposed, hook: bool, reply: OrderReply, planned: Planned, d: Decision, input: ModelInput)
    requires hide *; EndedSomehow(g, t, result) && t.conversation == conversation && t.user == user && g.run.runId == running.runId
    requires input == ModelInput(running.runId, user.messageId, user.content, []) && proposed.Proposal?
    requires DecidedFrom(input, user, conversation.owner, proposed.output, d) && d.Routable?
    requires t.work.Some? && WorksOut(t.work.value, d) && (t.work.value.hook.Some? <==> hook) && Acted(t, reply, planned)
    ensures Explained(t, conversation.owner, user.content, proposed, hook, reply, planned) && FinishedTurn(g)
  {
    hide FinishedTurn, EndedSomehow, DecidedFrom, WorksOut, Acted, Provenance;
    EndedRun(g, t, result);
    EndedIsFinished(g, t, result);
    assert DecidedFrom(input, user, conversation.owner, proposed.output, d) && WorksOut(t.work.value, d);
  }

  // ----- Exceptional closure -----

  // Nobody but recovery touched the Run, and only while it was active.
  predicate KeptUnlessClaimed(g: RunGraph, g': RunGraph) { g' == g || (g.run.Active() && Claimed(g')) }

  // A Run that had ended is as it was; one that had not has failed, been claimed or been left alone.
  predicate ClosedOrKept(g: RunGraph, g': RunGraph) {
    g' == g || (g.run.Active() && !g'.run.status.RunCompleted? && !g'.run.status.RunCreated?)
  }

  lemma KeptIsClosedOrKept(g: RunGraph)
    ensures ClosedOrKept(g, g)
  {
  }

  // The cursor is exactly what the store holds of the running Run.
  predicate Closable(g: RunGraph, running: Option<Run>, link: Option<RunTaskLink>, task: Option<Task>, owner: Option<string>) {
    && running == Some(g.run) && NoActiveCall(g) && owner == Some(g.conversation.owner)
    && (link.Some? <==> task.Some?)
    && (match link
        case None => g.links == map[]
        case Some(l) => task.value.taskId == l.taskId && g.links == map[l.taskId := l] && l.taskId in g.tasks)
  }

  // The local cursor names the Run, its owner and its one Task, as the store has them.
  predicate StateFits(c: Cursor, running: Option<Run>, link: Option<RunTaskLink>, task: Option<Task>, owner: Option<string>) {
    && running == Some(c.run) && owner == Some(c.owner) && (link.Some? <==> task.Some?)
    && (match link
        case None => c.links == map[]
        case Some(l) => task.value.taskId == l.taskId && c.links == map[l.taskId := l] && l.taskId in c.tasks)
  }

  lemma FitsCloses(g: RunGraph, running: Option<Run>, link: Option<RunTaskLink>, task: Option<Task>, owner: Option<string>)
    requires StateFits(CursorOf(g), running, link, task, owner)
    ensures Closable(g, running, link, task, owner) <==> CursorOf(g).open == {}
    ensures CursorOf(g).open != {} ==> !NoActiveCall(g)
  {
    if CursorOf(g).open != {} {
      var k :| k in CursorOf(g).open;
    }
    if CursorOf(g).open == {} {
      forall k | k in g.calls ensures !g.calls[k].status.Active() { assert k !in CursorOf(g).open; }
    }
  }

  lemma FitsRuns(g: RunGraph, running: Option<Run>, link: Option<RunTaskLink>, task: Option<Task>, owner: Option<string>,
                 runId: Id, now: Time)
    requires StateFits(CursorOf(g), running, link, task, owner) && RunCursor(running, runId, now)
    ensures g.run.status.RunRunning?
  {
  }

  lemma OpenRefuses(g: RunGraph, c: FinalizeRunCommand)
    requires CursorOf(g).open != {}
    ensures !Lands(g, Finalize(c))
  {
    hide LinksMatch, TransitMatches, FinalizeRunCommand.Valid;
    var k :| k in CursorOf(g).open;
  }

  // What the first two writes leave of the cursor.
  lemma InsertedFits(conversation: Conversation, running: Run, user: Message)
    ensures var c := CursorOf(Inserted(conversation, running, user));
            StateFits(c, Some(running), None, None, Some(conversation.owner)) && c.open == {}
  {
  }

  lemma CreatedFits(p: Progress)
    requires p.tool.None?
    ensures var c := CursorOf(p.Graph());
            StateFits(c, Some(p.running), Some(p.ActiveLink()), Some(p.task), Some(p.conversation.owner)) && c.open == {}
  {
    hide Progress.Trace, Progress.Manifests, Progress.Observations, Progress.Sources, Progress.Gates, Progress.Transitions,
      Progress.Current;
  }

  // After the call and a newer state of the same Task the cursor still fits.
  lemma LeftFits(before: Cursor, after: Cursor, running: Option<Run>, link: Option<RunTaskLink>, task: Task,
                 now: Option<Task>, owner: Option<string>, asked: bool, reply: OrderReply)
    requires StateFits(before, running, link, Some(task), owner) && before.open == {}
    requires CallLeft(before, after, asked, reply) && TaskCursor(Some(task), now, task.taskId)
    ensures StateFits(after, running, link, now, owner)
    ensures after.open == {} <==> !(asked && reply == OrderRaises(Exception))
  {
  }

  lemma NotClosable(g: RunGraph, running: Option<Run>, link: Option<RunTaskLink>, task: Option<Task>, owner: Option<string>)
    requires running.None? || link.Some? != task.Some?
    ensures !Closable(g, running, link, task, owner)
  {
  }

  lemma FailureIsValid(c: FinalizeRunCommand, running: Option<Run>, link: Option<RunTaskLink>, task: Option<Task>, runId: Id,
                       now: Time, at: Time)
    requires running.Some? && RunCursor(running, runId, now) && now <= at && CursorOk(link, task, runId)
    requires link.Some? <==> task.Some?
    requires c == FinalizeRunCommand(
                    running.value,
                    running.value.(status := RunFailed, completedAt := Some(at), stopReason := None),
                    if link.Some? then [link.value] else [],
                    if link.Some? then [link.value.(result := Some(task.value.version))] else [],
                    if link.Some? then [task.value] else [], None, None, None, [])
    ensures c.Valid()
  {
    if link.Some? {
      assert LinkTasks(c.expectedLinks) == {link.value.taskId} == LinkTasks(c.terminalLinks);
      assert (set t | t in c.resultTasks :: t.taskId) == {task.value.taskId};
    } else {
      assert LinkTasks([]) == {};
    }
  }

  lemma FailureIsSendable(g: RunGraph, c: FinalizeRunCommand)
    requires c.Valid() && c.terminal.status.RunFailed?
    ensures Sendable(g, Finalize(c)) && NeedsActive(Finalize(c)) && c.expected.status.RunRunning?
    ensures Lands(g, Finalize(c)) ==> g.run == c.expected && ApplyWrite(g, Finalize(c)).run.status.RunFailed?
                                      && Written(g, Finalize(c)) == ApplyWrite(g, Finalize(c))
    ensures !Lands(g, Finalize(c)) ==> ApplyWrite(g, Finalize(c)) == g
  {
    hide FinalizeRunCommand.LinksClose, FinalizeRunCommand.TasksClose, FinalizeRunCommand.CompletedIsWhole, LinksMatch,
      NoActiveCall, OverwriteLinks;
  }

  lemma FailureCloses(g0: RunGraph, g1: RunGraph, g: RunGraph, c: FinalizeRunCommand)
    requires KeptUnlessClaimed(g0, g1) && c.expected.status.RunRunning?
    requires Lands(g1, Finalize(c)) ==> g1.run == c.expected && ApplyWrite(g1, Finalize(c)).run.status.RunFailed?
    requires !Lands(g1, Finalize(c)) ==> ApplyWrite(g1, Finalize(c)) == g1
    requires g == g1 || g == ApplyWrite(g1, Finalize(c)) || (Claimed(g) && g1.run.Active())
    ensures ClosedOrKept(g0, g)
  {
    hide Lands, ApplyWrite;
  }

  // What the closure of a failed Run writes applies to exactly what the cursor names.
  lemma FailureLands(g: RunGraph, running: Option<Run>, link: Option<RunTaskLink>, before: Option<Task>, task: Option<Task>,
                     owner: Option<string>, c: FinalizeRunCommand)
    requires Closable(g, running, link, before, owner) && c.expected == g.run && c.transition.None? && c.message.None? && c.events == []
    requires c.expectedLinks == if link.Some? then [link.value] else []
    requires link.Some? ==> task.Some?
    requires c.resultTasks == if link.Some? then [task.value] else []
    requires link.Some? ==> link.value.taskId in g.tasks && task == Some(g.tasks[link.value.taskId]) && task.value.taskId == link.value.taskId
    ensures Lands(g, Finalize(c))
  {
    hide NoActiveCall;
    if link.Some? {
      assert LinkTasks([link.value]) == {link.value.taskId};
    } else {
      assert LinkTasks([]) == {};
    }
  }

  // A completed Run is a finished turn.
  ghost predicate CompletedIsFinished(g: RunGraph) { g.run.status.RunCompleted? ==> FinishedTurn(g) }

  lemma FinishedStays(g: RunGraph)
    requires Unfinished(g) || FinishedTurn(g)
    ensures CompletedIsFinished(g)
  {
    hide FinishedTurn;
  }

  lemma ClosedIsFinished(g: RunGraph, g': RunGraph)
    requires CompletedIsFinished(g) && ClosedOrKept(g, g')
    ensures CompletedIsFinished(g')
  {
    hide FinishedTurn;
  }

  lemma InTimeEarlier(budgetMs: int, start: Time, end: Time)
    ensures forall later: Time :: end <= later && InTime(budgetMs, start, later) ==> InTime(budgetMs, start, end)
  {
  }
}
