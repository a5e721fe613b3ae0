// One turn of the agent: from the user's message to a finished Run, with every
// await free to fail.

module RunService {
  import opened Records
  import opened Understanding
  import opened Commands
  import opened RunStore
  import opened Protocol
  import opened Reachable
  import opened Host
  import opened RuntimePort
  import opened RunClient
  import opened Proposals
  import opened Reducer
  import opened ReduceRequest
  import opened Turns
  import opened TurnProgress
  import opened ReadExecutor
  import opened RunSteps
  import Gateway
  import Integrity

  // Local cursor for exceptional closure and the terminal commit point.
  class FailureState {
    var running: Option<Run>
    var link: Option<RunTaskLink>
    var task: Option<Task>
    var owner: Option<string>
    var committed: Option<AgentRunResult>

    constructor ()
      ensures running.None? && link.None? && task.None? && owner.None? && committed.None?
    {
      running, link, task, owner, committed := None, None, None, None, None;
    }
  }

  class AgentRunService {
    const store: RuntimeStore
    const host: Host
    const executor: ReadToolExecutor
    const snapshot: Gateway.Snapshot
    const lane: string
    const budgetMs: int
    // True when the one-step fault hook is installed.
    const hook: bool
    const proposed: Proposed
    const planned: Planned

    constructor (store: RuntimeStore, host: Host, executor: ReadToolExecutor, snapshot: Gateway.Snapshot, lane: string,
                 budgetMs: int, hook: bool, proposed: Proposed, planned: Planned)
      requires executor.host == host && 0 < budgetMs
      ensures this.store == store && this.host == host && this.executor == executor && this.snapshot == snapshot
      ensures this.lane == lane && this.budgetMs == budgetMs && this.hook == hook
      ensures this.proposed == proposed && this.planned == planned
    {
      this.store, this.host, this.executor, this.snapshot := store, host, executor, snapshot;
      this.lane, this.budgetMs, this.hook, this.proposed, this.planned := lane, budgetMs, hook, proposed, planned;
    }

    ghost predicate Holds(client: RunClient)
      reads client, store
    {
      client.store == store && client.host == host && client.Valid()
    }

    // In a calm store the state names what the store holds, and a call is open exactly
    // when the order service broke off.
    ghost predicate Stopped(client: RunClient, state: FailureState, asked: seq<Integrity.OrderQuery>)
      reads client, state, executor.port
    {
      store.AlwaysCalm() ==>
        && StateFits(client.cursor, state.running, state.link, state.task, state.owner)
        && (client.cursor.open == {} <==> !(executor.port.asked != asked && executor.port.reply == OrderRaises(Exception)))
    }

    // In a calm store the gate of a built registry lets the move through exactly when no
    // fault hook is installed, get_order is offered, and the model asks for the very order
    // its candidate names.
    ghost predicate LetPass(t: Turn) {
      store.AlwaysCalm() && Gateway.Built(snapshot) && proposed.Proposal? && t.work.Some? ==>
        (t.work.value.gate.accepted <==> !hook && Gateway.Offers(snapshot) && AsksAsNamed(proposed.output))
    }

    ghost predicate Left(before: Cursor, after: Cursor, asked: seq<Integrity.OrderQuery>)
      reads executor.port
    {
      store.AlwaysCalm() ==> CallLeft(before, after, executor.port.asked != asked, executor.port.reply)
    }

    // The awaits before the Run exists; they leave the Runs alone.
    method Prepare(conversationId: Id) returns (r: Awaited<()>)
      requires hide *; store.Valid()
      modifies store
      ensures store.Valid() && old(store.past) <= store.past
      ensures store.AlwaysCalm() ==> r.Answer? && store.world == old(store.world)
    {
      hide RuntimeStore.AlwaysCalm, CursorOf, Held, History, Allowed;
      var stored :- store.Pause(conversationId);
      var resolved :- store.Pause(conversationId);
      var saved :- store.Pause(conversationId);
      var appended :- store.Pause(conversationId);
      r := store.Pause(conversationId);
    }

    // The Conversation, the Message and the Run, which is then set RUNNING.
    method Begin(owner: string, text: string, state: FailureState)
      returns (r: Awaited<(RunClient, Conversation, Message, Run)>)
      requires hide *; store.Valid() && state.running.None? && state.committed.None? && state.link.None? && state.task.None?
      modifies store, host, state
      ensures store.Valid() && old(store.past) <= store.past
      ensures old(host.now) <= host.now && old(host.nextId) <= host.nextId
      ensures state.committed.None? && state.link.None? && state.task.None?
      ensures r.Raised? ==> state.running.None?
      ensures r.Answer? ==>
                var (client, conversation, user, running) := r.value;
                && fresh(client) && Holds(client) && client.id == running.runId
                && client.g == Inserted(conversation, running, user)
                && BegunWith(owner, text, conversation, user, running, host.now) && old(host.now) <= running.startedAt
                && running.lane == lane
                && state.running == Some(running) && state.owner == Some(owner)
                && StateFits(client.cursor, state.running, state.link, state.task, state.owner) && client.cursor.open == {}
      ensures old(store.AlwaysCalm() && forall k :: k in store.world ==> k < host.nextId) ==>
                r.Answer? && r.value.0.Calm()
    {
      hide RunClient.Valid, RuntimeStore.AlwaysCalm, CursorOf, RuntimeStore.Valid, Held, Claimed, IdsBelow;
      state.owner := Some(owner);
      var now := host.Clock();
      var conversationId := host.Uuid();
      var messageId := host.Uuid();
      var conversation := Conversation(conversationId, owner);
      var user := Message(messageId, conversationId, FromUser, text, now);
      var prepared :- Prepare(conversationId);
      var runId := host.Uuid();
      var created := Run(runId, Some(conversationId), RunCreated, lane, now, None, None, None);
      var client :- InsertRunning(conversation, user, created);
      var running := created.(status := RunRunning);
      state.running := Some(running);
      InsertedFits(conversation, running, user);
      return Answer((client, conversation, user, running));
    }

    // The new Run, inserted and set RUNNING.
    method InsertRunning(conversation: Conversation, user: Message, created: Run) returns (r: Awaited<RunClient>)
      requires hide *; store.Valid() && CreateRunCommand(created).Valid() && created.conversationId == Some(conversation.conversationId)
      modifies store
      ensures store.Valid() && old(store.past) <= store.past
      ensures r.Answer? ==>
                && fresh(r.value) && Holds(r.value) && r.value.id == created.runId
                && r.value.g == Inserted(conversation, created.(status := RunRunning), user)
                && r.value.cursor == CursorOf(r.value.g)
      ensures old(store.AlwaysCalm() && created.runId !in store.world) && user.messageId < host.nextId ==>
                r.Answer? && r.value.Calm()
    {
      hide RuntimeStore.AlwaysCalm, CursorOf, RuntimeStore.Valid, Held, Claimed, Sendable, Lands, ApplyWrite, Written,
        IdsBelow;
      var inserted :- store.InsertRun(conversation, user, created);
      if !inserted { return Raised(Exception); }
      var client := new RunClient(store, host, created.runId);
      var running := created.(status := RunRunning);
      StartIsSendable(conversation, user, created, running, host.nextId);
      var started :- client.Move(Start(StartRunCommand(created, running)));
      if !started { return Raised(Exception); }
      return Answer(client);
    }

    // The context of one model call, recorded before the call is made.
    method SaveManifest(client: RunClient, modelCallId: Id, purpose: string, messageId: Id, taskRef: Option<(Id, nat)>,
                        observationRefs: seq<(Id, string)>) returns (r: Awaited<(ContextManifest, TraceEvent)>)
      requires hide *; Holds(client) && Unfinished(client.g)
      modifies client`g, store, host
      ensures Holds(client) && old(store.past) <= store.past
      ensures old(host.now) <= host.now && old(host.nextId) <= host.nextId
      ensures r.Answer? ==>
                var (m, e) := r.value;
                && m == ContextManifest(m.manifestId, client.id, modelCallId, snapshot.version, snapshot.hash, [messageId],
                                        taskRef, observationRefs, m.assembledAt)
                && old(host.nextId) <= m.manifestId < host.nextId
                && old(host.now) <= m.assembledAt <= host.now && (host.strict ==> old(host.now) < m.assembledAt)
                && e == ManifestEvent(e.eventId, e.at, m, purpose)
                && client.g == AppendWrites(AuditWrites(old(client.g), old(client.g).manifests[m.manifestId := m], old(client.g).gates), e)
      ensures r.Raised? ==> client.Current() && Unfinished(client.g)
      ensures old(client.Calm()) ==> r.Answer? && client.Calm()
    {
      hide RuntimeStore.AlwaysCalm, CursorOf, Held, Claimed, IdsBelow, Unfinished, History, Allowed, Lands, ApplyWrite,
        Written, Sendable, NeedsActive;
      var manifestId := host.Uuid();
      var assembledAt := host.Clock();
      var m := ContextManifest(manifestId, client.id, modelCallId, snapshot.version, snapshot.hash, [messageId], taskRef,
                               observationRefs, assembledAt);
      ManifestIsSendable(client.g, m, old(host.nextId), host.nextId);
      var saved :- client.Submit(Write.SaveManifest(m));
      if !saved { return Raised(Exception); }
      var e :- client.AppendTrace(ManifestEvent(0, 0, m, purpose), None);
      return Answer((m, e));
    }

    // The message is accepted, the Run has started, and the first model call is about to be made.
    method AppendOpening(client: RunClient, messageId: Id) returns (r: Awaited<(Id, TraceEvent, TraceEvent, TraceEvent)>)
      requires hide *; Holds(client) && Unfinished(client.g)
      modifies client`g, store, host
      ensures Holds(client) && old(store.past) <= store.past
      ensures old(host.now) <= host.now && old(host.nextId) <= host.nextId
      ensures r.Answer? ==>
                var (modelCallId, a, b, c) := r.value;
                && a == MessageAcceptedEvent(0, 0, client.id, messageId).(eventId := a.eventId, at := a.at)
                && b == RunStartedEvent(0, 0, client.id).(eventId := b.eventId, at := b.at)
                && c == UnderstandingStartedEvent(0, 0, client.id, messageId, modelCallId).(eventId := c.eventId, at := c.at)
                && client.g == AppendWrites(AppendWrites(AppendWrites(old(client.g), a), b), c) && Unfinished(client.g)
      ensures r.Raised? ==> client.Current() && Unfinished(client.g)
      ensures old(client.Calm()) ==> r.Answer? && client.Calm()
    {
      hide RuntimeStore.AlwaysCalm, CursorOf, Held, Claimed, IdsBelow, AppendWrites, RuntimeStore.Valid,
        MessageAcceptedEvent, RunStartedEvent, UnderstandingStartedEvent, TraceEvent.Valid;
      OpeningShapes(client.id, messageId);
      AppendsKeepRun();
      var a :- client.AppendTrace(MessageAcceptedEvent(0, 0, client.id, messageId), None);
      var b :- client.AppendTrace(RunStartedEvent(0, 0, client.id), None);
      var modelCallId := host.Uuid();
      BelowGrows(client.g, modelCallId, host.nextId);
      var c :- client.AppendTrace(UnderstandingStartedEvent(0, 0, client.id, messageId, modelCallId), None);
      return Answer((modelCallId, a, b, c));
    }

    // The trace and the manifest that precede the first model call.
    method Announce(client: RunClient, conversation: Conversation, user: Message, running: Run)
      returns (r: Awaited<ContextManifest>, ghost es: seq<TraceEvent>)
      requires hide *; Holds(client) && client.g == Inserted(conversation, running, user) && running.runId == client.id
      requires running.status.RunRunning?
      modifies client`g, store, host
      ensures Holds(client) && old(store.past) <= store.past
      ensures old(host.now) <= host.now && old(host.nextId) <= host.nextId
      ensures r.Answer? ==>
                var m := r.value;
                && client.g == OpenGraph(conversation, running, user, m, es) && OpenedWith(running.runId, user, m, es)
                && m.registryVersion == snapshot.version && m.toolsetHash == snapshot.hash && m.manifestId < host.nextId
      ensures r.Raised? ==> client.Current() && Unfinished(client.g)
      ensures old(client.Calm()) ==> r.Answer? && client.Calm()
    {
      hide RuntimeStore.AlwaysCalm, CursorOf, Held, Claimed, IdsBelow, AppendWrites, AuditWrites, Inserted, OpenGraph,
        OpenedWith, MessageAcceptedEvent, RunStartedEvent, UnderstandingStartedEvent, ManifestEvent,
        RuntimeStore.Valid;
      es := [];
      InsertedRun(conversation, running, user);
      RunningIsUnfinished(client.g);
      var opening :- AppendOpening(client, user.messageId);
      var (modelCallId, a, b, c) := opening;
      var recorded :- SaveManifest(client, modelCallId, "REQUEST_UNDERSTANDING", user.messageId, None, []);
      Opened(conversation, running, user, recorded.0, a, b, c, recorded.1);
      es := [a, b, c, recorded.1];
      return Answer(recorded.0), es;
    }

    // Fresh identities for every candidate the model names.
    method Allocate(candidates: seq<Candidate>) returns (allocations: seq<Allocation>)
      modifies host`nextId
      ensures |allocations| == |candidates| && old(host.nextId) <= host.nextId
      ensures forall i :: 0 <= i < |candidates| ==> allocations[i].candidateRef == candidates[i].candidateId
      ensures IdsFrom(Generated(allocations), old(host.nextId), host.nextId)
    {
      allocations := [];
      for i := 0 to |candidates|
        invariant |allocations| == i && old(host.nextId) <= host.nextId
        invariant forall k :: 0 <= k < i ==> allocations[k].candidateRef == candidates[k].candidateId
        invariant IdsFrom(Generated(allocations), old(host.nextId), host.nextId)
      {
        ghost var mark := host.nextId;
        var deltaId := host.Uuid();
        var taskId := host.Uuid();
        var unitId := host.Uuid();
        var bindingId := host.Uuid();
        var next := Allocation(candidates[i].candidateId, deltaId, taskId, unitId, bindingId);
        GeneratedGrows(allocations, next, old(host.nextId), mark);
        allocations := allocations + [next];
      }
    }

    // The routable decision, None for an input that is invalid, or an error.
    method Understand(owner: string, user: Message, running: Run)
      returns (r: Awaited<Option<Decision>>, ghost input: ModelInput)
      requires hide *; proposed.Proposal? && proposed.output.Valid()
      modifies host
      ensures old(host.now) <= host.now && old(host.nextId) <= host.nextId
      ensures input == ModelInput(running.runId, user.messageId, user.content, [])
      ensures r == Answer(None) ==> !Provenance(input, proposed.output, Authoritative(user))
      ensures r.Answer? && r.value.Some? ==>
                var d := r.value.value;
                && DecidedFrom(input, user, owner, proposed.output, d)
                && old(host.now) <= d.closure.record.createdAt <= host.now
      ensures r.Raised? ==> Unroutable(input, user, proposed.output, old(host.nextId))
    {
      hide Provenance, AllocationsOk, ModelOutput.Valid, Allocation.Valid, IdsFrom, Generated, DecidedFrom,
        Unroutable, History, Allowed;
      var output := proposed.output;
      var request := ModelInput(running.runId, user.messageId, user.content, []);
      input := request;
      var now := host.Clock();
      var recordId := host.Uuid();
      ghost var first := host.nextId;
      var allocations := Allocate(output.candidates);
      var moveRef := host.Uuid();
      CandidatesDiffer(output);
      AllocatedOk(allocations, output.candidates, recordId, moveRef, first, moveRef);
      if exists a :: a in allocations && !a.Valid() {
        CollidingCandidate(allocations, output.candidates, first, moveRef);
        CollisionIsUnroutable(input, user, output, first, old(host.nextId));
        return Raised(Exception), input;
      }
      r := ReduceOnce(request, output, user, owner, recordId, allocations, moveRef, now, old(host.nextId));
    }

    // The complete initial graph in one write.
    method CreateTaskGraph(client: RunClient, owner: string, conversation: Conversation, user: Message, running: Run,
                           m: ContextManifest, ghost es: seq<TraceEvent>, d: Decision, ghost input: ModelInput,
                           state: FailureState) returns (r: Awaited<()>)
      requires hide History; Holds(client) && client.g == OpenGraph(conversation, running, user, m, es) && running.runId == client.id
      requires BegunWith(owner, user.content, conversation, user, running, host.now)
      requires input == ModelInput(running.runId, user.messageId, user.content, []) && proposed.Proposal?
      requires DecidedFrom(input, user, owner, proposed.output, d)
      requires running.startedAt <= d.closure.record.createdAt
      modifies client`g, client`cursor, store, state`link, state`task
      ensures Holds(client) && old(store.past) <= store.past
      ensures client.cursor == if r.Answer? then CursorOf(client.g) else old(client.cursor)
      ensures r.Answer? ==>
                var p := InitialProgress(conversation, user, running, m, es, d);
                && client.g == p.Graph() && p.RunningOk() && p.Creation().Valid()
                && state.link == Some(p.ActiveLink()) && state.task == Some(p.task)
      ensures r.Raised? ==> client.Current() && Unfinished(client.g)
      ensures r.Raised? ==> state.link == old(state.link) && state.task == old(state.task)
      ensures old(client.Calm()) ==> r.Answer? && client.Calm()
    {
      hide RuntimeStore.AlwaysCalm, CursorOf, Held, Claimed, IdsBelow, DecidedFrom, Decision.Valid,
        CreateGraphCommand.Valid, Progress.Graph, OpenGraph, CreateWrites, BegunWith, Unfinished, Progress.RunningOk,
        Progress.Creation, History, Allowed;
      DecisionIsWritable(input, owner, conversation, user, running, proposed.output, d, host.now);
      ghost var p := InitialProgress(conversation, user, running, m, es, d);
      var c := InitialGraphCommand(d, owner, conversation, user, running);
      CreationIs(owner, conversation, user, running, m, es, d, host.now);
      CreationIsSendable(client.g, p);
      var created :- client.Move(CreateGraph(c));
      if !created { return Raised(Exception); }
      CreatedGraph(p);
      state.link := Some(c.runLink);
      state.task := Some(c.task);
      return Answer(());
    }

    // What the model proposed and what the reducer accepted of it.
    method AppendProposal(client: RunClient, record: UnderstandingRecord, delta: AcceptedDelta, unit: RequestUnit,
                          m: ContextManifest, move: NextMove) returns (r: Awaited<(TraceEvent, TraceEvent, TraceEvent)>)
      requires hide *; Holds(client) && Unfinished(client.g) && record.runId == client.id
      modifies client`g, store, host
      ensures Holds(client) && old(store.past) <= store.past
      ensures old(host.now) <= host.now && old(host.nextId) <= host.nextId
      ensures r.Answer? ==>
                var (a, b, c) := r.value;
                && a == NextMoveEvent(0, 0, record, m, KindName(move.kind), move.tool).(eventId := a.eventId, at := a.at)
                && b == DeltaValidatedEvent(0, 0, record, delta).(eventId := b.eventId, at := b.at)
                && c == DeltaAcceptedEvent(0, 0, record, delta, unit).(eventId := c.eventId, at := c.at)
                && client.g == AppendWrites(AppendWrites(AppendWrites(old(client.g), a), b), c) && Unfinished(client.g)
      ensures r.Raised? ==> client.Current() && Unfinished(client.g)
      ensures old(client.Calm()) ==> r.Answer? && client.Calm()
    {
      hide RuntimeStore.AlwaysCalm, CursorOf, Held, Claimed, IdsBelow, AppendWrites, RuntimeStore.Valid, NextMoveEvent,
        DeltaValidatedEvent, DeltaAcceptedEvent, KindName, TraceEvent.Valid;
      ProposalShapes(client.id, record, delta, unit, m, move);
      AppendsKeepRun();
      var a :- client.AppendTrace(NextMoveEvent(0, 0, record, m, KindName(move.kind), move.tool), None);
      var b :- client.AppendTrace(DeltaValidatedEvent(0, 0, record, delta), None);
      var c :- client.AppendTrace(DeltaAcceptedEvent(0, 0, record, delta, unit), None);
      return Answer((a, b, c));
    }

    // The five events that record the initial decision.
    method AppendInitialDecision(client: RunClient, ghost p: Progress, m: ContextManifest, d: Decision)
      returns (r: Awaited<()>, ghost es: seq<TraceEvent>)
      requires hide *; Holds(client) && client.g == p.Graph() && Undecided(p) && d.Routable? && ComesFrom(p, d)
      requires p.running.runId == d.closure.record.runId == client.id && p.manifest == m
      modifies client`g, store, host
      ensures Holds(client) && old(store.past) <= store.past
      ensures old(host.now) <= host.now && old(host.nextId) <= host.nextId
      ensures r.Answer? ==> client.g == p.(decided := es).Graph() && FirstFive(p, d.move, es)
      ensures r.Raised? ==> client.Current() && Unfinished(client.g)
      ensures old(client.Calm()) ==> r.Answer? && client.Calm()
    {
      hide RuntimeStore.AlwaysCalm, CursorOf, Held, Claimed, IdsBelow, Progress.Graph, AppendWrites,
        RuntimeStore.Valid, ComesFrom, Undecided, NextMoveEvent, DeltaValidatedEvent, DeltaAcceptedEvent, BindingEvent,
        UnitChangedEvent, FirstFive, KindName, TraceEvent.Valid;
      var record, delta, unit, binding := d.closure.record, d.graph.delta, d.graph.unit, d.graph.binding;
      DecisionRoots(p, d);
      DecisionShapes(client.id, unit, binding);
      GraphRuns(p);
      AppendsKeepRun();
      RunningIsUnfinished(client.g);
      es := [];
      var proposal :- AppendProposal(client, record, delta, unit, m, d.move);
      var (a, b, c) := proposal;
      var e :- client.AppendTrace(BindingEvent(0, 0, client.id, unit, binding), None);
      var f :- client.AppendTrace(UnitChangedEvent(0, 0, client.id, unit), None);
      es := [a, b, c, e, f];
      FirstFiveHold(p, d.move, a, b, c, e, f);
      return Answer(()), es;
    }

    // The move is checked against the graph just stored, and recorded.
    method Revalidate(client: RunClient, ghost p: Progress, m: ContextManifest, d: Decision)
      returns (r: Awaited<Gateway.RevalidatedMove>, ghost p': Progress)
      requires hide *; Holds(client) && client.g == p.Graph() && p.(decided := []).Creation().Valid()
      requires Undecided(p.(decided := [])) && d.Routable? && d.Valid() && d.move.Valid() && ComesFrom(p, d)
      requires FirstFive(p, d.move, p.decided) && p.manifest == m && p.running.runId == client.id
      modifies client`g, store, host
      ensures Holds(client) && old(store.past) <= store.past
      ensures old(host.now) <= host.now && old(host.nextId) <= host.nextId
      ensures r.Answer? ==>
                && d.move.kind.CallTool?
                && Some(r.value) == Gateway.Revalidate(d, d.graph.task, d.graph.unit, d.graph.binding) && r.value.Valid()
                && r.value.tool == p.requested
                && p' == p.(decided := p'.decided) && client.g == p'.Graph()
                && DecidedWith(p.running.runId, m, p.record, p.delta, p.binding, p.unit, p.requested, p'.decided)
      ensures r.Raised? ==> client.Current() && Unfinished(client.g)
      ensures old(client.Calm()) && d.move.kind.CallTool? ==> r.Answer? && client.Calm()
    {
      hide RuntimeStore.AlwaysCalm, CursorOf, Held, Claimed, IdsBelow, Progress.Graph, AppendWrites, RuntimeStore.Valid,
        Decision.Valid, NextMove.Valid, Progress.Creation, CreateGraphCommand.Valid, FirstFive, DecidedWith,
        RevalidatedEvent, ComesFrom, Gateway.Revalidate, Gateway.RevalidatedMove.Valid, TraceEvent.Valid, History,
        Allowed;
      p' := p;
      GraphRuns(p);
      Gateway.RevalidationExactly(d);
      var move := Gateway.Revalidate(d, d.graph.task, d.graph.unit, d.graph.binding);
      if move.None? {
        client.Abandon();
        return Raised(Exception), p';
      }
      MoveIs(p, d, move.value);
      RevalidatedShape(client.id, d.graph.unit, m.modelCallId, move.value);
      var e :- client.AppendTrace(
        RevalidatedEvent(0, 0, client.id, d.graph.unit, m.modelCallId, move.value.tool, move.value.validatedVersion,
                         move.value.bindingRefs), None);
      p' := p.(decided := p.decided + [e]);
      SixthHolds(p, d, m, move.value, e);
      return Answer(move.value), p';
    }

    // The fault seam: the Task moves to WAITING_USER before the gate looks at it.
    method FaultHook(client: RunClient, ghost p: Progress, task: Task, unit: RequestUnit)
      returns (r: Awaited<()>, ghost p': Progress)
      requires hide *; Holds(client) && client.g == p.Graph() && NothingGated(p) && p.running.runId == client.id
      requires p.Creation().Valid() && task == p.task && unit == p.unit && task.updatedAt <= host.now
      modifies client`g, store, host
      ensures Holds(client) && old(store.past) <= store.past
      ensures old(host.now) <= host.now && old(host.nextId) <= host.nextId
      ensures r.Answer? ==>
                && p'.hook.Some? && p' == p.(hook := p'.hook) && client.g == p'.Graph()
                && HookOk(p.running.runId, p.task, p.unit, p'.hook.value.0, p'.hook.value.1)
                && p'.hook.value.0.task.status.TaskWaitingUser? && p'.hook.value.0.task.updatedAt <= host.now
                && p'.hook.value.0.unit.resultRefs == []
      ensures r.Raised? ==> client.Current() && Unfinished(client.g)
      ensures old(client.Calm()) ==> r.Answer? && client.Calm()
    {
      hide RuntimeStore.AlwaysCalm, CursorOf, Held, Claimed, IdsBelow, Progress.Graph, AppendWrites, RuntimeStore.Valid,
        Progress.Creation, CreateGraphCommand.Valid, TaskTransitionCommand.Valid, HookOk, TraceEvent.Valid,
        UnitChangedEvent, Advance, TransitMatches, History, Allowed;
      p' := p;
      CreatedTask(p);
      GraphRuns(p);
      var changedAt := host.Clock();
      var reasonRef := host.Uuid();
      var nextTask := task.(status := TaskWaitingUser, version := task.version + 1, updatedAt := changedAt,
                            lastOutcomeRef := Some(reasonRef));
      var nextUnit := unit.(status := TaskWaitingUser, version := unit.version + 1, updatedAt := changedAt);
      var transition := Transition(task.taskId, unit.unitId, task.status, TaskWaitingUser, task.version, nextTask.version,
                                   reasonRef, changedAt);
      var c := TaskTransitionCommand(task, nextTask, unit, nextUnit, transition);
      HookIsValid(p, c);
      HookIsSendable(client.g, p, c);
      AdvanceBelow(client.g, c);
      StaysUnfinished(client.g, Transit(c));
      BelowGrows(client.g, old(host.nextId), host.nextId);
      var applied :- client.Submit(Transit(c));
      if !applied { return Raised(Exception), p'; }
      var e :- client.AppendTrace(UnitChangedEvent(0, 0, client.id, unit), Some(changedAt));
      p' := p.(hook := Some((Moved(nextTask, nextUnit, transition), e)));
      HookedGraph(p, c, e);
      HookHolds(p, c, e);
      return Answer(()), p';
    }

    // The gate's decision on the graph as it is now, saved and recorded.
    method Gate(client: RunClient, ghost p: Progress, m: ContextManifest, move: Gateway.RevalidatedMove, owner: string,
                task: Task, unit: RequestUnit, binding: InputBinding) returns (r: Awaited<GateDecision>, ghost p': Progress)
      requires hide *; Holds(client) && MoveFits(p, move) && p.manifest == m && p.binding == binding && p.running.runId == client.id
      requires p.gate.None? && p.tool.None? && p.found.None? && p.running.status.RunRunning?
      requires p.hook.Some? ==> !p.Current().0.status.TaskActive?
      requires AtCurrent(client.g, p, task, unit) && SameUnit(p)
      modifies client`g, store, host
      ensures Holds(client) && old(store.past) <= store.past
      ensures old(host.now) <= host.now && old(host.nextId) <= host.nextId
      ensures r.Answer? ==>
                && r.value.Valid() && (r.value.accepted ==> AcceptedBy(r.value, move, owner, task, unit, binding, snapshot, m))
                && r.value == Gateway.Evaluate(r.value.gateId, move, owner, task, unit, binding, snapshot, m, m.modelCallId,
                                               Gateway.Budget(0, 1), true, r.value.decidedAt)
                && p' == p.(gate := p'.gate) && p'.gate.Some? && p'.gate.value.0 == r.value
                && ((client.g == p'.Graph() && p'.GatePart(r.value, p'.gate.value.1))
                    || (Claimed(client.g) && !r.value.accepted))
                && (old(client.g) == p.Graph() ==> client.g == p'.Graph())
                && (Claimed(old(client.g)) ==> Claimed(client.g))
      ensures r.Raised? ==> client.Current() && Unfinished(client.g)
      ensures old(client.Calm()) ==> r.Answer? && client.Calm()
    {
      hide RuntimeStore.AlwaysCalm, CursorOf, Held, IdsBelow, Progress.Graph, AppendWrites, AuditWrites, RuntimeStore.Valid,
        Gateway.Evaluate, GateDecision.Valid, GateEvent, Progress.GatePart, AcceptedBy, TraceEvent.Valid, MoveFits,
        AtCurrent, Progress.Current, ApplyWrite, History, Allowed, Lands, Sendable, Written, NeedsActive;
      p' := p;
      AtCurrentRuns(client.g, p, task, unit);
      var gateId := host.Uuid();
      var decidedAt := host.Clock();
      var gate := Gateway.Evaluate(gateId, move, owner, task, unit, binding, snapshot, m, m.modelCallId,
                                   Gateway.Budget(0, 1), true, decidedAt);
      GateIsSound(p, move, owner, task, unit, snapshot, gateId, decidedAt, client.g);
      GateIsSendable(client.g, gate, old(host.nextId), host.nextId);
      ghost var g0 := client.g;
      var saved :- client.Submit(Write.SaveGate(gate));
      if !saved { return Raised(Exception), p'; }
      GateShape(client.id, unit, gate);
      var e :- client.AppendTrace(GateEvent(0, 0, client.id, unit, gate), None);
      p' := p.(gate := Some((gate, e)));
      GateHolds(p, task, unit, gate, e, g0);
      GraphIsNotClaimed(p);
      return Answer(gate), p';
    }

    // The one write that ends the turn; from its answer on the turn is committed.
    method Commit(client: RunClient, c: FinalizeRunCommand, result: AgentRunResult, state: FailureState) returns (r: Awaited<()>)
      requires hide *; Holds(client) && Sendable(client.g, Finalize(c)) && NeedsActive(Finalize(c))
      modifies client`g, client`cursor, store, state`committed, state`running
      ensures Holds(client) && old(store.past) <= store.past && client.Current() && Inv(client.g)
      ensures r.Raised? ==> client.cursor == old(client.cursor)
      ensures r.Answer? ==>
                && Lands(old(client.g), Finalize(c)) && client.g == ApplyWrite(old(client.g), Finalize(c))
                && state.committed == Some(result) && state.running.None?
      ensures r.Raised? ==>
                && (client.g == old(client.g) || Claimed(client.g)
                    || (Lands(old(client.g), Finalize(c)) && client.g == ApplyWrite(old(client.g), Finalize(c))))
                && state.committed == old(state.committed) && state.running == old(state.running)
      ensures old(client.Calm()) && Lands(old(client.g), Finalize(c)) ==> r.Answer?
    {
      hide RuntimeStore.AlwaysCalm, CursorOf, Held, Claimed, IdsBelow, RuntimeStore.Valid, Lands, ApplyWrite, Sendable, Inv,
        History, Allowed;
      NotLanded(client.g, Finalize(c));
      var applied := client.Move(Finalize(c));
      store.Sound(client.id);
      if applied.Raised? { return Raised(applied.signal); }
      if !applied.value { return Raised(Exception); }
      state.committed := Some(result);
      state.running := None;
      return Answer(());
    }

    // A turn that never got to a Task.
    method FinishWithoutTask(client: RunClient, conversation: Conversation, ghost user: Message, running: Run,
                             ghost m: ContextManifest, ghost es: seq<TraceEvent>, reason: StopReason, state: FailureState)
      returns (r: Awaited<AgentRunResult>, ghost t: Option<Turn>)
      requires hide *; Holds(client) && client.g == OpenGraph(conversation, running, user, m, es) && running.runId == client.id
      requires OpenedWith(running.runId, user, m, es) && BegunWith(conversation.owner, user.content, conversation, user, running, host.now)
      requires reason.InputInvalid? || reason.ProviderProtocolError?
      modifies client`g, client`cursor, store, host, state`committed, state`running
      ensures Holds(client) && old(store.past) <= store.past && old(host.now) <= host.now
      ensures r.Raised? ==> client.cursor == old(client.cursor)
      ensures r.Answer? ==>
                && t.Some? && Ended(client.g, t.value, r.value, reason) && t.value.work.None?
                && t.value.conversation == conversation && t.value.user == user
                && client.Current() && r.value.runId == client.id && MapResult(running.runId, reason, None) == Some(r.value)
                && state.committed == Some(r.value) && state.running.None?
      ensures r.Raised? ==>
                && client.Current() && (Unfinished(client.g) || FinishedTurn(client.g))
                && state.committed == old(state.committed) && state.running == old(state.running)
      ensures old(client.Calm()) ==> r.Answer?
    {
      hide RuntimeStore.AlwaysCalm, CursorOf, Held, Claimed, IdsBelow, AppendWrites, RuntimeStore.Valid, OpenGraph,
        OpenedWith, BegunWith, RenderedEvent, TraceEvent.Valid, FinalizeRunCommand.Valid, RunStoppedEvent, Ended,
        Lands, ApplyWrite, FinishedTurn, History, Allowed, Inv, FinalizeRunCommand.RunsClose,
        FinalizeRunCommand.LinksClose, FinalizeRunCommand.TasksClose, FinalizeRunCommand.CompletedIsWhole,
        FinalizeRunCommand.FailedIsBare, Written, Sendable, MapResult;
      t := None;
      BareResult(running.runId, reason);
      var result := MapResult(running.runId, reason, None).value;
      RenderedShape(client.id);
      OpenRuns(conversation, running, user, m, es);
      AppendsKeepRun();
      BegunLater(conversation, user, running, host.now);
      var rendered :- client.AppendTrace(RenderedEvent(0, 0, client.id, None, None, None), None);
      r, t := CloseBare(client, conversation, user, running, m, es, rendered, reason, result, state);
    }

    method CloseBare(client: RunClient, conversation: Conversation, ghost user: Message, running: Run,
                     ghost m: ContextManifest, ghost es: seq<TraceEvent>, ghost rendered: TraceEvent, reason: StopReason,
                     result: AgentRunResult, state: FailureState) returns (r: Awaited<AgentRunResult>, ghost t: Option<Turn>)
      requires hide *; Holds(client) && running.runId == client.id
      requires client.g == AppendWrites(OpenGraph(conversation, running, user, m, es), rendered)
      requires rendered == RenderedEvent(0, 0, running.runId, None, None, None).(eventId := rendered.eventId, at := rendered.at)
      requires OpenedWith(running.runId, user, m, es) && BegunWith(conversation.owner, user.content, conversation, user, running, host.now)
      requires reason.InputInvalid? || reason.ProviderProtocolError?
      requires MapResult(running.runId, reason, None) == Some(result)
      modifies client`g, client`cursor, store, host, state`committed, state`running
      ensures Holds(client) && old(store.past) <= store.past && old(host.now) <= host.now
      ensures r.Raised? ==> client.cursor == old(client.cursor)
      ensures r.Answer? ==>
                && t.Some? && Ended(client.g, t.value, r.value, reason) && t.value.work.None? && r.value == result
                && t.value.conversation == conversation && t.value.user == user && client.Current()
                && state.committed == Some(r.value) && state.running.None?
      ensures r.Raised? ==>
                && client.Current() && (Unfinished(client.g) || FinishedTurn(client.g))
                && state.committed == old(state.committed) && state.running == old(state.running)
      ensures old(client.Calm()) ==> r.Answer?
    {
      hide RuntimeStore.AlwaysCalm, CursorOf, Held, Claimed, IdsBelow, AppendWrites, RuntimeStore.Valid, OpenGraph,
        OpenedWith, BegunWith, RenderedEvent, TraceEvent.Valid, FinalizeRunCommand.Valid, RunStoppedEvent, Ended,
        Lands, ApplyWrite, FinishedTurn, History, Allowed, Inv, FinalizeRunCommand.RunsClose,
        FinalizeRunCommand.LinksClose, FinalizeRunCommand.TasksClose, FinalizeRunCommand.CompletedIsWhole,
        FinalizeRunCommand.FailedIsBare, Written, Sendable, MapResult;
      t := None;
      OpenRuns(conversation, running, user, m, es);
      AppendsKeepRun();
      BegunLater(conversation, user, running, host.now);
      var completedAt := host.Clock();
      var terminal := running.(status := RunCompleted, completedAt := Some(completedAt), stopReason := Some(reason));
      ghost var bound := host.nextId;
      var messageId := host.Uuid();
      var assistant := Message(messageId, conversation.conversationId, FromAssistant, result.message, completedAt);
      var stopId := host.Uuid();
      var stop := RunStoppedEvent(stopId, completedAt, running.runId, result.outcome, reason);
      var c := FinalizeRunCommand(running, terminal, [], [], [], None, Some(result), Some(assistant), [stop]);
      BareCommandIsValid(conversation, user, running, c, result, reason, completedAt, stopId);
      BareIsSendable(conversation, user, running, m, es, rendered, c, bound);
      BelowGrows(client.g, bound, host.nextId);
      ghost var turn := Turn(conversation, user, m, es, None, rendered, terminal, assistant, stop);
      ghost var g0 := client.g;
      NotLanded(g0, Finalize(c));
      var committed := Commit(client, c, result, state);
      if Lands(g0, Finalize(c)) && client.g == ApplyWrite(g0, Finalize(c)) {
        BareTurn(turn, running, result, reason, c, g0, client.g);
      }
      if committed.Raised? { return Raised(committed.signal), t; }
      t := Some(turn);
      return Answer(result), t;
    }

    // A turn that worked on a Task: the Task moves, the link closes and the Run completes in one write.
    method FinishWithTask(client: RunClient, ghost p: Progress, conversation: Conversation, running: Run, task: Task,
                          unit: RequestUnit, link: RunTaskLink, reason: StopReason, target: TaskStatus, reasonRef: Id,
                          observationRef: Option<Id>, planRef: Option<Id>, rendered: Option<string>, state: FailureState)
      returns (r: Awaited<AgentRunResult>, ghost t: Option<Turn>)
      requires hide *; Holds(client) && AtCurrent(client.g, p, task, unit) && running.runId == client.id
      requires conversation == p.conversation && running == p.running && link == p.ActiveLink() && p.RunningOk()
      requires client.g == p.Graph() ==> Endable(p, host.now)
      requires observationRef == SeenRef(p) && TargetOf(reason) == Some(target)
      modifies client`g, client`cursor, store, host, state`committed, state`running
      ensures Holds(client) && old(store.past) <= store.past && old(host.now) <= host.now
      ensures r.Raised? ==> client.cursor == old(client.cursor)
      ensures r.Answer? ==>
                && old(client.g) == p.Graph() && t.Some? && Ended(client.g, t.value, r.value, reason)
                && t.value.work.Some? && WorkOf(p, t.value)
                && EndsAfter(t.value.work.value, old(host.now), host.strict)
                && Some(r.value) == MapResult(running.runId, reason, rendered) && r.value.runId == running.runId
                && EndsAs(task, unit, target, reasonRef, observationRef, t.value.work.value.end)
                && t.value.rendered.planRef == planRef
                && client.Current()
                && state.committed == Some(r.value) && state.running.None?
      ensures r.Raised? ==>
                && client.Current() && (Unfinished(client.g) || FinishedTurn(client.g))
                && state.committed == old(state.committed) && state.running == old(state.running)
      ensures old(client.Calm()) && old(client.g) == p.Graph() && MapResult(running.runId, reason, rendered).Some? ==>
                r.Answer?
    {
      hide EndsAs, RuntimeStore.AlwaysCalm, CursorOf, Held, Claimed, IdsBelow, AppendWrites, RuntimeStore.Valid, Progress.Graph,
        AtCurrent, Endable, RenderedEvent, TraceEvent.Valid, FinalizeRunCommand.Valid, RunStoppedEvent,
        TaskChangedEvent, Ended, Lands, ApplyWrite, FinishedTurn, EndMoved, WorkOf, SeenRef, TargetOf,
        Progress.RunningOk, MapResult, EndCommand, EndsIn, History, Allowed;
      t := None;
      ghost var g := client.g;
      RunningFacts(p);
      AtCurrentRuns(g, p, task, unit);
      var result := MapResult(running.runId, reason, rendered);
      if result.None? {
        client.Abandon();
        return Raised(Exception), t;
      }
      RenderedTaskShape(client.id, unit, observationRef, planRef);
      AppendsKeepRun();
      EndsByTable(running.runId, reason, rendered);
      ghost var mine := g == p.Graph();
      EndStart(g, p, task, unit);
      EndableLater(p, host.now);
      var shown :- client.AppendTrace(RenderedEvent(0, 0, client.id, Some(unit), observationRef, planRef), None);
      r, t := CloseTurn(client, p, mine, shown, conversation, running, task, unit, link, reason, target, reasonRef,
                        observationRef, planRef, result.value, state);
    }

    method CloseTurn(client: RunClient, ghost p: Progress, ghost mine: bool, ghost shown: TraceEvent,
                     conversation: Conversation, running: Run, task: Task, unit: RequestUnit, link: RunTaskLink,
                     reason: StopReason, target: TaskStatus, reasonRef: Id, observationRef: Option<Id>,
                     ghost planRef: Option<Id>, result: AgentRunResult, state: FailureState)
      returns (r: Awaited<AgentRunResult>, ghost t: Option<Turn>)
      requires hide *; Holds(client) && running.runId == client.id
      requires conversation == p.conversation && running == p.running && link == p.ActiveLink() && p.RunningOk()
      requires if mine then client.g == AppendWrites(p.Graph(), shown) && (task, unit) == p.Current() && Endable(p, host.now)
               else Claimed(client.g)
      requires shown == RenderedEvent(0, 0, running.runId, Some(unit), observationRef, planRef).(eventId := shown.eventId, at := shown.at)
      requires observationRef == SeenRef(p) && EndsIn(reason, target, result) && result.runId == running.runId
      modifies client`g, client`cursor, store, host, state`committed, state`running
      ensures Holds(client) && old(store.past) <= store.past && old(host.now) <= host.now
      ensures r.Raised? ==> client.cursor == old(client.cursor)
      ensures r.Answer? ==>
                && mine && t.Some? && Ended(client.g, t.value, r.value, reason) && r.value == result
                && t.value.work.Some? && WorkOf(p, t.value)
                && EndsAs(task, unit, target, reasonRef, observationRef, t.value.work.value.end) && t.value.rendered == shown
                && EndsAfter(t.value.work.value, old(host.now), host.strict)
                && client.Current()
                && state.committed == Some(r.value) && state.running.None?
      ensures r.Raised? ==>
                && client.Current() && (Unfinished(client.g) || FinishedTurn(client.g))
                && state.committed == old(state.committed) && state.running == old(state.running)
      ensures old(client.Calm()) && mine ==> r.Answer?
    {
      hide EndsAs, RuntimeStore.AlwaysCalm, CursorOf, Held, Claimed, IdsBelow, AppendWrites, RuntimeStore.Valid, Progress.Graph,
        Endable, RenderedEvent, TraceEvent.Valid, FinalizeRunCommand.Valid, RunStoppedEvent, TaskChangedEvent, Ended,
        Lands, ApplyWrite, FinishedTurn, EndMoved, WorkOf, SeenRef, EndsIn, Progress.RunningOk, LastFits, LastTurn,
        History, Allowed;
      t := None;
      var changedAt := host.Clock();
      var end := EndMoved(task, unit, target, reasonRef, observationRef, changedAt);
      var completedAt := host.Clock();
      var terminal := running.(status := RunCompleted, completedAt := Some(completedAt), stopReason := Some(reason));
      ghost var bound := host.nextId;
      var messageId := host.Uuid();
      var assistant := Message(messageId, conversation.conversationId, FromAssistant, result.message, completedAt);
      var changedId := host.Uuid();
      var changed := TaskChangedEvent(changedId, changedAt, running.runId, end.task.taskId, end.unit.unitId);
      var stopId := host.Uuid();
      var stop := RunStoppedEvent(stopId, completedAt, running.runId, result.outcome, reason);
      var c := FinalizeRunCommand(
        running, terminal, [link], [link.(result := Some(end.task.version))], [end.task],
        Some(TaskTransitionCommand(task, end.task, unit, end.unit, end.transition)), Some(result), Some(assistant),
        [changed, stop]);
      BelowGrows(client.g, bound, host.nextId);
      ghost var last := Last(end, shown, changed, terminal, assistant, stop);
      ghost var how := How(target, reasonRef, observationRef, reason, result, changedAt, completedAt);
      EndMovedFor(task, unit, target, reasonRef, observationRef, changedAt);
      if mine { LastFitsAll(p, last, how); }
      r, t := CommitTurn(client, p, mine, last, how, planRef, old(host.now), bound, c, state);
    }

    method CommitTurn(client: RunClient, ghost p: Progress, ghost mine: bool, ghost last: Last, ghost how: How,
                      ghost planRef: Option<Id>, ghost now: Time, ghost bound: Id, c: FinalizeRunCommand, state: FailureState)
      returns (r: Awaited<AgentRunResult>, ghost t: Option<Turn>)
      requires hide *; Holds(client) && p.running.runId == client.id && c.result == Some(how.result)
      requires if mine then client.g == AppendWrites(p.Graph(), last.shown) && EndReady(p, last, how, planRef, now, bound)
                            && c == LastCommand(p, last, how)
               else Claimed(client.g)
      modifies client`g, client`cursor, store, state`committed, state`running
      ensures Holds(client) && old(store.past) <= store.past
      ensures r.Raised? ==> client.cursor == old(client.cursor)
      ensures r.Answer? ==>
                && mine && t.Some? && Ended(client.g, t.value, r.value, how.reason) && r.value == how.result
                && t.value.work.Some? && WorkOf(p, t.value)
                && t.value.work.value.end == last.end && t.value.rendered == last.shown
                && t.value.work.value.end.transition.changedAt == how.changedAt
                && client.Current()
                && state.committed == Some(r.value) && state.running.None?
      ensures r.Raised? ==>
                && client.Current() && (Unfinished(client.g) || FinishedTurn(client.g))
                && state.committed == old(state.committed) && state.running == old(state.running)
      ensures old(client.Calm()) && mine && IdsBelow(old(client.g), bound) ==> r.Answer?
    {
      hide RuntimeStore.AlwaysCalm, CursorOf, Held, Claimed, IdsBelow, AppendWrites, RuntimeStore.Valid, Progress.Graph,
        FinalizeRunCommand.Valid, Ended, Lands, ApplyWrite, FinishedTurn, WorkOf, EndReady, LastTurn, LastCommand,
        Progress.Work, History, Allowed;
      t := None;
      ghost var g0 := client.g;
      NotLanded(g0, Finalize(c));
      if mine { ReadyIsValid(p, last, how, planRef, now, bound); }
      if !c.Valid() {
        client.Abandon();
        return Raised(Exception), t;
      }
      FinalIsSendable(g0, c);
      var committed := Commit(client, c, c.result.value, state);
      if mine && Lands(g0, Finalize(c)) && client.g == ApplyWrite(g0, Finalize(c)) {
        ReadyEnds(p, last, how, planRef, now, bound, client.g);
        LastParts(p, last);
        t := Some(LastTurn(p, last));
      }
      if committed.Raised? { return Raised(committed.signal), t; }
      return Answer(c.result.value), t;
    }

    // What is left of the time budget, in whole milliseconds; timestamps are in microseconds.
    method RemainingBudget(running: Run) returns (r: Awaited<int>)
      modifies host`now
      ensures old(host.now) <= host.now
      ensures r.Answer? <==> WithinBudget(running, budgetMs, host.now)
      ensures r.Answer? ==> 0 < r.value
      ensures r.Answer? && running.startedAt <= host.now ==>
                r.value * 1000 <= budgetMs * 1000 - (host.now - running.startedAt) < r.value * 1000 + 1000
    {
      var at := host.Clock();
      var elapsed := if at < running.startedAt then 0 else at - running.startedAt;
      var remaining := budgetMs * 1000 - elapsed;
      if remaining < 1000 { return Raised(Exception); }
      return Answer(remaining / 1000);
    }

    // The four events of the one call, once it is over.
    method AppendToolTrace(client: RunClient, ghost p: Progress, ghost a: Authorized, execution: Execution)
      returns (r: Awaited<()>, ghost p': Progress)
      requires hide *; Holds(client) && p.running.runId == client.id && CallStage(p, a)
      requires Executed(p.Graph(), client.g, a, executor.port.reply, execution)
      modifies client`g, store, host
      ensures Holds(client) && old(store.past) <= store.past
      ensures old(host.now) <= host.now && old(host.nextId) <= host.nextId
      ensures r.Answer? ==>
                && p'.tool.Some? && p' == p.(tool := p'.tool, found := execution.observation) && client.g == p'.Graph()
                && p'.tool.value.seen.None? && p'.ToolPart(p'.tool.value)
                && Some(p'.tool.value.call) == execution.terminal && Some(p'.tool.value.attempt) == execution.attempt
      ensures r.Raised? ==> client.Current() && Unfinished(client.g)
      ensures old(client.Calm()) ==> r.Answer? && client.Calm()
    {
      hide RunClient.Valid, RuntimeStore.AlwaysCalm, CursorOf, Held, Claimed, IdsBelow, AppendWrites,
        RuntimeStore.Valid, Progress.Graph, Executed, CallStage, TraceEvent.Valid, CallCreatedEvent, CallStartedEvent,
        CallEndedEvent, NormalizedEvent, Progress.ToolPart, History, Allowed;
      p' := p;
      ExecutedRuns(p, a, executor.port.reply, execution, client.g);
      var created, c, x := execution.created, execution.terminal.value, execution.attempt.value;
      ToolShapes(client.id, created, c, x);
      AppendsKeepRun();
      var e1 :- client.AppendTrace(CallCreatedEvent(0, created), Some(created.startedAt));
      var e2 :- client.AppendTrace(CallStartedEvent(0, created, x), Some(x.startedAt));
      var e3 :- client.AppendTrace(CallEndedEvent(0, c), c.finishedAt);
      var e4 :- client.AppendTrace(NormalizedEvent(0, c, x), c.finishedAt);
      p' := p.(tool := Some(Tool(c, x, e1, e2, e3, e4, None)), found := execution.observation);
      ToolHolds(p, a, executor.port.reply, execution, old(client.g), e1, e2, e3, e4);
      return Answer(()), p';
    }

    // The gated call: looked up, authorised within the time left, executed and traced.
    method RunTool(client: RunClient, ghost p: Progress, m: ContextManifest, gate: GateDecision, owner: string, running: Run,
                   task: Task, unit: RequestUnit, binding: InputBinding) returns (r: Awaited<Execution>, ghost p': Progress)
      requires hide *; Holds(client) && client.g == p.Graph() && executor.host == host && p.running == running
      requires running.runId == client.id && Callable(p, snapshot, m, gate, owner, task, unit, binding)
      modifies client`g, client`cursor, store, host, executor.port`asked
      ensures Holds(client) && old(store.past) <= store.past
      ensures old(host.now) <= host.now && old(host.nextId) <= host.nextId
      ensures AskedAtMostOnce(old(executor.port.asked), executor.port.asked, owner, binding)
      ensures executor.port.asked != old(executor.port.asked) ==> SoundPolicy(snapshot)
      ensures Left(old(client.cursor), client.cursor, old(executor.port.asked))
      ensures r.Answer? && store.AlwaysCalm() ==> client.cursor == old(client.cursor)
      ensures r.Answer? ==>
                && Answers(executor.port.reply, r.value)
                && p'.tool.Some? && p' == p.(tool := p'.tool, found := r.value.observation) && client.g == p'.Graph()
                && p'.tool.value.seen.None? && p'.ToolPart(p'.tool.value)
                && Some(p'.tool.value.call) == r.value.terminal
      ensures r.Raised? ==> client.Current() && Unfinished(client.g)
      ensures && old(client.Calm()) && SoundPolicy(snapshot) && !executor.port.reply.OrderRaises?
              && WithinBudget(running, budgetMs, host.now)
              ==> r.Answer? && client.Calm()
    {
      hide RuntimeStore.AlwaysCalm, CursorOf, Held, Claimed, IdsBelow, AppendWrites, RuntimeStore.Valid, Progress.Graph,
        Executed, CallStage, Progress.ToolPart, Callable, Fits, Authorized.Sound, Answers,
        Gateway.ResolveValidatedGetOrder, Unfinished, History, Allowed;
      p' := p;
      CallableFacts(p, snapshot, m, gate, owner, task, unit, binding);
      var registration := Gateway.ResolveValidatedGetOrder(snapshot, gate.requestedTool).value;
      var remaining := RemainingBudget(running);
      if remaining.Raised? {
        client.Abandon();
        return Raised(remaining.signal), p';
      }
      var a := Authorized(owner, gate.gateId, "get_order", binding.orderId, gate.bindingRefs, gate.validatedVersion.value,
                          snapshot.version, client.id, task.taskId, unit.unitId, m.modelCallId, m.manifestId, snapshot.version,
                          registration.policy, remaining.value);
      CallableFits(p, snapshot, m, gate, owner, task, unit, binding, a);
      ghost var g0 := client.g;
      var execution :- executor.ExecuteGetOrder(client, a);
      if execution.terminal.None? {
        client.Abandon();
        return Raised(Exception), p';
      }
      var traced, p1 :- AppendToolTrace(client, p, a, execution);
      p' := p1;
      ExecutedAnswers(g0, a, executor.port.reply, execution);
      return Answer(execution), p';
    }

    // The Observation in the trace and in the context of the second model call.
    method Present(client: RunClient, ghost p: Progress, user: Message, task: Task, call: ToolCall, observation: Observation)
      returns (r: Awaited<ContextManifest>, ghost p': Progress)
      requires hide *; Holds(client) && client.g == p.Graph() && p.running.runId == client.id
      requires Presentable(p, snapshot, user, task, call, observation) && task.createdAt <= host.now
      requires p.manifest.manifestId < host.nextId
      modifies client`g, store, host
      ensures Holds(client) && old(store.past) <= store.past
      ensures old(host.now) <= host.now && old(host.nextId) <= host.nextId
      ensures r.Answer? ==>
                && client.g == p'.Graph() && p'.tool.Some? && p'.tool.value.seen.Some? && p'.tool.value.seen.value.plan.None?
                && p.tool.Some? && p' == p.(tool := Some(p.tool.value.(seen := p'.tool.value.seen))) && p'.ToolPart(p'.tool.value)
                && p'.tool.value.seen.value.manifest == r.value && p'.tool.value.seen.value.observation == observation
                && r.value.assembledAt <= host.now && r.value.runId == client.id
      ensures r.Raised? ==> client.Current() && Unfinished(client.g)
      ensures old(client.Calm()) ==> r.Answer? && client.Calm()
    {
      hide RuntimeStore.AlwaysCalm, CursorOf, Held, Claimed, IdsBelow, AppendWrites, AuditWrites, RuntimeStore.Valid,
        Progress.Graph, TraceEvent.Valid, ObservationEvent, ManifestEvent, Progress.ToolPart, Presentable, History,
        Allowed;
      p' := p;
      PresentableFacts(p, snapshot, user, task, call, observation);
      AppendsKeepRun();
      var observed :- client.AppendTrace(ObservationEvent(0, call, observation), Some(observation.recordedAt));
      var modelCallId := host.Uuid();
      BelowGrows(client.g, modelCallId, host.nextId);
      var recorded :- SaveManifest(client, modelCallId, "PRESENTATION", user.messageId, Some((task.taskId, task.version)),
                                   [(observation.observationId, observation.sourceVersion)]);
      ghost var seen := Seen(observation, recorded.0, observed, recorded.1, None);
      p' := p.(tool := Some(p.tool.value.(seen := Some(seen))));
      SeenHolds(p, snapshot, user, task, call, seen);
      return Answer(recorded.0), p';
    }

    method ProposePlan(client: RunClient, ghost p: Progress, unit: RequestUnit, m: ContextManifest, observation: Observation,
                       planRef: Id) returns (r: Awaited<()>, ghost p': Progress)
      requires hide *; Holds(client) && client.g == p.Graph() && p.running.runId == client.id && p.running.status.RunRunning?
      requires p.tool.Some? && p.tool.value.seen.Some? && p.tool.value.seen.value.plan.None? && p.ToolPart(p.tool.value)
      requires m == p.tool.value.seen.value.manifest && observation == p.tool.value.seen.value.observation && unit == p.unit
      modifies client`g, store, host
      ensures Holds(client) && old(store.past) <= store.past
      ensures old(host.now) <= host.now && old(host.nextId) <= host.nextId
      ensures r.Answer? ==>
                && client.g == p'.Graph() && p'.tool.Some? && p'.tool.value.seen.Some?
                && p'.tool.value.seen.value.plan.Some? && p'.tool.value.seen.value.plan.value.planRef == Some(planRef)
                && p' == WithPlan(p, p'.tool.value.seen.value.plan.value) && p'.ToolPart(p'.tool.value)
      ensures r.Raised? ==> client.Current() && Unfinished(client.g)
      ensures old(client.Calm()) ==> r.Answer? && client.Calm()
    {
      hide RuntimeStore.AlwaysCalm, CursorOf, Held, Claimed, IdsBelow, AppendWrites, RuntimeStore.Valid, Progress.Graph,
        TraceEvent.Valid, PlanEvent, Progress.ToolPart, History, Allowed;
      p' := p;
      GraphRuns(p);
      PlanShape(client.id, unit, m, observation.observationId, planRef);
      var e :- client.AppendTrace(PlanEvent(0, 0, client.id, unit, m, observation.observationId, planRef), None);
      p' := WithPlan(p, e);
      PlanHolds(p, planRef, e);
      return Answer(()), p';
    }

    // From the outcome of the call to the end of the turn.
    method Respond(client: RunClient, ghost p: Progress, conversation: Conversation, user: Message, running: Run, task: Task,
                   unit: RequestUnit, link: RunTaskLink, execution: Execution, state: FailureState)
      returns (r: Awaited<AgentRunResult>, ghost t: Option<Turn>)
      requires hide *; Holds(client) && client.g == p.Graph() && running.runId == client.id && p.running == running
      requires conversation == p.conversation && link == p.ActiveLink() && Respondable(p, snapshot, user, task, unit, host.now, host.nextId)
      requires Answers(executor.port.reply, execution) && p.tool.Some? && execution.terminal == Some(p.tool.value.call)
      requires p.found == execution.observation
      modifies client`g, client`cursor, store, host, state`committed, state`running
      ensures Holds(client) && old(store.past) <= store.past && old(host.now) <= host.now
      ensures r.Raised? ==> client.cursor == old(client.cursor)
      ensures r.Answer? ==>
                && t.Some? && EndedSomehow(client.g, t.value, r.value)
                && t.value.work.Some? && WorkKeeps(p, t.value) && ReplyTold(t.value, executor.port.reply, planned)
                && (host.strict ==> MovedAfterPresentation(t.value))
                && client.Current()
                && state.committed == Some(r.value) && state.running.None?
      ensures r.Raised? ==>
                && client.Current() && (Unfinished(client.g) || FinishedTurn(client.g))
                && state.committed == old(state.committed) && state.running == old(state.running)
      ensures old(client.Calm()) && ReplyEndsTurn(executor.port.reply, planned) ==> r.Answer?
    {
      hide EndsAs, RuntimeStore.AlwaysCalm, CursorOf, Held, Claimed, IdsBelow, RuntimeStore.Valid, Progress.Graph,
        Progress.ToolPart, Answers, Respondable, Endable, AtCurrent, SeenRef, TargetOf, Ended, WorkOf, WorkKeeps,
        FinishedTurn, MapResult, Unfinished, MovedAfterPresentation, Progress.RunningOk, Presentable, EndsAfter,
        History, Allowed;
      t := None;
      ReplyIs(executor.port.reply, execution);
      if execution.outcome.value.FoundOutcome? {
        ReplyCompletes(executor.port.reply, planned);
        r, t := RespondFound(client, p, conversation, user, running, task, unit, link, execution.terminal.value,
                             execution.observation.value, state);
        if r.Answer? { FoundTells(t.value, executor.port.reply, planned); }
        return;
      }
      var missing := execution.outcome.value.NotFoundOutcome?;
      var reason := if missing then OrderNotFound else OrderServiceUnavailable;
      var target := if missing then TaskCompleted else TaskBlocked;
      RespondableEnds(p, snapshot, user, task, unit, host.now, host.nextId);
      TableRow(running.runId, reason);
      var reasonRef := host.Uuid();
      BelowGrows(client.g, old(host.nextId), host.nextId);
      r, t := FinishWithTask(client, p, conversation, running, task, unit, link, reason, target, reasonRef, None, None, None, state);
      if r.Answer? {
        KeptUnseen(p, t.value);
        ReplyTells(client.g, t.value, r.value, running.runId, executor.port.reply, planned);
        EndedBy(client.g, t.value, r.value, reason);
      }
    }

    // A found order is presented to the model and, if all goes well, rendered.
    method RespondFound(client: RunClient, ghost p: Progress, conversation: Conversation, user: Message, running: Run,
                        task: Task, unit: RequestUnit, link: RunTaskLink, call: ToolCall, observation: Observation,
                        state: FailureState) returns (r: Awaited<AgentRunResult>, ghost t: Option<Turn>)
      requires hide *; Holds(client) && client.g == p.Graph() && running.runId == client.id && p.running == running
      requires conversation == p.conversation && link == p.ActiveLink() && Respondable(p, snapshot, user, task, unit, host.now, host.nextId)
      requires p.found == Some(observation) && p.tool.Some? && p.tool.value.call == call && FoundBy(call, observation)
      modifies client`g, client`cursor, store, host, state`committed, state`running
      ensures Holds(client) && old(store.past) <= store.past && old(host.now) <= host.now
      ensures r.Raised? ==> client.cursor == old(client.cursor)
      ensures r.Answer? ==>
                && t.Some? && EndedSomehow(client.g, t.value, r.value)
                && t.value.work.Some? && WorkKeeps(p, t.value) && PlanTold(t.value, planned)
                && (host.strict ==> MovedAfterPresentation(t.value))
                && client.Current()
                && state.committed == Some(r.value) && state.running.None?
      ensures r.Raised? ==>
                && client.Current() && (Unfinished(client.g) || FinishedTurn(client.g))
                && state.committed == old(state.committed) && state.running == old(state.running)
      ensures old(client.Calm()) && PlanEndsTurn(planned) ==> r.Answer?
    {
      hide EndsAs, RuntimeStore.AlwaysCalm, CursorOf, Held, Claimed, IdsBelow, RuntimeStore.Valid, Progress.Graph,
        Progress.ToolPart, Respondable, Endable, AtCurrent, SeenRef, TargetOf, Ended, WorkOf, WorkKeeps, FinishedTurn,
        MapResult, Unfinished, MovedAfterPresentation, Progress.RunningOk, Presentable, EndsAfter, FoundBy, History,
        Allowed;
      t := None;
      RespondablePresents(p, snapshot, user, task, unit, host.now, host.nextId, call, observation);
      var m, p1 :- Present(client, p, user, task, call, observation);
      SeenEnds(p, p1, snapshot, user, task, unit, old(host.now), old(host.nextId), host.now);
      var waited := client.Wait();
      var plan := if waited.Raised? then PlanRaises(waited.signal) else planned;
      GraphRuns(p1);
      if plan.PlanRaises? {
        assert Unfinished(client.g) by { RunsUnfinished(p1); }
        client.Abandon();
        return Raised(plan.signal), t;
      }
      ghost var presented := host.now;
      if plan.PlanProtocolFailure? {
        TableRow(running.runId, ProviderProtocolError);
        var reasonRef := host.Uuid();
        BelowGrows(client.g, reasonRef, host.nextId);
        r, t := FinishWithTask(client, p1, conversation, running, task, unit, link, ProviderProtocolError, TaskBlocked, reasonRef,
                               Some(observation.observationId), None, None, state);
        if r.Answer? {
          KeptSeen(p, p1, t.value, presented, host.strict);
          PlanTells(client.g, t.value, r.value, running.runId, planned);
          EndedBy(client.g, t.value, r.value, ProviderProtocolError);
        }
        return;
      }
      r, t := RespondPlanned(client, p, p1, old(host.now), old(host.nextId), conversation, user, running, task, unit, link, m,
                             observation, state);
    }

    method RespondPlanned(client: RunClient, ghost p: Progress, ghost p1: Progress, ghost began: Time, ghost firstId: Id,
                          conversation: Conversation, ghost user: Message, running: Run, task: Task, unit: RequestUnit,
                          link: RunTaskLink, m: ContextManifest, observation: Observation, state: FailureState)
      returns (r: Awaited<AgentRunResult>, ghost t: Option<Turn>)
      requires hide *; Holds(client) && client.g == p1.Graph() && running.runId == client.id && p1.running == running && planned.Plan?
      requires conversation == p1.conversation && link == p1.ActiveLink() && began <= host.now
      requires Respondable(p, snapshot, user, task, unit, began, firstId) && Presented(p, p1, unit)
      requires p1.tool.Some? && p1.tool.value.seen.Some? && p1.tool.value.seen.value.manifest == m && p1.tool.value.seen.value.observation == observation
      requires m.assembledAt <= host.now
      modifies client`g, client`cursor, store, host, state`committed, state`running
      ensures Holds(client) && old(store.past) <= store.past && old(host.now) <= host.now
      ensures r.Raised? ==> client.cursor == old(client.cursor)
      ensures r.Answer? ==>
                && t.Some? && EndedSomehow(client.g, t.value, r.value)
                && t.value.work.Some? && WorkKeeps(p, t.value) && PlanTold(t.value, planned)
                && (host.strict ==> MovedAfterPresentation(t.value))
                && client.Current()
                && state.committed == Some(r.value) && state.running.None?
      ensures r.Raised? ==>
                && client.Current() && (Unfinished(client.g) || FinishedTurn(client.g))
                && state.committed == old(state.committed) && state.running == old(state.running)
      ensures old(client.Calm()) && PlanEndsTurn(planned) ==> r.Answer?
    {
      hide EndsAs, RuntimeStore.AlwaysCalm, CursorOf, Held, Claimed, IdsBelow, RuntimeStore.Valid, Progress.Graph,
        Progress.ToolPart, Respondable, Endable, AtCurrent, SeenRef, TargetOf, Ended, WorkOf, WorkKeeps, FinishedTurn,
        MapResult, Unfinished, MovedAfterPresentation, Progress.RunningOk, EndsAfter, Presented, History, Allowed;
      t := None;
      PresentedFacts(p, p1, unit);
      var planRef := host.Uuid();
      BelowGrows(client.g, planRef, host.nextId);
      var proposed, p2 :- ProposePlan(client, p1, unit, m, observation, planRef);
      PlanEnds(p, p1, p2, snapshot, user, task, unit, began, firstId, host.now);
      var reason := PlanReason(planned);
      TableRow(running.runId, reason);
      PlanCompletes(running.runId, planned);
      ghost var mark := host.nextId;
      var reasonRef := planRef;
      if reason.GoalCompleted? { reasonRef := host.Uuid(); }
      BelowGrows(client.g, mark, host.nextId);
      ghost var presented := host.now;
      r, t := FinishWithTask(client, p2, conversation, running, task, unit, link, reason,
                             if reason.GoalCompleted? then TaskCompleted else TaskBlocked, reasonRef,
                             Some(observation.observationId), Some(planRef),
                             if reason.GoalCompleted? then planned.rendered else None, state);
      if r.Answer? {
        KeptSeen(p, p2, t.value, presented, host.strict);
        EndsFor(task, unit, if reason.GoalCompleted? then TaskCompleted else TaskBlocked, reasonRef,
                Some(observation.observationId), t.value.work.value.end);
        ShownPlan(p2, t.value, planRef);
        PlanTells(client.g, t.value, r.value, running.runId, planned);
        EndedBy(client.g, t.value, r.value, reason);
      }
    }

    // The fault seam, when it is installed.
    method AfterRevalidationHook(client: RunClient, ghost p: Progress, task: Task, unit: RequestUnit)
      returns (r: Awaited<()>, ghost p': Progress)
      requires hide *; Holds(client) && client.g == p.Graph() && NothingGated(p) && p.running.runId == client.id && p.Ok()
      requires task == p.task && unit == p.unit && p.record.createdAt <= host.now
      modifies client`g, store, host
      ensures Holds(client) && old(store.past) <= store.past
      ensures old(host.now) <= host.now && old(host.nextId) <= host.nextId
      ensures r.Answer? ==>
                && (p'.hook.Some? <==> hook) && p' == p.(hook := p'.hook) && client.g == p'.Graph() && Gatable(p', host.now)
      ensures r.Raised? ==> client.Current() && Unfinished(client.g)
      ensures old(client.Calm()) ==> r.Answer? && client.Calm()
    {
      hide RuntimeStore.AlwaysCalm, CursorOf, Held, Claimed, IdsBelow, RuntimeStore.Valid, Progress.Graph, Progress.Ok,
        HookOk, Gatable, History, Allowed;
      p' := p;
      OkParts(p);
      if hook {
        var moved, p1 :- FaultHook(client, p, task, unit);
        p' := p1;
      }
      HookedIsGatable(p, p', host.now);
      return Answer(()), p';
    }

    // The current Task graph and the gate's verdict on it.
    method Judge(client: RunClient, ghost p: Progress, m: ContextManifest, move: Gateway.RevalidatedMove, owner: string,
                 taskId: Id, unitId: Id, binding: InputBinding, state: FailureState)
      returns (r: Awaited<(Task, RequestUnit, GateDecision)>, ghost p': Progress)
      requires hide *; Holds(client) && client.g == p.Graph() && p.running.runId == client.id && p.manifest == m && p.binding == binding
      requires Gatable(p, host.now) && MoveFits(p, move) && owner == p.conversation.owner
      requires taskId == p.task.taskId && unitId == p.unit.unitId
      modifies client`g, store, host, state`task
      ensures Holds(client) && old(store.past) <= store.past
      ensures old(host.now) <= host.now && old(host.nextId) <= host.nextId
      ensures TaskCursor(old(state.task), state.task, taskId)
      ensures r.Answer? ==> Judged(client.g, p, p', move, owner, r.value.0, r.value.1, snapshot, r.value.2)
      ensures r.Raised? ==> client.Current() && Unfinished(client.g)
      ensures old(client.Calm()) ==> r.Answer? && client.Calm()
      ensures store.AlwaysCalm() && r.Answer? ==> client.g == p'.Graph()
    {
      hide RuntimeStore.AlwaysCalm, CursorOf, Held, Claimed, IdsBelow, RuntimeStore.Valid, Progress.Graph, Progress.Ok,
        Gatable, MoveFits, AtCurrent, TaskCursor, Unfinished, AcceptedBy, Progress.GatePart, SameUnit,
        GateDecision.Valid, History, Allowed, Gateway.Evaluate, Passes;
      p' := p;
      GatableFacts(p, host.now);
      KeepsCursor(state.task, taskId);
      var loaded :- client.LoadCurrent(owner, taskId, unitId);
      if loaded.None? { return Raised(Exception), p'; }
      var (task, unit) := loaded.value;
      state.task := Some(task);
      MovesCursor(old(state.task), task);
      LoadedIsCurrent(client.g, p, owner, task, unit);
      ghost var g := client.g;
      var gate, p1 :- Gate(client, p, m, move, owner, task, unit, binding);
      p' := p1;
      GatedAtCurrent(g, client.g, p, p', task, unit);
      PassesAny(move, owner, task, unit, binding, snapshot, m, gate.gateId, gate.decidedAt);
      return Answer((task, unit, gate)), p';
    }

    // What follows from the verdict.
    method Act(client: RunClient, ghost p: Progress, m: ContextManifest, move: Gateway.RevalidatedMove,
               conversation: Conversation, user: Message, running: Run, task: Task, unit: RequestUnit, binding: InputBinding,
               link: RunTaskLink, state: FailureState) returns (r: Awaited<AgentRunResult>, ghost t: Option<Turn>)
      requires hide *; Holds(client) && client.g == p.Graph() && running.runId == client.id && p.running == running
      requires executor.host == host && Gatable(p, host.now) && MoveFits(p, move) && (p.hook.Some? <==> hook)
      requires Actable(p, snapshot, m, conversation, user, task, unit, binding, link, host.now, host.nextId)
      modifies client`g, client`cursor, store, host, executor.port`asked, state`committed, state`running, state`task
      ensures Holds(client) && old(store.past) <= store.past && old(host.now) <= host.now
      ensures r.Raised? ==> Left(old(client.cursor), client.cursor, old(executor.port.asked))
      ensures TaskCursor(old(state.task), state.task, task.taskId)
      ensures AskedAtMostOnce(old(executor.port.asked), executor.port.asked, conversation.owner, binding)
      ensures executor.port.asked != old(executor.port.asked) ==>
                LetThrough(move, conversation.owner, binding, snapshot, m)
      ensures r.Answer? ==>
                && t.Some? && EndedSomehow(client.g, t.value, r.value)
                && t.value.work.Some? && Worked(p, t.value) && Acted(t.value, executor.port.reply, planned)
                && (store.AlwaysCalm() ==>
                      (t.value.work.value.gate.accepted <==>
                         !hook && Passes(move, conversation.owner, task, unit, binding, snapshot, m)))
                && (host.strict ==> MovedAfterPresentation(t.value))
                && client.Current()
                && state.committed == Some(r.value) && state.running.None?
      ensures r.Raised? ==>
                && client.Current() && (Unfinished(client.g) || FinishedTurn(client.g))
                && state.committed == old(state.committed) && state.running == old(state.running)
      ensures old(client.Calm()) && (hook || Completes(snapshot, running, budgetMs, executor.port.reply, planned, host.now)) ==>
                r.Answer?
    {
      hide RuntimeStore.AlwaysCalm, CursorOf, Held, Claimed, IdsBelow, RuntimeStore.Valid, Progress.Graph, Progress.Ok,
        Gatable, MoveFits, Actable, AtCurrent, TaskCursor, LetThrough, Ended, Worked, Acted, MovedAfterPresentation,
        FinishedTurn, Unfinished, Judged, Callable, Respondable, Progress.ToolPart, Answers, WorkOf, WorkKeeps,
        Endable, SeenRef, TargetOf, MapResult, Progress.RunningOk, EndsAfter, EndedSomehow, Completes, SoundPolicy,
        ReplyTold, Passes, History, Allowed;
      t := None;
      ActableFacts(p, snapshot, m, conversation, user, task, unit, binding, link, host.now, host.nextId);
      ghost var began := host.now;
      var judged, p1 :- Judge(client, p, m, move, conversation.owner, task.taskId, unit.unitId, binding, state);
      var (currentTask, currentUnit, gate) := judged;
      if store.AlwaysCalm() {
        VerdictExactly(client.g, p, p1, move, conversation.owner, currentTask, currentUnit, snapshot, gate, began);
      }
      if !gate.accepted {
        RejectedParts(client.g, p, p1, move, conversation.owner, currentTask, currentUnit, snapshot, gate, began, host.now);
        TableRow(running.runId, GateRejected);
        r, t := FinishWithTask(client, p1, conversation, running, currentTask, currentUnit, link, GateRejected, TaskBlocked,
                               gate.gateId, None, None, None, state);
        if r.Answer? { RejectedActed(p, p1, t.value, client.g, r.value, executor.port.reply, planned); }
        return;
      }
      AcceptedParts(client.g, p, p1, snapshot, m, conversation, gate, move, currentTask, currentUnit, binding, began);
      r, t := Call(client, p1, m, gate, conversation, user, running, currentTask, currentUnit, binding, link, state);
      if r.Answer? { RespondedActed(p, p1, t.value, executor.port.reply, planned); }
    }

    // The accepted move: the call, and the response to its outcome.
    method Call(client: RunClient, ghost p: Progress, m: ContextManifest, gate: GateDecision, conversation: Conversation,
                user: Message, running: Run, task: Task, unit: RequestUnit, binding: InputBinding, link: RunTaskLink,
                state: FailureState) returns (r: Awaited<AgentRunResult>, ghost t: Option<Turn>)
      requires hide *; Holds(client) && client.g == p.Graph() && running.runId == client.id && p.running == running
      requires executor.host == host && Callable(p, snapshot, m, gate, conversation.owner, task, unit, binding)
      requires p.conversation == conversation && p.user == user && link == p.ActiveLink() && m.toolsetHash == snapshot.hash
      requires m.manifestId < host.nextId && p.record.createdAt <= host.now && running.startedAt <= host.now
      modifies client`g, client`cursor, store, host, executor.port`asked, state`committed, state`running
      ensures Holds(client) && old(store.past) <= store.past && old(host.now) <= host.now
      ensures r.Raised? ==> Left(old(client.cursor), client.cursor, old(executor.port.asked))
      ensures AskedAtMostOnce(old(executor.port.asked), executor.port.asked, conversation.owner, binding)
      ensures r.Answer? ==>
                && t.Some? && EndedSomehow(client.g, t.value, r.value)
                && t.value.work.Some? && CallKeeps(p, t.value) && ReplyTold(t.value, executor.port.reply, planned)
                && (host.strict ==> MovedAfterPresentation(t.value))
                && client.Current()
                && state.committed == Some(r.value) && state.running.None?
      ensures r.Raised? ==>
                && client.Current() && (Unfinished(client.g) || FinishedTurn(client.g))
                && state.committed == old(state.committed) && state.running == old(state.running)
      ensures old(client.Calm()) && Completes(snapshot, running, budgetMs, executor.port.reply, planned, host.now) ==> r.Answer?
    {
      hide RuntimeStore.AlwaysCalm, CursorOf, Held, Claimed, IdsBelow, RuntimeStore.Valid, Progress.Graph, Progress.Ok,
        Ended, MovedAfterPresentation, FinishedTurn, Unfinished, Callable, Respondable, Progress.ToolPart, Answers,
        WorkKeeps, MapResult, EndedSomehow, Completes, SoundPolicy, ReplyTold, ReplyEndsTurn, CallKeeps, WithinBudget,
        History, Allowed;
      t := None;
      CompletesParts(snapshot, running, budgetMs, executor.port.reply, planned);
      var execution, p1 :- RunTool(client, p, m, gate, conversation.owner, running, task, unit, binding);
      ToolIsRespondable(p, p1, snapshot, user, task, unit, m, gate, conversation.owner, binding, host.now, host.nextId);
      r, t := Respond(client, p1, conversation, user, running, task, unit, link, execution, state);
      if r.Answer? { CallIsKept(p, p1, t.value); }
    }

    // The Task graph, the decision in the trace, and the move checked against it.
    method Establish(client: RunClient, owner: string, conversation: Conversation, user: Message, running: Run,
                     m: ContextManifest, ghost es: seq<TraceEvent>, d: Decision, ghost input: ModelInput, state: FailureState)
      returns (r: Awaited<Gateway.RevalidatedMove>, ghost p: Progress)
      requires hide *; Holds(client) && client.g == OpenGraph(conversation, running, user, m, es) && running.runId == client.id
      requires OpenedWith(running.runId, user, m, es) && BegunWith(owner, user.content, conversation, user, running, host.now)
      requires input == ModelInput(running.runId, user.messageId, user.content, []) && proposed.Proposal?
      requires DecidedFrom(input, user, owner, proposed.output, d)
      requires running.startedAt <= d.closure.record.createdAt && state.link.None? && state.task.None?
      requires state.running == Some(running) && state.owner == Some(owner)
      requires StateFits(client.cursor, state.running, state.link, state.task, state.owner) && client.cursor.open == {}
      modifies client`g, client`cursor, store, host, state`link, state`task
      ensures Holds(client) && old(store.past) <= store.past
      ensures StateFits(client.cursor, state.running, state.link, state.task, state.owner) && client.cursor.open == {}
      ensures old(host.now) <= host.now && old(host.nextId) <= host.nextId
      ensures d.Routable? && CursorOk(state.link, state.task, client.id)
      ensures r.Answer? ==>
                && client.g == p.Graph() && Established(p, conversation, user, running, m, d, r.value)
                && state.link == Some(p.ActiveLink()) && state.task == Some(p.task)
      ensures r.Raised? ==> client.Current() && Unfinished(client.g)
      ensures old(client.Calm()) && d.move.kind.CallTool? ==> r.Answer? && client.Calm()
    {
      hide RuntimeStore.AlwaysCalm, CursorOf, Held, Claimed, IdsBelow, RuntimeStore.Valid, Progress.Graph, DecidedFrom,
        Decision.Valid, CreateGraphCommand.Valid, OpenGraph, OpenedWith, BegunWith, Unfinished, Progress.RunningOk,
        Progress.Creation, FirstFive, DecidedWith, Undecided, ComesFrom, NextMove.Valid, Gateway.Revalidate,
        Gateway.RevalidatedMove.Valid, Established, InitialProgress, History, Allowed;
      DecisionStarts(input, user, owner, proposed.output, d);
      BegunOwner(owner, conversation, user, running, host.now);
      p := InitialProgress(conversation, user, running, m, es, d);
      StartsUndecided(conversation, user, running, m, es, d, owner, host.now);
      var created :- CreateTaskGraph(client, owner, conversation, user, running, m, es, d, input, state);
      CreatedCursor(p);
      CreatedFits(p);
      var decided, five :- AppendInitialDecision(client, p, m, d);
      ghost var p5 := p.(decided := five);
      DecidedFive(p, p5, d);
      var move, p6 :- Revalidate(client, p5, m, d);
      p := p6;
      IsEstablished(InitialProgress(conversation, user, running, m, es, d), p, conversation, user, running, m, es, d, move, owner, input,
                    proposed.output);
      return Answer(move), p;
    }

    // The established graph is put to the hook and the gate, and what follows ends the turn.
    method Follow(client: RunClient, ghost p: Progress, owner: string, conversation: Conversation, user: Message, running: Run,
                  m: ContextManifest, ghost es: seq<TraceEvent>, d: Decision, move: Gateway.RevalidatedMove,
                  ghost input: ModelInput, state: FailureState) returns (r: Awaited<AgentRunResult>, ghost t: Option<Turn>)
      requires hide *; Holds(client) && client.g == p.Graph() && running.runId == client.id && d.Routable? && proposed.Proposal?
      requires Established(p, conversation, user, running, m, d, move) && DecidedFrom(input, user, owner, proposed.output, d)
      requires OpenedWith(running.runId, user, m, es) && BegunWith(owner, user.content, conversation, user, running, host.now)
      requires input == ModelInput(running.runId, user.messageId, user.content, []) && executor.host == host
      requires running.startedAt <= d.closure.record.createdAt <= host.now
      requires m.registryVersion == snapshot.version && m.toolsetHash == snapshot.hash && m.manifestId < host.nextId
      requires state.link == Some(p.ActiveLink()) && state.task == Some(p.task) && CursorOk(state.link, state.task, client.id)
      requires StateFits(client.cursor, state.running, state.link, state.task, state.owner) && client.cursor.open == {}
      modifies client`g, client`cursor, store, host, executor.port`asked, state`committed, state`running, state`task
      ensures r.Raised? ==> Stopped(client, state, old(executor.port.asked))
      ensures Holds(client) && old(store.past) <= store.past && old(host.now) <= host.now
      ensures CursorOk(state.link, state.task, client.id)
      ensures AskedSoundly(old(executor.port.asked), executor.port.asked, owner, user.content, proposed.output)
      ensures r.Answer? ==>
                && t.Some? && EndedSomehow(client.g, t.value, r.value) 
                && t.value.work.Some? && WorksOut(t.value.work.value, d) && (t.value.work.value.hook.Some? <==> hook)
                && t.value.conversation == conversation && t.value.user == user
                && Acted(t.value, executor.port.reply, planned) && (host.strict ==> MovedAfterPresentation(t.value))
                && (store.AlwaysCalm() && Gateway.Built(snapshot) ==>
                      (t.value.work.value.gate.accepted <==>
                         !hook && Gateway.Offers(snapshot) && AsksAsNamed(proposed.output)))
                && client.Current()
                && state.committed == Some(r.value) && state.running.None?
      ensures r.Raised? ==>
                && client.Current() && (Unfinished(client.g) || FinishedTurn(client.g))
                && state.committed == old(state.committed) && state.running == old(state.running)
      ensures && old(client.Calm())
              && (hook || Completes(snapshot, running, budgetMs, executor.port.reply, planned, host.now))
              ==> r.Answer?
    {
      hide RunClient.Valid, RuntimeStore.AlwaysCalm, CursorOf, StateFits, CallLeft, Held, Claimed, IdsBelow,
        RuntimeStore.Valid, Progress.Graph, DecidedFrom, OpenedWith, BegunWith, Unfinished, Established, Gatable,
        Actable, MoveFits, LetThrough, EndedSomehow, Worked, WorksOut, Acted, MovedAfterPresentation, FinishedTurn,
        TaskCursor, CursorOk, AskedSoundly, Completes, Progress.Ok, Gateway.Revalidate, History, Allowed,
        Decision.Valid, QuerySound, QuotesFound, ProjectedContext, ComesFrom, ModelOutput.Valid, NextMove.Valid,
        Gateway.Built, Gateway.Offers, AsksAsNamed, Passes;
      t := None;
      DecidedFacts(input, user, owner, proposed.output, d);
      NothingAsked(executor.port.asked, owner, user.content, proposed.output);
      BegunOwner(owner, conversation, user, running, host.now);
      ghost var asked := executor.port.asked;
      EstablishedParts(p, conversation, user, running, m, d, move, host.now);
      var hooked, p1 :- AfterRevalidationHook(client, p, d.graph.task, d.graph.unit);
      var link := RunTaskLink(client.id, d.graph.task.taskId, None, None);
      HookedActable(p, p1, snapshot, conversation, user, running, m, d, move, link, owner, host.now, host.nextId);
      ghost var before := client.cursor;
      r, t := Act(client, p1, m, move, conversation, user, running, d.graph.task, d.graph.unit, d.graph.binding, link, state);
      if r.Raised? && store.AlwaysCalm() {
        LeftFits(before, client.cursor, state.running, state.link, p.task, state.task, state.owner,
                 executor.port.asked != asked, executor.port.reply);
      }
      ActedCursor(p, state.task);
      AskedOnce(asked, executor.port.asked, input, user, owner, proposed.output, d, move, snapshot, m);
      if r.Answer? {
        WorkedOut(p1, t.value, d);
        if Gateway.Built(snapshot) { PassesExactly(input, user, owner, proposed.output, d, move, snapshot, m, es); }
      }
    }

    // A routable decision, carried through to the end of the turn.
    method Proceed(client: RunClient, owner: string, conversation: Conversation, user: Message, running: Run,
                   m: ContextManifest, ghost es: seq<TraceEvent>, d: Decision, ghost input: ModelInput, state: FailureState)
      returns (r: Awaited<AgentRunResult>, ghost t: Option<Turn>)
      requires hide *; Holds(client) && client.g == OpenGraph(conversation, running, user, m, es) && running.runId == client.id
      requires OpenedWith(running.runId, user, m, es) && BegunWith(owner, user.content, conversation, user, running, host.now)
      requires input == ModelInput(running.runId, user.messageId, user.content, []) && proposed.Proposal?
      requires DecidedFrom(input, user, owner, proposed.output, d) && executor.host == host
      requires running.startedAt <= d.closure.record.createdAt <= host.now && state.link.None? && state.task.None?
      requires m.registryVersion == snapshot.version && m.toolsetHash == snapshot.hash && m.manifestId < host.nextId
      requires state.running == Some(running) && state.owner == Some(owner)
      requires StateFits(client.cursor, state.running, state.link, state.task, state.owner) && client.cursor.open == {}
      modifies client`g, client`cursor, store, host, executor.port`asked, state`committed, state`running, state`link, state`task
      ensures r.Raised? ==> Stopped(client, state, old(executor.port.asked))
      ensures Holds(client) && old(store.past) <= store.past && old(host.now) <= host.now
      ensures CursorOk(state.link, state.task, client.id)
      ensures AskedSoundly(old(executor.port.asked), executor.port.asked, owner, user.content, proposed.output)
      ensures r.Answer? ==>
                && t.Some? && EndedSomehow(client.g, t.value, r.value) && d.Routable?
                && t.value.work.Some? && WorksOut(t.value.work.value, d) && (t.value.work.value.hook.Some? <==> hook)
                && t.value.conversation == conversation && t.value.user == user
                && Acted(t.value, executor.port.reply, planned) && (host.strict ==> MovedAfterPresentation(t.value))
                && (store.AlwaysCalm() && Gateway.Built(snapshot) ==>
                      (t.value.work.value.gate.accepted <==>
                         !hook && Gateway.Offers(snapshot) && AsksAsNamed(proposed.output)))
                && client.Current()
                && state.committed == Some(r.value) && state.running.None?
      ensures r.Raised? ==>
                && client.Current() && (Unfinished(client.g) || FinishedTurn(client.g))
                && state.committed == old(state.committed) && state.running == old(state.running)
      ensures && old(client.Calm()) && proposed.output.move.kind.CallTool?
              && (hook || Completes(snapshot, running, budgetMs, executor.port.reply, planned, host.now))
              ==> r.Answer?
    {
      hide RunClient.Valid, RuntimeStore.AlwaysCalm, CursorOf, StateFits, Held, Claimed, IdsBelow, RuntimeStore.Valid,
        Progress.Graph, DecidedFrom, OpenGraph, OpenedWith, BegunWith, Unfinished, Established, EndedSomehow, WorksOut,
        Acted, MovedAfterPresentation, FinishedTurn, CursorOk, AskedSoundly, Completes, History, Allowed,
        Decision.Valid, QuerySound, QuotesFound, ProjectedContext, ModelOutput.Valid, NextMove.Valid, Gateway.Built,
        Gateway.Offers, AsksAsNamed;
      t := None;
      DecidedFacts(input, user, owner, proposed.output, d);
      NothingAsked(executor.port.asked, owner, user.content, proposed.output);
      OpenLater(owner, conversation, user, running, host.now);
      var move, p :- Establish(client, owner, conversation, user, running, m, es, d, input, state);
      r, t := Follow(client, p, owner, conversation, user, running, m, es, d, move, input, state);
    }

    // A proposal is reduced to a decision, and the decision is carried through.
    method Consider(client: RunClient, owner: string, conversation: Conversation, user: Message, running: Run,
                    m: ContextManifest, ghost es: seq<TraceEvent>, state: FailureState)
      returns (r: Awaited<AgentRunResult>, ghost t: Option<Turn>)
      requires hide *; Holds(client) && client.g == OpenGraph(conversation, running, user, m, es) && running.runId == client.id
      requires OpenedWith(running.runId, user, m, es) && BegunWith(owner, user.content, conversation, user, running, host.now)
      requires executor.host == host && proposed.Proposal? && proposed.output.Valid()
      requires state.link.None? && state.task.None? && state.committed.None?
      requires m.registryVersion == snapshot.version && m.toolsetHash == snapshot.hash && m.manifestId < host.nextId
      requires state.running == Some(running) && state.owner == Some(owner)
      requires StateFits(client.cursor, state.running, state.link, state.task, state.owner) && client.cursor.open == {}
      modifies client`g, client`cursor, store, host, executor.port`asked, state`committed, state`running, state`link, state`task
      ensures r.Raised? ==> Stopped(client, state, old(executor.port.asked))
      ensures Holds(client) && old(store.past) <= store.past && old(host.now) <= host.now
      ensures CursorOk(state.link, state.task, client.id)
      ensures AskedInTurn(old(executor.port.asked), executor.port.asked, owner, user.content, proposed)
      ensures client.Current() && (Unfinished(client.g) || FinishedTurn(client.g))
      ensures r.Answer? ==>
                && t.Some? && EndedSomehow(client.g, t.value, r.value) && state.committed == Some(r.value) && state.running.None?
                && Explained(t.value, owner, user.content, proposed, hook, executor.port.reply, planned) && LetPass(t.value)
                && (host.strict ==> MovedAfterPresentation(t.value))
      ensures r.Raised? ==> state.committed.None? && state.running == Some(running)
      ensures && old(client.Calm()) && Cooperative(proposed, hook, snapshot, executor.port.reply, planned, old(host.nextId))
              && WithinBudget(running, budgetMs, host.now)
              ==> r.Answer?
    {
      hide RunClient.Tracks, RuntimeStore.AlwaysCalm, CursorOf, Held, Claimed, IdsBelow, RuntimeStore.Valid, OpenGraph,
        OpenedWith, BegunWith, Unfinished, EndedSomehow, Ended, Explained, Acted, MovedAfterPresentation, FinishedTurn,
        CursorOk, AskedInTurn, AskedSoundly, Completes, DecidedFrom, Unroutable, WorksOut, Provenance, ModelOutput.Valid,
        Cooperative, History, Allowed, StateFits, MapResult, Gateway.Built, Gateway.Offers, AsksAsNamed;
      t := None;
      OpenStarts(owner, conversation, running, user, m, es, host.now);
      NothingAskedYet(executor.port.asked, owner, user.content, proposed, client.id);
      OpenLater(owner, conversation, user, running, host.now);
      if Cooperative(proposed, hook, snapshot, executor.port.reply, planned, old(host.nextId)) {
        CooperativeParts(proposed, hook, snapshot, executor.port.reply, planned, old(host.nextId), running, budgetMs);
      }
      var understood, input := Understand(owner, user, running);
      if understood.Raised? {
        client.Abandon();
        return Raised(understood.signal), t;
      }
      BelowGrows(client.g, old(host.nextId), host.nextId);
      if understood.value.None? {
        r, t := FinishWithoutTask(client, conversation, user, running, m, es, InputInvalid, state);
        if r.Answer? {
          BareExplained(t.value, client.g, r.value, InputInvalid, conversation, user, running, proposed, hook,
                        executor.port.reply, planned);
        }
        return;
      }
      ghost var asked := executor.port.asked;
      r, t := Proceed(client, owner, conversation, user, running, m, es, understood.value.value, input, state);
      AskedWithin(asked, executor.port.asked, owner, user.content, proposed);
      if r.Answer? {
        WorkExplained(t.value, client.g, r.value, conversation, user, running, proposed, hook, executor.port.reply, planned,
                      understood.value.value, input);
      }
    }

    // What the model makes of the message, and where that leads.
    method Interpret(client: RunClient, owner: string, conversation: Conversation, user: Message, running: Run,
                     m: ContextManifest, ghost es: seq<TraceEvent>, state: FailureState)
      returns (r: Awaited<AgentRunResult>, ghost t: Option<Turn>)
      requires hide *; Holds(client) && client.g == OpenGraph(conversation, running, user, m, es) && running.runId == client.id
      requires OpenedWith(running.runId, user, m, es) && BegunWith(owner, user.content, conversation, user, running, host.now)
      requires executor.host == host && (proposed.Proposal? ==> proposed.output.Valid())
      requires state.link.None? && state.task.None? && state.committed.None?
      requires m.registryVersion == snapshot.version && m.toolsetHash == snapshot.hash && m.manifestId < host.nextId
      requires state.running == Some(running) && state.owner == Some(owner)
      requires StateFits(client.cursor, state.running, state.link, state.task, state.owner) && client.cursor.open == {}
      modifies client`g, client`cursor, store, host, executor.port`asked, state`committed, state`running, state`link, state`task
      ensures r.Raised? ==> Stopped(client, state, old(executor.port.asked))
      ensures Holds(client) && old(store.past) <= store.past && old(host.now) <= host.now
      ensures CursorOk(state.link, state.task, client.id)
      ensures AskedInTurn(old(executor.port.asked), executor.port.asked, owner, user.content, proposed)
      ensures client.Current() && (Unfinished(client.g) || FinishedTurn(client.g))
      ensures r.Answer? ==>
                && t.Some? && EndedSomehow(client.g, t.value, r.value) && state.committed == Some(r.value) && state.running.None?
                && Explained(t.value, owner, user.content, proposed, hook, executor.port.reply, planned) && LetPass(t.value)
                && (host.strict ==> MovedAfterPresentation(t.value))
      ensures r.Raised? ==> state.committed.None? && state.running == Some(running)
      ensures && old(client.Calm()) && Cooperative(proposed, hook, snapshot, executor.port.reply, planned, old(host.nextId))
              && WithinBudget(running, budgetMs, host.now)
              ==> r.Answer?
    {
      hide RunClient.Tracks, RuntimeStore.AlwaysCalm, CursorOf, Held, Claimed, IdsBelow, RuntimeStore.Valid, OpenGraph,
        OpenedWith, BegunWith, Unfinished, EndedSomehow, Ended, Explained, MovedAfterPresentation, FinishedTurn, CursorOk,
        AskedInTurn, Provenance, ModelOutput.Valid, Cooperative, History, Allowed, StateFits, MapResult, Gateway.Built,
        Gateway.Offers, AsksAsNamed;
      t := None;
      OpenStarts(owner, conversation, running, user, m, es, host.now);
      NothingAskedYet(executor.port.asked, owner, user.content, proposed, client.id);
      if Cooperative(proposed, hook, snapshot, executor.port.reply, planned, old(host.nextId)) {
        CooperativeParts(proposed, hook, snapshot, executor.port.reply, planned, old(host.nextId), running, budgetMs);
      }
      var waited := client.Wait();
      var proposal := if waited.Raised? then ProposalRaises(waited.signal) else proposed;
      if proposal.ProposalRaises? {
        client.Abandon();
        return Raised(proposal.signal), t;
      }
      if proposal.Proposal? {
        r, t := Consider(client, owner, conversation, user, running, m, es, state);
        return;
      }
      var reason := if proposal.CandidateInvalid? then InputInvalid else ProviderProtocolError;
      r, t := FinishWithoutTask(client, conversation, user, running, m, es, reason, state);
      if r.Answer? {
        BareExplained(t.value, client.g, r.value, reason, conversation, user, running, proposed, hook, executor.port.reply,
                      planned);
      }
    }

    // The turn proper.  Whatever goes wrong is left to the caller to close.
    method HandleTurn(owner: string, text: string, state: FailureState)
      returns (r: Awaited<AgentRunResult>, client: RunClient?, ghost t: Option<Turn>)
      requires hide *; store.Valid() && executor.host == host && (proposed.Proposal? ==> proposed.output.Valid())
      requires state.running.None? && state.committed.None? && state.link.None? && state.task.None?
      modifies store, host, executor.port`asked, state
      ensures store.Valid() && old(store.past) <= store.past && old(host.now) <= host.now
      ensures client == null ==> r.Raised? && state.running.None? && state.committed.None?
      ensures old(store.AlwaysCalm() && forall k :: k in store.world ==> k < host.nextId) ==> client != null
      ensures client != null ==>
                && fresh(client) && Holds(client) && CursorOk(state.link, state.task, client.id)
                && RunCursor(state.running, client.id, host.now)
                && client.Current() && (Unfinished(client.g) || FinishedTurn(client.g))
      ensures client != null && r.Raised? ==> state.committed.None? && Stopped(client, state, old(executor.port.asked))
      ensures r.Answer? ==> state.committed == Some(r.value)
      ensures state.committed.Some? ==>
                && client != null && t.Some? && EndedSomehow(client.g, t.value, state.committed.value)
                && Explained(t.value, owner, text, proposed, hook, executor.port.reply, planned) && LetPass(t.value)
                && (host.strict ==> MovedAfterPresentation(t.value))
      ensures AskedInTurn(old(executor.port.asked), executor.port.asked, owner, text, proposed)
      ensures && old(store.AlwaysCalm() && forall k :: k in store.world ==> k < host.nextId)
              && Cooperative(proposed, hook, snapshot, executor.port.reply, planned, old(host.nextId))
              && InTime(budgetMs, old(host.now), host.now)
              ==> r.Answer?
    {
      hide RuntimeStore.AlwaysCalm, CursorOf, Held, Claimed, IdsBelow, RuntimeStore.Valid, OpenGraph, OpenedWith, BegunWith,
        Unfinished, EndedSomehow, Explained, MovedAfterPresentation, FinishedTurn, CursorOk, AskedInTurn,
        Cooperative, InTime, WithinBudget, ModelOutput.Valid, RunCursor, History, Allowed;
      client, t := null, None;
      NothingAskedYet(executor.port.asked, owner, text, proposed, 0);
      var begun := Begin(owner, text, state);
      if begun.Raised? { return Raised(begun.signal), client, t; }
      var (mine, conversation, user, running) := begun.value;
      client := mine;
      BegunCursor(owner, text, conversation, user, running, host.now);
      NothingAskedYet(executor.port.asked, owner, text, proposed, client.id);
      var announced, es := Announce(client, conversation, user, running);
      if announced.Raised? { return Raised(announced.signal), client, t; }
      CooperativeLater(proposed, hook, snapshot, executor.port.reply, planned, old(host.nextId), host.nextId);
      r, t := Interpret(client, owner, conversation, user, running, announced.value, es, state);
      BudgetLeft(running, budgetMs, old(host.now), host.now);
    }

    // The Task of the cursor as it is now; a failed reload keeps the cached one.
    method ReloadTask(client: RunClient, state: FailureState)
      requires hide *; Holds(client) && client.Current() && CursorOk(state.link, state.task, client.id)
      requires state.link.Some? && state.task.Some?
      modifies client`g, store, state`task
      ensures Holds(client) && old(store.past) <= store.past && client.Current()
      ensures CursorOk(state.link, state.task, client.id) && state.task.Some?
      ensures KeptUnlessClaimed(old(client.g), client.g)
      ensures store.AlwaysCalm() ==> client.g == old(client.g)
      ensures && store.AlwaysCalm() && state.owner == Some(client.g.conversation.owner)
              && old(state.task.value.taskId) in client.g.tasks ==>
                state.task == Some(client.g.tasks[old(state.task.value.taskId)])
    {
      hide RuntimeStore.AlwaysCalm, CursorOf, IdsBelow, RuntimeStore.Valid, Claimed, History, Allowed;
      if state.owner.None? { return; }
      var current := client.ReloadTask(state.owner.value, state.task.value.taskId);
      if current.Answer? && current.value.Some? { state.task := current.value; }
    }

    // The write that ends the Run as FAILED, answered for or not.
    method EndFailed(client: RunClient, c: FinalizeRunCommand)
      requires hide *; Holds(client) && client.Current() && c.Valid() && c.terminal.status.RunFailed?
      modifies client`g, client`cursor, store
      ensures Holds(client) && old(store.past) <= store.past && client.Current()
      ensures || client.g == old(client.g) || client.g == ApplyWrite(old(client.g), Finalize(c))
              || (Claimed(client.g) && old(client.g).run.Active())
      ensures store.AlwaysCalm() ==> client.g == ApplyWrite(old(client.g), Finalize(c))
    {
      hide RuntimeStore.AlwaysCalm, CursorOf, RuntimeStore.Valid, Claimed, Lands, ApplyWrite, Sendable, Inv, History,
        Allowed, Written, SystemInv, FinalizeRunCommand.Valid;
      FailureIsSendable(client.g, c);
      var applied := client.Move(Finalize(c));
      store.Sound(client.id);
      client.g := store.world[client.id].g;
    }

    // Closes the Run as FAILED if nothing ended it yet; what is committed stays.
    method FinalizeFailedRunAfterError(client: RunClient, state: FailureState)
      requires hide *; Holds(client) && client.Current()
      requires CursorOk(state.link, state.task, client.id) && RunCursor(state.running, client.id, host.now)
      modifies client`g, client`cursor, store, host`now, state`task
      ensures Holds(client) && old(store.past) <= store.past && client.Current()
      ensures old(host.now) <= host.now
      ensures ClosedOrKept(old(client.g), client.g)
      ensures store.AlwaysCalm() && Closable(old(client.g), state.running, state.link, old(state.task), state.owner) ==>
                client.g.run.status.RunFailed?
      ensures store.AlwaysCalm() && CursorOf(old(client.g)).open != {} ==> client.g == old(client.g)
    {
      hide RuntimeStore.AlwaysCalm, CursorOf, IdsBelow, RuntimeStore.Valid, Claimed, RunCursor, NoActiveCall,
        FinalizeRunCommand.Valid, Lands, ApplyWrite, Sendable, Held, Inv, History, Allowed,
        FinalizeRunCommand.RunsClose, FinalizeRunCommand.LinksClose, FinalizeRunCommand.TasksClose,
        FinalizeRunCommand.CompletedIsWhole, FinalizeRunCommand.FailedIsBare, Written, SystemInv;
      ghost var g0 := client.g;
      KeptIsClosedOrKept(g0);
      if state.running.None? || state.link.Some? != state.task.Some? {
        NotClosable(g0, state.running, state.link, state.task, state.owner);
        return;
      }
      var running := state.running.value;
      var expected, terminal, tasks := [], [], [];
      if state.link.Some? {
        ReloadTask(client, state);
        var link, task := state.link.value, state.task.value;
        expected, terminal, tasks := [link], [link.(result := Some(task.version))], [task];
      }
      var completedAt := host.Clock();
      var failed := running.(status := RunFailed, completedAt := Some(completedAt), stopReason := None);
      var c := FinalizeRunCommand(running, failed, expected, terminal, tasks, None, None, None, []);
      FailureIsValid(c, state.running, state.link, state.task, client.id, old(host.now), completedAt);
      ghost var g1 := client.g;
      FailureIsSendable(g1, c);
      if CursorOf(g1).open != {} { OpenRefuses(g1, c); }
      if g1 == g0 && Closable(g0, state.running, state.link, old(state.task), state.owner)
         && (state.link.Some? ==> state.link.value.taskId in g0.tasks && state.task == Some(g0.tasks[state.link.value.taskId])) {
        FailureLands(g0, state.running, state.link, old(state.task), state.task, state.owner, c);
      }
      EndFailed(client, c);
      FailureCloses(g0, g1, client.g, c);
    }

    // One message, from the customer to a result or a closed Run.  A result always
    // stands for a stored turn, and a Run that completed is never touched again,
    // not even when a cancellation hid its completion from the handler.  When nothing
    // disturbs the store, a turn that raises has closed its Run as FAILED, except when
    // the order service broke off with an exception: then the call stays open, the
    // store refuses the closure, and the Run stays RUNNING.
    method Handle(owner: string, text: string)
      returns (r: Awaited<AgentRunResult>, ghost runId: Option<Id>, ghost t: Option<Turn>)
      requires hide *; store.Valid() && executor.host == host && (proposed.Proposal? ==> proposed.output.Valid())
      modifies store, host, executor.port`asked
      ensures store.Valid() && old(store.past) <= store.past
      ensures runId.Some? ==> runId.value in store.world && CompletedIsFinished(store.world[runId.value].g)
      ensures r.Answer? ==>
                && runId.Some? && t.Some? && EndedSomehow(store.world[runId.value].g, t.value, r.value)
                && Explained(t.value, owner, text, proposed, hook, executor.port.reply, planned) && LetPass(t.value)
                && (host.strict ==> MovedAfterPresentation(t.value))
      ensures store.AlwaysCalm() && r.Raised? && runId.Some? ==>
                var g := store.world[runId.value].g;
                if executor.port.asked != old(executor.port.asked) && executor.port.reply == OrderRaises(Exception)
                then g.run.status.RunRunning? && !NoActiveCall(g)
                else g.run.status.RunFailed?
      ensures old(store.AlwaysCalm() && forall k :: k in store.world ==> k < host.nextId) ==> runId.Some?
      ensures AskedInTurn(old(executor.port.asked), executor.port.asked, owner, text, proposed)
      ensures && old(store.AlwaysCalm() && forall k :: k in store.world ==> k < host.nextId)
              && Cooperative(proposed, hook, snapshot, executor.port.reply, planned, old(host.nextId))
              && r.Raised?
              ==> !InTime(budgetMs, old(host.now), host.now)
    {
      hide RuntimeStore.AlwaysCalm, CursorOf, Held, Claimed, IdsBelow, RuntimeStore.Valid, EndedSomehow, Explained,
        MovedAfterPresentation, FinishedTurn, CursorOk, AskedInTurn, Cooperative, InTime, RunCursor,
        ModelOutput.Valid, Unfinished, ClosedOrKept, Closable, CompletedIsFinished, History, Allowed, StateFits,
        NoActiveCall;
      var state := new FailureState();
      var outcome, client, turn := HandleTurn(owner, text, state);
      t := turn;
      runId := if client == null then None else Some(client.id);
      if client != null { FinishedStays(client.g); }
      if outcome.Raised? && outcome.signal.Exception? && state.committed.Some? {
        return Answer(state.committed.value), runId, t;
      }
      if outcome.Raised? && state.committed.None? && client != null {
        ghost var g := client.g;
        InTimeEarlier(budgetMs, old(host.now), host.now);
        if store.AlwaysCalm() {
          FitsCloses(g, state.running, state.link, state.task, state.owner);
          FitsRuns(g, state.running, state.link, state.task, state.owner, client.id, host.now);
        }
        FinalizeFailedRunAfterError(client, state);
        ClosedIsFinished(g, client.g);
      }
      return outcome, runId, t;
    }
  }
}
