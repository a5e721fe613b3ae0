// Two points of a turn at which the process may stop: one that recovery makes whole,
// and one that it cannot.

module CrashPoints {
  import opened Records
  import opened Commands
  import opened RecoveryCommands
  import opened RunStore
  import opened Protocol
  import opened Evidence
  import opened Startup
  import opened Turns
  import opened TurnTrace
  import opened TurnProgress
  import opened ReadExecutor
  import opened RunSteps
  import opened RecoveredEvidence
  import opened VersionInForce
  import DeltaChains

  // ----- Before there is a Task -----

  predicate Opening(e: TraceEvent) {
    e.kind.MessageAccepted? || e.kind.RunStarted? || e.kind.RequestUnderstandingStarted? || e.kind.ContextManifestRecorded?
  }

  lemma OpeningKinds(r: Id, user: Message, m: ContextManifest, es: seq<TraceEvent>)
    requires OpenedWith(r, user, m, es)
    ensures forall e :: e in es ==> Opening(e) && e.bindingRefs == [] && e.inputBindingRef.None? && e.observationRef.None?
    ensures TraceMessages(es) == {user.messageId}
    ensures forall e :: e in es && e.toolsetHash.Some? ==> e.toolsetHash.value == m.toolsetHash
  {
    assert es[0] in es && es[0].messageRef == Some(user.messageId);
  }

  lemma OpenedEvents(conversation: Conversation, run: Run, user: Message, m: ContextManifest, es: seq<TraceEvent>)
    requires OpenedWith(run.runId, user, m, es)
    ensures forall i :: 0 <= i < |es| ==> EventCloses(OpenGraph(conversation, run, user, m, es), es[i])
  {
  }

  lemma NoneReached(refs: set<Id>)
    requires refs == {}
    ensures ExactFamily(map[], refs)
  {
  }

  lemma OpenedReferences(conversation: Conversation, run: Run, user: Message, m: ContextManifest, es: seq<TraceEvent>)
    requires OpenedWith(run.runId, user, m, es)
    ensures ReferencesExact(Evidence(OpenGraph(conversation, run, user, m, es), map[user.messageId := user], {m.toolsetHash}))
  {
    hide OpenedWith, ExactFamily;
    OpeningKinds(run.runId, user, m, es);
    FirstManifest(run.runId, user, m, es);
    var g := OpenGraph(conversation, run, user, m, es);
    OpenedSets(conversation, run, user, m, es);
    hide ReferencedMessages, ReferencedBindings, ReferencedObservations, ReferencedArtifacts;
    assert BindingChains(g.bindings) == map[] && ObservationChains(g.observations) == map[];
    NoneReached({});
  }

  lemma OpenedSets(conversation: Conversation, run: Run, user: Message, m: ContextManifest, es: seq<TraceEvent>)
    requires OpenedWith(run.runId, user, m, es)
    ensures var g := OpenGraph(conversation, run, user, m, es);
            && ReferencedMessages(g) == {user.messageId} && ReferencedArtifacts(g) == {m.toolsetHash}
            && ReferencedBindings(g) == {} && ReferencedObservations(g) == {}
  {
    hide OpenedWith, Opening, ReferencedMessages, ReferencedArtifacts, TraceMessages;
    OpeningKinds(run.runId, user, m, es);
    FirstManifest(run.runId, user, m, es);
    OpenedMessages(conversation, run, user, m, es);
    OpenedArtifacts(conversation, run, user, m, es);
  }

  lemma OpenedMessages(conversation: Conversation, run: Run, user: Message, m: ContextManifest, es: seq<TraceEvent>)
    requires TraceMessages(es) == {user.messageId} && m.messageRefs == [user.messageId]
    ensures ReferencedMessages(OpenGraph(conversation, run, user, m, es)) == {user.messageId}
  {
    hide TraceMessages;
  }

  lemma OpenedArtifacts(conversation: Conversation, run: Run, user: Message, m: ContextManifest, es: seq<TraceEvent>)
    requires forall e :: e in es && e.toolsetHash.Some? ==> e.toolsetHash.value == m.toolsetHash
    ensures ReferencedArtifacts(OpenGraph(conversation, run, user, m, es)) == {m.toolsetHash}
  {
    assert m.manifestId in OpenGraph(conversation, run, user, m, es).manifests;
  }

  lemma FirstManifest(r: Id, user: Message, m: ContextManifest, es: seq<TraceEvent>)
    requires OpenedWith(r, user, m, es)
    ensures m.messageRefs == [user.messageId] && m.observationRefs == [] && m.taskRef.None? && m.runId == r
  {
  }

  lemma OpenedRests(conversation: Conversation, run: Run, user: Message, m: ContextManifest, es: seq<TraceEvent>)
    requires OpenedWith(run.runId, user, m, es)
    requires run.conversationId == Some(conversation.conversationId) == Some(user.conversationId)
    ensures RestCloses(Evidence(OpenGraph(conversation, run, user, m, es), map[user.messageId := user], {m.toolsetHash}))
  {
    hide OpenedWith, EventCloses, ReferencesExact, OfKind, LifecycleOf, DeltaChains.EvidenceChains, CallCloses, UnitCloses,
      CompleteHistory, Accepted, AttemptsClosed, NormalizedAgrees, Viewed, CrossUnit, ChildCloses, FirstChildHasBase;
    OpeningKinds(run.runId, user, m, es);
    FirstManifest(run.runId, user, m, es);
    OpenedEvents(conversation, run, user, m, es);
    OpenedReferences(conversation, run, user, m, es);
    OfKindNone(es, ToolResultNormalized);
    OfKindNone(es, GateDecisionRecorded);
  }

  // A Run that was stopped before its Task was created closes once recovered, whenever that is.
  lemma StoppedBeforeTaskCloses(conversation: Conversation, run: Run, user: Message, m: ContextManifest, es: seq<TraceEvent>,
                                c: RecoveryCommand, at: Time)
    requires hide *; OpenedWith(run.runId, user, m, es) && user.conversationId == conversation.conversationId
    requires Inv(OpenGraph(conversation, run, user, m, es)) && AppliedTo(OpenGraph(conversation, run, user, m, es), c, at)
    ensures Closed(Evidence(RecoverWrites(OpenGraph(conversation, run, user, m, es), c), map[user.messageId := user], {m.toolsetHash}))
  {
    hide OpenedWith, AppliedTo, RecoverWrites, RestCloses, Closed, OfKind, TasksOk, UnitsOk, HistoryUnitsOk, LinksOk, ConvLinksOk,
      CallsOk, ObservationsOk, TraceOk, AssistantReplied;
    OpenedRests(conversation, run, user, m, es);
    OpeningKinds(run.runId, user, m, es);
    FirstManifest(run.runId, user, m, es);
    OfKindNone(es, ObservationRecorded);
    RecoveredRunCloses(OpenGraph(conversation, run, user, m, es), c, at, map[user.messageId := user], {m.toolsetHash});
  }

  // ----- Between the end of the call and its trace -----

  predicate CallFree(e: TraceEvent) { CallStatusOf(e.kind).None? }

  lemma DecidedKinds(p: Progress)
    requires DecidedWith(p.running.runId, p.manifest, p.record, p.delta, p.binding, p.unit, p.requested, p.decided)
    ensures forall e :: e in p.decided ==> CallFree(e)
  {
  }

  lemma GateKind(p: Progress, d: GateDecision, e: TraceEvent)
    requires p.GatePart(d, e)
    ensures CallFree(e)
  {
  }

  lemma NothingTraced(p: Progress, k: Id)
    requires p.Ok() && p.tool.None? && p.hook.None?
    ensures LifecycleOf(p.Trace(), k) == []
  {
    hide OpenedWith, DecidedWith, CreateGraphCommand.Valid, Progress.RunningOk, Progress.GatePart, LifecycleOf;
    OpeningKinds(p.running.runId, p.user, p.manifest, p.opening);
    DecidedKinds(p);
    if p.gate.Some? { GateKind(p, p.gate.value.0, p.gate.value.1); }
    assert forall e :: e in p.Trace() ==> CallFree(e);
    LifecycleNone(p.Trace(), k);
  }

  lemma EndedIsOver(running: ToolCall, attempt: Attempt, c: ToolCall, x: Attempt)
    requires EndedTogether(running, attempt, c, x)
    ensures c.callId == running.callId && !c.status.Active()
  {
    hide OutcomeFits, Attempt.Valid;
  }

  lemma ExecutedParts(g: RunGraph, g': RunGraph, a: Authorized, reply: OrderReply, x: Execution)
    requires Executed(g, g', a, reply, x)
    ensures x.terminal.Some? && x.attempt.Some?
    ensures g' == Recorded(g, x.terminal.value, x.attempt.value, x.observation)
    ensures EndedTogether(RunningCall(x.created), Attempt(x.terminal.value.callId, 1, x.attempt.value.startedAt, None, None, None),
                          x.terminal.value, x.attempt.value)
  {
    hide EndedTogether, Recorded, Canonical, OutcomeOf, CreatedCall, RunningCall;
  }

  lemma RecordedCall(g: RunGraph, c: ToolCall, x: Attempt, o: Option<Observation>)
    ensures var g' := Recorded(g, c, x, o); c.callId in g'.calls && g'.calls[c.callId] == c && g'.trace == g.trace
  {
  }

  lemma RecordedEnds(g: RunGraph, g': RunGraph, a: Authorized, reply: OrderReply, x: Execution)
    requires Executed(g, g', a, reply, x)
    ensures x.created.callId in g'.calls && !g'.calls[x.created.callId].status.Active() && g'.trace == g.trace
  {
    hide Executed, Recorded, EndedTogether;
    ExecutedParts(g, g', a, reply, x);
    var c, xt := x.terminal.value, x.attempt.value;
    EndedIsOver(RunningCall(x.created), Attempt(c.callId, 1, xt.startedAt, None, None, None), c, xt);
    RecordedCall(g, c, xt, x.observation);
  }

  // The call has ended and the handler was stopped before it wrote the call's events:
  // the recovered Run does not close, whatever is loaded with it.
  lemma StoppedBeforeToolTraceStaysOpen(p: Progress, a: Authorized, reply: OrderReply, x: Execution, g: RunGraph,
                                        c: RecoveryCommand, at: Time, messages: map<Id, Message>, artifacts: set<string>)
    requires hide *; p.Ok() && CallStage(p, a) && Executed(p.Graph(), g, a, reply, x) && Inv(g) && AppliedTo(g, c, at)
    ensures !Closed(Evidence(RecoverWrites(g, c), messages, artifacts))
  {
    hide Executed, Inv, AppliedTo, RecoverWrites, Closed, LifecycleOf, Progress.Ok, Progress.Trace;
    NothingTraced(p, x.created.callId);
    RecordedEnds(p.Graph(), g, a, reply, x);
    LostTraceStaysLost(g, c, at, x.created.callId, messages, artifacts);
  }
}
