// Every reachable state of a Run's records, and of all Runs together.

module Behaviours {
  import opened Records
  import opened Commands
  import opened RecoveryCommands
  import opened RunStore
  import opened Protocol
  import opened ProtocolRecovery

  lemma ObservationsWith(observations: map<Id, Observation>, sources: map<Id, Id>, calls: map<Id, ToolCall>,
                         o: Observation, callId: Id)
    requires ObservationsOk(observations, sources, calls) && callId in calls
    requires calls[callId].status.CallSucceeded? && calls[callId].effect.Read? && calls[callId].tool == "get_order"
    ensures ObservationsOk(observations[o.observationId := o], sources[o.observationId := callId], calls)
  {
  }

  lemma ObservedKeepsInv(g: RunGraph, c: SaveObservationCommand)
    requires Inv(g) && c.Valid() && ObserveMatches(g, c)
    ensures Inv(ObserveWrites(g, c.observation, c.source.callId))
  {
    hide RunOk, TasksOk, UnitsOk, HistoryUnitsOk, LinksOk, ConvLinksOk, CallsOk, TraceOk, AssistantReplied;
    ObservationsWith(g.observations, g.sources, g.calls, c.observation, c.source.callId);
  }

  lemma AuditKeepsInv(g: RunGraph, manifests: map<Id, ContextManifest>, gates: map<Id, GateDecision>)
    requires Inv(g)
    ensures Inv(AuditWrites(g, manifests, gates))
  {
  }

  // What a call write leaves of the calls and of the Observations that cite them.
  predicate CallEffect(g: RunGraph, call: ToolCall, more: seq<Attempt>) {
    && g.run.status.RunRunning?
    && CallsOk(g.run, g.tasks, g.units, g.calls[call.callId := call], g.attempts[call.callId := more])
    && ObservationsOk(g.observations, g.sources, g.calls[call.callId := call])
    && (call.callId in g.calls ==> CallKept(g.calls[call.callId], call))
  }

  lemma InsertCallEffect(g: RunGraph, c: CreateCallCommand)
    requires Inv(g) && c.Valid() && g.run.status.RunRunning? && CallFits(g, c.created) && c.created.callId !in g.calls
    ensures CallEffect(g, c.created, [])
  {
    InsertedCallOk(g, c);
    SourcesStaySettled(g, c.created);
  }

  lemma DispatchEffect(g: RunGraph, c: DispatchCallCommand)
    requires Inv(g) && c.Valid() && DispatchMatches(g, c)
    ensures CallEffect(g, c.running, [c.attempt])
  {
    DispatchedCallOk(g, c);
    SourcesStaySettled(g, c.running);
  }

  lemma FinishCallEffect(g: RunGraph, c: FinalizeCallCommand)
    requires Inv(g) && c.Valid() && FinishMatches(g, c)
    ensures CallEffect(g, c.terminal, [c.attempt])
  {
    FinishedCallOk(g, c);
    SourcesStaySettled(g, c.terminal);
  }

  lemma EffectKeepsInv(g: RunGraph, call: ToolCall, more: seq<Attempt>)
    requires Inv(g) && CallEffect(g, call, more)
    ensures Inv(CallWrites(g, call, more)) && Preserves(g, CallWrites(g, call, more))
  {
    CallChangeKeepsInv(g, call, more);
    CallWritePreserves(g, call, more);
  }

  // ----- What no write can undo -----

  predicate RunKept(g: RunGraph, g': RunGraph) {
    && g'.run.runId == g.run.runId && g'.conversation == g.conversation
    && (!g.run.status.RunCreated? ==> !g'.run.status.RunCreated?)
    && (!g.run.Active() ==>
          g'.run == g.run && g'.links == g.links && g'.tasks == g.tasks && g'.units == g.units
          && g'.history == g.history)
  }

  // Identity never changes, dispatch is never withdrawn, and a terminal call is final.
  predicate CallKept(c: ToolCall, c': ToolCall) {
    && c.SameIdentity(c')
    && (!c.status.CallCreated? ==> !c'.status.CallCreated? && c'.attemptCount == c.attemptCount)
    && (!c.status.Active() ==> c' == c)
  }

  predicate CallsKept(calls: map<Id, ToolCall>, calls': map<Id, ToolCall>) {
    forall c :: c in calls ==> c in calls' && CallKept(calls[c], calls'[c])
  }

  predicate Includes<T(==)>(m: map<Id, T>, m': map<Id, T>) {
    forall k :: k in m ==> k in m' && m'[k] == m[k]
  }

  predicate HistoryKept(history: map<Id, seq<Transition>>, history': map<Id, seq<Transition>>) {
    forall t :: t in history ==> t in history' && history[t] <= history'[t]
  }

  predicate Preserves(g: RunGraph, g': RunGraph) {
    && RunKept(g, g')
    && CallsKept(g.calls, g'.calls)
    && Includes(g.observations, g'.observations) && Includes(g.messages, g'.messages)
    && HistoryKept(g.history, g'.history)
    && g.trace <= g'.trace
  }

  lemma PreservesTransitive(a: RunGraph, b: RunGraph, c: RunGraph)
    requires Preserves(a, b) && Preserves(b, c)
    ensures Preserves(a, c)
  {
    forall k | k in a.calls ensures CallKept(a.calls[k], c.calls[k]) {
      assert CallKept(a.calls[k], b.calls[k]) && CallKept(b.calls[k], c.calls[k]);
    }
  }

  // ----- Each kind of write keeps the invariant and undoes nothing -----

  lemma CallWritePreserves(g: RunGraph, call: ToolCall, more: seq<Attempt>)
    requires g.run.Active() && (call.callId in g.calls ==> CallKept(g.calls[call.callId], call))
    ensures Preserves(g, CallWrites(g, call, more))
  {
    forall k | k in g.calls ensures CallKept(g.calls[k], CallWrites(g, call, more).calls[k]) {
    }
  }

  lemma FinalizePreserves(g: RunGraph, c: FinalizeRunCommand)
    requires FinalizeMatches(g, c) && c.RunsClose()
    ensures Preserves(g, FinalizeWrites(g, c))
  {
    FinalShape(g, c);
  }

  lemma RecoverKeepsCall(g: RunGraph, c: RecoveryCommand, k: Id)
    requires k in g.calls && g.calls[k].callId == k && g.calls[k].Valid()
    requires c.CallsBijective() && Enumerates(c.closure, g)
    ensures CallKept(g.calls[k], NextCalls(g, c.calls)[k])
  {
    InterruptsActive(g, c, k);
  }

  lemma RecoverKeepsCalls(g: RunGraph, c: RecoveryCommand)
    requires CallsOk(g.run, g.tasks, g.units, g.calls, g.attempts)
    requires c.CallsBijective() && Enumerates(c.closure, g)
    ensures CallsKept(g.calls, NextCalls(g, c.calls))
  {
    hide Enumerates, RecoveryCommand.CallsBijective, CallKept;
    forall k | k in g.calls ensures CallKept(g.calls[k], NextCalls(g, c.calls)[k]) {
      assert CallOk(g.run, g.tasks, g.units, k, g.calls[k], g.attempts[k]);
      RecoverKeepsCall(g, c, k);
    }
  }

  lemma RecoverPreserves(g: RunGraph, c: RecoveryCommand)
    requires CallsOk(g.run, g.tasks, g.units, g.calls, g.attempts)
    requires c.RunCloses() && c.CallsBijective() && Enumerates(c.closure, g)
    ensures Preserves(g, RecoverWrites(g, c))
  {
    RecoverKeepsCalls(g, c);
    hide CallsKept, RecoveryCommand.CallsBijective, CallsOk;
  }

  lemma CreatePreserves(g: RunGraph, c: CreateGraphCommand)
    requires TasksOk(g.conversation.owner, g.tasks, g.history) && CreateMatches(g, c) && c.run.status.RunRunning?
    ensures Preserves(g, CreateWrites(g, c))
  {
  }

  lemma TransitPreserves(g: RunGraph, c: TaskTransitionCommand)
    requires TransitMatches(g, c) && g.run.Active()
    ensures Preserves(g, Advance(g, c))
  {
  }

  lemma AuditPreserves(g: RunGraph, manifests: map<Id, ContextManifest>, gates: map<Id, GateDecision>)
    ensures Preserves(g, g) && Preserves(g, AuditWrites(g, manifests, gates))
  {
  }

  lemma AppendPreserves(g: RunGraph, e: TraceEvent)
    ensures Preserves(g, AppendWrites(g, e))
  {
  }

  lemma ObservePreserves(g: RunGraph, o: Observation, source: Id)
    requires o.observationId !in g.observations
    ensures Preserves(g, ObserveWrites(g, o, source))
  {
  }

  lemma StartPreserves(g: RunGraph, c: StartRunCommand)
    requires g.run == c.expected && c.Valid()
    ensures Preserves(g, g.(run := c.next))
  {
  }

  lemma CallWriteKeepsInv(g: RunGraph, w: Write)
    requires Inv(g) && Allowed(g, w) && Lands(g, w) && (w.InsertCall? || w.Dispatch? || w.FinishCall?)
    ensures Inv(ApplyWrite(g, w)) && Preserves(g, ApplyWrite(g, w))
  {
    hide Inv, Preserves, CallEffect, RecoveryCommand.Valid, CreateGraphCommand.Valid, FinalizeRunCommand.Valid,
      TaskTransitionCommand.Valid, RecoverMatches, FinalizeMatches, CreateMatches, AlreadyCreated, DispatchMatches,
      FinishMatches, DispatchCallCommand.Valid, FinalizeCallCommand.Valid;
    match w
    case InsertCall(c) =>
      InsertCallEffect(g, c);
      EffectKeepsInv(g, c.created, []);
    case Dispatch(c) =>
      DispatchEffect(g, c);
      EffectKeepsInv(g, c.running, [c.attempt]);
    case FinishCall(c) =>
      FinishCallEffect(g, c);
      EffectKeepsInv(g, c.terminal, [c.attempt]);
  }

  lemma AuditWriteKeepsInv(g: RunGraph, w: Write)
    requires Inv(g) && Allowed(g, w) && Lands(g, w)
    requires w.SaveObservation? || w.SaveManifest? || w.SaveGate? || w.AppendTrace?
    ensures Inv(ApplyWrite(g, w))
  {
    hide Inv, RecoveryCommand.Valid, CreateGraphCommand.Valid, FinalizeRunCommand.Valid, TaskTransitionCommand.Valid,
      RecoverMatches, FinalizeMatches, CreateMatches, AlreadyCreated, DispatchCallCommand.Valid, FinalizeCallCommand.Valid,
      ObserveWrites, AppendWrites, AuditWrites;
    match w
    case SaveObservation(c) => ObservedKeepsInv(g, c);
    case SaveManifest(m) => AuditKeepsInv(g, g.manifests[m.manifestId := m], g.gates);
    case SaveGate(d) => AuditKeepsInv(g, g.manifests, g.gates[d.gateId := d]);
    case AppendTrace(e) => AppendKeepsInv(g, e);
  }

  lemma RunWriteKeepsInv(g: RunGraph, w: Write)
    requires Inv(g) && Allowed(g, w) && Lands(g, w)
    requires w.Start? || w.CreateGraph? || w.Transit? || w.Finalize? || w.Recover?
    ensures Inv(ApplyWrite(g, w))
  {
    hide Inv, RecoveryCommand.Valid, FinalizeRunCommand.Valid, TaskTransitionCommand.Valid, RecoverMatches, FinalizeMatches,
      CreateMatches, AlreadyCreated, TransitMatches, Idle, CreateGraphCommand.AcceptedChildCloses,
      CreateGraphCommand.BindingProjectsCandidate, CreateGraphCommand.CleanTaskAndUnit, CreateGraphCommand.LinksClose,
      CreateGraphCommand.OneTimestamp, CreateWrites, RecoverWrites, FinalizeWrites, Advance;
    match w
    case Start(c) => StartKeepsInv(g, c);
    case CreateGraph(c) => if !AlreadyCreated(g, c) { CreateKeepsInv(g, c); }
    case Transit(c) => TransitKeepsInv(g, c);
    case Finalize(c) => FinalizeKeepsInv(g, c);
    case Recover(c) => RecoverKeepsInv(g, c);
  }

  // The invariant survives every write any client may send.
  lemma WriteKeepsInv(g: RunGraph, w: Write)
    requires Inv(g) && Allowed(g, w)
    ensures Inv(ApplyWrite(g, w))
  {
    hide Inv, ApplyWrite, Lands, Validated, Fitting;
    if !Lands(g, w) {
      RefusedWritesNothing(g, w);
    } else if w.InsertCall? || w.Dispatch? || w.FinishCall? {
      CallWriteKeepsInv(g, w);
    } else if w.SaveObservation? || w.SaveManifest? || w.SaveGate? || w.AppendTrace? {
      AuditWriteKeepsInv(g, w);
    } else {
      RunWriteKeepsInv(g, w);
    }
  }

  lemma AuditWritePreserves(g: RunGraph, w: Write)
    requires Lands(g, w) && (w.SaveObservation? || w.SaveManifest? || w.SaveGate? || w.AppendTrace?)
    ensures Preserves(g, ApplyWrite(g, w))
  {
    match w
    case SaveObservation(c) => ObservePreserves(g, c.observation, c.source.callId);
    case SaveManifest(m) => AuditPreserves(g, g.manifests[m.manifestId := m], g.gates);
    case SaveGate(d) => AuditPreserves(g, g.manifests, g.gates[d.gateId := d]);
    case AppendTrace(e) => AppendPreserves(g, e);
  }

  lemma RunWritePreserves(g: RunGraph, w: Write)
    requires Inv(g) && Validated(w) && Lands(g, w) && (w.Transit? ==> g.run.Active())
    requires w.Start? || w.CreateGraph? || w.Transit? || w.Finalize? || w.Recover?
    ensures Preserves(g, ApplyWrite(g, w))
  {
    hide RunOk, TasksOk, UnitsOk, HistoryUnitsOk, LinksOk, ConvLinksOk, CallsOk, ObservationsOk, TraceOk, AssistantReplied,
      Preserves, RecoveryClosure.Valid, Enumerates, CreateWrites, RecoverWrites, FinalizeWrites, Advance, LinksMatch,
      TaskTransitionCommand.Valid, TransitMatches, CreateGraphCommand.AcceptedChildCloses, RecoveryCommand.CallsBijective,
      CreateGraphCommand.BindingProjectsCandidate, CreateGraphCommand.CleanTaskAndUnit, CreateGraphCommand.LinksClose,
      CreateGraphCommand.OneTimestamp, RecoveryCommand.TasksBijective, RecoveryCommand.LinksBijective,
      RecoveryCommand.EventsShaped, RecoveryCommand.StopCloses, RecoveryCommand.TaskEventsBijective,
      RecoveryCommand.CallEventsBijective, FinalizeRunCommand.LinksClose, FinalizeRunCommand.TasksClose,
      FinalizeRunCommand.CompletedIsWhole, FinalizeRunCommand.FailedIsBare;
    match w
    case Start(c) => StartPreserves(g, c);
    case CreateGraph(c) =>
      AuditPreserves(g, g.manifests, g.gates);
      if !AlreadyCreated(g, c) { CreatePreserves(g, c); }
    case Transit(c) => TransitPreserves(g, c);
    case Finalize(c) => FinalizePreserves(g, c);
    case Recover(c) => RecoverPreserves(g, c);
  }

  lemma RefusedWritesNothing(g: RunGraph, w: Write)
    requires !Lands(g, w)
    ensures ApplyWrite(g, w) == g
  {
  }

  lemma LateTransitUndoes(g: RunGraph, c: TaskTransitionCommand)
    requires c.Valid() && TransitMatches(g, c) && !g.run.Active()
    ensures !Preserves(g, ApplyWrite(g, Transit(c)))
  {
    assert ApplyWrite(g, Transit(c)).tasks[c.expectedTask.taskId] != g.tasks[c.expectedTask.taskId];
  }

  lemma CallWriteKeeps(g: RunGraph, w: Write)
    requires Inv(g) && Validated(w) && Lands(g, w) && (w.InsertCall? || w.Dispatch? || w.FinishCall?)
    ensures Preserves(g, ApplyWrite(g, w))
  {
    hide Preserves, CallEffect, RecoveryCommand.Valid, CreateGraphCommand.Valid, FinalizeRunCommand.Valid, Inv,
      TaskTransitionCommand.Valid, RecoverMatches, FinalizeMatches, CreateMatches, AlreadyCreated, DispatchMatches,
      FinishMatches, DispatchCallCommand.Valid, FinalizeCallCommand.Valid;
    match w
    case InsertCall(c) => CallWritePreserves(g, c.created, []);
    case Dispatch(c) =>
      DispatchEffect(g, c);
      EffectKeepsInv(g, c.running, [c.attempt]);
    case FinishCall(c) =>
      FinishCallEffect(g, c);
      EffectKeepsInv(g, c.terminal, [c.attempt]);
  }

  // A write only ever adds: terminal Runs and calls, Observations, messages,
  // history and trace stay as they are.  The one exception is a Task transition
  // that lands after its Run has ended, which the store does not refuse.
  lemma WritePreserves(g: RunGraph, w: Write)
    requires Inv(g) && Validated(w)
    ensures Preserves(g, ApplyWrite(g, w)) <==> (w.Transit? && Lands(g, w) ==> g.run.Active())
  {
    hide Inv, Preserves, ApplyWrite, Lands, Validated;
    AuditPreserves(g, g.manifests, g.gates);
    if !Lands(g, w) {
      RefusedWritesNothing(g, w);
    } else if w.InsertCall? || w.Dispatch? || w.FinishCall? {
      CallWriteKeeps(g, w);
    } else if w.SaveObservation? || w.SaveManifest? || w.SaveGate? || w.AppendTrace? {
      AuditWritePreserves(g, w);
    } else if w.Transit? && !g.run.Active() {
      LateTransitIsValid(g, w);
      LateTransitUndoes(g, w.transit);
    } else {
      RunWritePreserves(g, w);
    }
  }

  lemma AllowedPreserves(g: RunGraph, w: Write)
    requires Inv(g) && Allowed(g, w)
    ensures Preserves(g, ApplyWrite(g, w))
  {
    hide Inv, Preserves, ApplyWrite, Lands, Validated;
    WritePreserves(g, w);
  }

  lemma LateTransitIsValid(g: RunGraph, w: Write)
    requires w.Transit? && Validated(w) && Lands(g, w)
    ensures w.transit.Valid() && TransitMatches(g, w.transit)
  {
    hide TaskTransitionCommand.Valid, TransitMatches;
  }

  // ----- Exactly the writes that keep the invariant -----

  lemma BrokenByTransit(g: RunGraph, c: TaskTransitionCommand)
    requires Inv(g) && c.Valid() && TransitMatches(g, c) && Inv(Advance(g, c))
    ensures g.run.Active() && Idle(g, c.expectedTask.taskId)
  {
    hide RunOk, TasksOk, UnitsOk, HistoryUnitsOk, ConvLinksOk, ObservationsOk, TraceOk, AssistantReplied;
    var g', t := Advance(g, c), c.expectedTask.taskId;
    assert LinkOk(g.run, t, g.tasks[t], g.links[t]) && LinkOk(g'.run, t, g'.tasks[t], g'.links[t]);
    forall k | k in g.calls && g.calls[k].taskId == t ensures !g.calls[k].status.Active() {
      assert CallOk(g.run, g.tasks, g.units, k, g.calls[k], g.attempts[k]);
      assert CallOk(g'.run, g'.tasks, g'.units, k, g'.calls[k], g'.attempts[k]);
    }
  }

  lemma BrokenByInsert(g: RunGraph, c: CreateCallCommand)
    requires c.Valid() && Inv(CallWrites(g, c.created, []))
    ensures CallFits(g, c.created)
  {
    var g' := CallWrites(g, c.created, []);
    assert CallOk(g'.run, g'.tasks, g'.units, c.created.callId, g'.calls[c.created.callId], g'.attempts[c.created.callId]);
  }

  lemma BrokenByTrace(g: RunGraph, e: TraceEvent)
    requires TraceOk(g.run, g.trace) && TraceOk(g.run, g.trace + [e])
    ensures Fitting(g, AppendTrace(e))
  {
    assert (g.trace + [e])[|g.trace|] == e;
    CountStopsConcat(g.trace, [e]);
    assert CountStops([]) == 0 && [e][..0] == [];
    assert CountStops([e]) == if e.kind.RunStopped? then 1 else 0;
  }

  lemma KeptOnlyIfFitting(g: RunGraph, w: Write)
    requires Inv(g) && Validated(w) && Lands(g, w) && Inv(ApplyWrite(g, w))
    ensures Fitting(g, w)
  {
    hide Inv, Idle, TransitMatches, CallFits, TraceOk, RecoveryCommand.Valid, CreateGraphCommand.Valid,
      FinalizeRunCommand.Valid, TaskTransitionCommand.Valid, RecoverMatches, FinalizeMatches, CreateMatches, AlreadyCreated;
    match w
    case Transit(c) => BrokenByTransit(g, c);
    case InsertCall(c) => BrokenByInsert(g, c);
    case AppendTrace(e) =>
      TraceParts(g);
      TraceParts(AppendWrites(g, e));
      BrokenByTrace(g, e);
    case _ =>
  }

  // The invariant survives a validated write exactly when the write, if it lands, fits;
  // nothing wider would do for the theorems about histories.
  lemma WriteKeepsInvExactly(g: RunGraph, w: Write)
    requires Inv(g) && Validated(w)
    ensures Inv(ApplyWrite(g, w)) <==> Allowed(g, w)
  {
    hide Inv, ApplyWrite, Lands, Validated, Fitting;
    if Allowed(g, w) {
      WriteKeepsInv(g, w);
    } else if Inv(ApplyWrite(g, w)) {
      KeptOnlyIfFitting(g, w);
    }
  }

  lemma SomeLateTransit(g: RunGraph, t: Id) returns (c: TaskTransitionCommand)
    requires TasksOk(g.conversation.owner, g.tasks, g.history) && UnitsOk(g.tasks, g.units) && t in g.tasks
    ensures c.expectedTask == g.tasks[t] && c.Valid() && TransitMatches(g, c)
  {
    hide Chain;
    assert TaskOk(g.conversation.owner, t, g.tasks[t], g.history[t]) && HasUnit(g.units, t);
    var u :| u in g.units && g.units[u].taskId == t;
    var task, unit := g.tasks[t], g.units[u];
    assert UnitOk(g.tasks, u, unit);
    var at := if task.updatedAt <= unit.updatedAt then unit.updatedAt else task.updatedAt;
    var to := if task.status.TaskBlocked? then TaskActive else TaskBlocked;
    c := TaskTransitionCommand(task, task.(status := to, version := task.version + 1, updatedAt := at),
                               unit, unit.(status := to, version := task.version + 1, updatedAt := at),
                               Transition(t, u, task.status, to, task.version, task.version + 1, 0, at));
  }

  // And so it is of every ended Run that worked on a Task: some validated transition
  // is applied, undoes what the Run ended with, and breaks the invariant.
  lemma EndedTaskCanMove(g: RunGraph, t: Id) returns (c: TaskTransitionCommand)
    requires Inv(g) && t in g.tasks && !g.run.Active()
    ensures c.expectedTask == g.tasks[t] && Validated(Transit(c)) && Lands(g, Transit(c))
    ensures !Preserves(g, ApplyWrite(g, Transit(c))) && !Inv(ApplyWrite(g, Transit(c)))
  {
    hide Preserves, TasksOk, UnitsOk, CallsOk, ObservationsOk, TraceOk, AssistantReplied, LinksOk, ConvLinksOk,
      HistoryUnitsOk, RunOk, TaskTransitionCommand.Valid, TransitMatches;
    c := SomeLateTransit(g, t);
    hide Inv, ApplyWrite;
    WritePreserves(g, Transit(c));
    WriteKeepsInvExactly(g, Transit(c));
  }

  lemma TraceParts(g: RunGraph)
    requires Inv(g)
    ensures TraceOk(g.run, g.trace)
  {
    hide TraceOk;
  }
}
