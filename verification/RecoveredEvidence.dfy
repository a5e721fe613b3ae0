// The evidence of a recovered Run.  Recovery closes the gaps a crash leaves in Run,
// Task, link and open calls; it does not add the events of what ended before.

module RecoveredEvidence {
  import opened Records
  import opened Understanding
  import opened RecoveryCommands
  import opened RunStore
  import opened Protocol
  import opened ProtocolRecovery
  import opened VersionInForce
  import opened Evidence
  import opened Startup
  import opened RecoveredRecords
  import opened TurnTrace
  import DeltaChains
  import Sorting

  // ----- What a crash may have left open -----

  predicate EndedCallsTraced(calls: map<Id, ToolCall>, trace: seq<TraceEvent>) {
    forall k :: k in calls && !calls[k].status.Active() ==> LifecycleCloses(calls[k], trace)
  }

  // The events of a call are written when it has ended.
  predicate OpenCallsUntraced(calls: map<Id, ToolCall>, trace: seq<TraceEvent>) {
    forall k :: k in calls && calls[k].status.Active() ==> LifecycleOf(trace, k) == []
  }

  // Recovery moves a Task strictly after its current version was put into a context.
  predicate MovedOn(tasks: map<Id, Task>, manifests: map<Id, ContextManifest>, at: Time) {
    forall m :: m in manifests ==> PresentedBefore(tasks, manifests[m], at)
  }

  predicate PresentedBefore(tasks: map<Id, Task>, m: ContextManifest, at: Time) {
    m.taskRef.Some? && m.taskRef.value.0 in tasks ==>
      var t := tasks[m.taskRef.value.0];
      t.status.Recoverable() && t.version == m.taskRef.value.1 ==> m.assembledAt < at
  }

  // Everything else the evidence closure asks for, of the records as the crash left them.
  ghost predicate RestCloses(e: Evidence) {
    var g := e.g;
    && RootsClose(g.conversation, g.run, e.messages)
    && UnderstandingCloses(g.run, e.messages, g.understanding, g.deltas, g.bindings, g.tasks)
    && TasksClose(g.conversation, g.run, g.understanding, g.deltas, g.tasks, g.links, g.convLinks)
    && UnitsClose(g.understanding, g.deltas, g.tasks, g.units)
    && HistoriesClose(g.understanding, g.deltas, g.tasks, g.units, g.history)
    && (forall b :: b in g.bindings ==> Distinct(g.bindings[b].sourceRefs))
    && ManifestsClose(g.run, g.tasks, g.history, g.observations, g.manifests)
    && GatesClose(g.gates, g.manifests)
    && CallsClose(g.run, g.tasks, g.units, g.manifests, g.gates, g.calls)
    && AttemptsClose(g.calls, g.attempts)
    && (forall o :: o in g.observations ==>
          g.observations[o].supersedes.Some? ==> g.observations[o].supersedes.value in g.observations)
    && (forall i :: 0 <= i < |g.trace| ==> EventCloses(g, g.trace[i]))
    && NormalizedClose(g.calls, g.attempts, g.trace)
    && GateEventsClose(g.gates, g.manifests, g.units, g.trace)
    && OpenCallsUntraced(g.calls, g.trace)
    && ReferencesExact(e)
  }

  // ----- Understanding -----

  predicate Grown(tasks: map<Id, Task>, tasks': map<Id, Task>) {
    tasks'.Keys == tasks.Keys && forall t :: t in tasks ==> tasks[t].version <= tasks'[t].version
  }

  lemma ChainsGrow(ds: seq<DeltaChains.Delta>, tasks: map<Id, Task>, tasks': map<Id, Task>)
    requires DeltaChains.EvidenceChains(ds, Versions(tasks)) && Grown(tasks, tasks')
    ensures DeltaChains.EvidenceChains(ds, Versions(tasks'))
  {
    hide DeltaChains.Of, DeltaChains.Linked, DeltaChains.StartsCounted;
    forall t: Id ensures DeltaChains.EvidenceOk(DeltaChains.Of(ds, t), DeltaChains.VersionOf(Versions(tasks'), t)) {
      assert DeltaChains.EvidenceOk(DeltaChains.Of(ds, t), DeltaChains.VersionOf(Versions(tasks), t));
    }
  }

  lemma UnderstandingStands(run: Run, run': Run, messages: map<Id, Message>, u: Option<UnderstandingRecord>, deltas: Deltas,
                            bindings: map<Id, InputBinding>, tasks: map<Id, Task>, tasks': map<Id, Task>)
    requires UnderstandingCloses(run, messages, u, deltas, bindings, tasks) && Grown(tasks, tasks') && run'.runId == run.runId
    ensures UnderstandingCloses(run', messages, u, deltas, bindings, tasks')
  {
    hide BindsInputs, Links, DeltaChains.InOrder, DeltaChains.EvidenceChains, Versions, ByCandidate;
    if u.Some? {
      var r := u.value;
      var children :| ByCandidate(deltas, children)
                      && DeltaChains.EvidenceChains(DeltaChains.InOrder(CandidateIds(r.candidates), Links(children)), Versions(tasks));
      ChainsGrow(DeltaChains.InOrder(CandidateIds(r.candidates), Links(children)), tasks, tasks');
    }
  }

  // ----- Tasks, links, units -----

  lemma TasksStand(g: RunGraph, g': RunGraph, u: Option<UnderstandingRecord>, deltas: Deltas)
    requires TasksClose(g.conversation, g.run, u, deltas, g.tasks, g.links, g.convLinks)
    requires g'.conversation == g.conversation && g'.convLinks == g.convLinks && g'.tasks.Keys == g.tasks.Keys
    requires LinksAfter(g.links, g'.links) && !g'.run.Active()
    requires TasksOk(g'.conversation.owner, g'.tasks, g'.history) && LinksOk(g'.run, g'.tasks, g'.links)
    ensures TasksClose(g'.conversation, g'.run, u, deltas, g'.tasks, g'.links, g'.convLinks)
  {
    hide FirstChildHasBase, Chain;
    forall t | t in g'.tasks ensures g'.tasks[t].taskId == t && g'.tasks[t].owner == g'.conversation.owner {
      assert TaskOk(g'.conversation.owner, t, g'.tasks[t], g'.history[t]);
    }
    forall t | t in g'.links ensures LinkCloses(g'.run, g'.tasks[t], g'.links[t]) && FirstChildHasBase(u, deltas, t, g'.links[t].base) {
      assert LinkOk(g'.run, t, g'.tasks[t], g'.links[t]);
    }
  }

  lemma UnitsStand(r: Option<UnderstandingRecord>, deltas: Deltas, tasks: map<Id, Task>, tasks': map<Id, Task>,
                   units: map<Id, RequestUnit>, units': map<Id, RequestUnit>)
    requires UnitsClose(r, deltas, tasks, units) && tasks'.Keys == tasks.Keys && UnitsAfter(units, units')
    requires UnitsOk(tasks', units')
    ensures UnitsClose(r, deltas, tasks', units')
  {
    hide LatestChildAgrees;
    forall u | u in units' ensures units'[u].unitId == u && UnitCloses(tasks', units'[u]) && LatestChildAgrees(r, deltas, units'[u]) {
      assert UnitOk(tasks', u, units'[u]) && UnitAfter(units[u], units'[u]);
      LatestStands(r, deltas, units[u], units'[u]);
    }
    forall t | t in tasks' ensures exists u :: u in units' && units'[u].taskId == t { assert HasUnit(units', t); }
  }

  lemma LatestStands(r: Option<UnderstandingRecord>, deltas: Deltas, u: RequestUnit, u': RequestUnit)
    requires UnitAfter(u, u')
    ensures LatestChildAgrees(r, deltas, u) ==> LatestChildAgrees(r, deltas, u')
  {
    hide ByCandidate, ChildrenOf, CandidateIds, Elements;
  }

  // ----- Histories -----

  lemma ChainIsComplete(t: Task, hs: seq<Transition>)
    requires Chain(t, hs)
    ensures CompleteHistory(t, hs)
  {
  }

  lemma DeltaStands(t: Task, t': Task, hs: seq<Transition>, hs': seq<Transition>, at: Time, d: AcceptedDelta)
    requires TaskAfter(t, t', hs, hs', at) && DeltaFitsHistory(t, hs, d)
    ensures DeltaFitsHistory(t', hs', d)
  {
  }

  lemma HistoriesStand(g: RunGraph, g': RunGraph, u: Option<UnderstandingRecord>, deltas: Deltas, at: Time)
    requires HistoriesClose(u, deltas, g.tasks, g.units, g.history)
    requires TasksAfter(g.tasks, g'.tasks, g.history, g'.history, at)
    requires TasksOk(g'.conversation.owner, g'.tasks, g'.history) && HistoryUnitsOk(g'.units, g'.history)
    ensures HistoriesClose(u, deltas, g'.tasks, g'.units, g'.history)
  {
    hide DeltaFitsHistory, CompleteHistory, Chain, TaskAfter;
    forall t | t in g'.tasks
      ensures CompleteHistory(g'.tasks[t], g'.history[t])
      ensures forall h :: h in g'.history[t] ==> h.taskId == t && h.unitId in g'.units && g'.units[h.unitId].taskId == t
      ensures forall d :: d in deltas && deltas[d].taskId == t ==> DeltaFitsHistory(g'.tasks[t], g'.history[t], deltas[d])
    {
      assert TaskOk(g'.conversation.owner, t, g'.tasks[t], g'.history[t]) && TransitionsOf(g'.units, t, g'.history[t]);
      ChainIsComplete(g'.tasks[t], g'.history[t]);
      ChainNames(g'.tasks[t], g'.history[t]);
      forall d | d in deltas && deltas[d].taskId == t ensures DeltaFitsHistory(g'.tasks[t], g'.history[t], deltas[d]) {
        DeltaStands(g.tasks[t], g'.tasks[t], g.history[t], g'.history[t], at, deltas[d]);
      }
    }
  }

  lemma ChainNames(t: Task, hs: seq<Transition>)
    requires Chain(t, hs)
    ensures forall h :: h in hs ==> h.taskId == t.taskId
  {
  }

  // ----- Manifests -----

  // A version accepted before is accepted after, unless it is the one recovery ended too early.
  lemma VersionStands(t: Task, t': Task, hs: seq<Transition>, hs': seq<Transition>, at: Time, version: nat, assembledAt: Time)
    requires CompleteHistory(t, hs) && CompleteHistory(t', hs') && TaskAfter(t, t', hs, hs', at)
    requires Accepted(t, hs, version, assembledAt)
    ensures Accepted(t', hs', version, assembledAt)
            <==> (t.status.Recoverable() && t.version == version ==> assembledAt < at)
  {
    hide Accepted, CompleteHistory;
    AcceptedIsInForce(t, hs, version, assembledAt);
    AcceptedIsInForce(t', hs', version, assembledAt);
    CompleteVersion(t, hs);
    if t.status.Recoverable() {
      assert forall w: nat :: 1 <= w <= |hs| + 1 ==> EffectiveAt(t', hs', w) == EffectiveAt(t, hs, w);
      assert EffectiveAt(t', hs', |hs| + 2) == at;
      if version <= |hs| { TimesGrow(t', hs', version + 1, |hs| + 2); }
    }
  }

  lemma CompleteVersion(t: Task, hs: seq<Transition>)
    requires CompleteHistory(t, hs)
    ensures t.version == |hs| + 1
  {
  }

  lemma ManifestStands(g: RunGraph, g': RunGraph, m: ContextManifest, at: Time)
    requires g'.run.runId == g.run.runId && TasksAfter(g.tasks, g'.tasks, g.history, g'.history, at)
    requires forall t :: t in g.tasks ==> CompleteHistory(g.tasks[t], g.history[t])
    requires forall t :: t in g'.tasks ==> CompleteHistory(g'.tasks[t], g'.history[t])
    requires ManifestCloses(g.run, g.tasks, g.history, g.observations, m)
    ensures ManifestCloses(g'.run, g'.tasks, g'.history, g.observations, m) <==> PresentedBefore(g.tasks, m, at)
  {
    hide Accepted, CompleteHistory, TaskAfter;
    if m.taskRef.Some? {
      var t := m.taskRef.value.0;
      VersionStands(g.tasks[t], g'.tasks[t], g.history[t], g'.history[t], at, m.taskRef.value.1, m.assembledAt);
    }
  }

  lemma ManifestsStand(g: RunGraph, g': RunGraph, at: Time)
    requires g'.run.runId == g.run.runId && TasksAfter(g.tasks, g'.tasks, g.history, g'.history, at)
    requires forall t :: t in g.tasks ==> CompleteHistory(g.tasks[t], g.history[t])
    requires forall t :: t in g'.tasks ==> CompleteHistory(g'.tasks[t], g'.history[t])
    requires ManifestsClose(g.run, g.tasks, g.history, g.observations, g.manifests)
    ensures ManifestsClose(g'.run, g'.tasks, g'.history, g.observations, g.manifests) <==> MovedOn(g.tasks, g.manifests, at)
  {
    hide ManifestCloses, PresentedBefore, CompleteHistory, TasksAfter;
    forall m | m in g.manifests
      ensures ManifestCloses(g'.run, g'.tasks, g'.history, g.observations, g.manifests[m]) <==> PresentedBefore(g.tasks, g.manifests[m], at)
    {
      ManifestStands(g, g', g.manifests[m], at);
    }
  }

  // ----- Calls and attempts -----

  lemma CallStands(g: RunGraph, g': RunGraph, at: Time, c: ToolCall, c': ToolCall)
    requires CallCloses(g.run, g.tasks, g.units, g.manifests, g.gates, c) && CallAfter(c, c', at)
    requires g'.run.runId == g.run.runId && Grown(g.tasks, g'.tasks) && UnitsAfter(g.units, g'.units)
    ensures CallCloses(g'.run, g'.tasks, g'.units, g.manifests, g.gates, c')
  {
    hide Elements;
    assert UnitAfter(g.units[c.unitId], g'.units[c.unitId]);
  }

  lemma CallsStand(g: RunGraph, g': RunGraph, at: Time)
    requires CallsClose(g.run, g.tasks, g.units, g.manifests, g.gates, g.calls)
    requires g'.run.runId == g.run.runId && Grown(g.tasks, g'.tasks) && UnitsAfter(g.units, g'.units)
    requires CallsAfter(g.calls, g'.calls, at)
    ensures CallsClose(g'.run, g'.tasks, g'.units, g.manifests, g.gates, g'.calls)
  {
    hide CallCloses, Grown, UnitsAfter;
    forall k | k in g'.calls
      ensures g'.calls[k].callId == k && g'.calls[k].gateId == g.calls[k].gateId
      ensures CallCloses(g'.run, g'.tasks, g'.units, g.manifests, g.gates, g'.calls[k])
    {
      assert CallAfter(g.calls[k], g'.calls[k], at);
      CallStands(g, g', at, g.calls[k], g'.calls[k]);
    }
  }

  lemma AttemptsStand(calls: map<Id, ToolCall>, calls': map<Id, ToolCall>, attempts: map<Id, seq<Attempt>>, at: Time)
    requires AttemptsClose(calls, attempts) && CallsAfter(calls, calls', at)
    requires forall k :: k in calls ==> calls[k].Valid()
    ensures AttemptsClose(calls', attempts)
  {
    forall k | k in calls' ensures AttemptsClosed(calls'[k], attempts[k]) {
      assert CallAfter(calls[k], calls'[k], at) && AttemptsClosed(calls[k], attempts[k]);
    }
  }

  // ----- The trace -----

  predicate IsNew(e: TraceEvent) { e.kind.RunStopped? || e.kind.TaskStateChanged? || e.kind.ToolCallInterrupted? }

  // New events refer to Run, Task, unit and call only.
  predicate Bare(e: TraceEvent) {
    && e.messageRef.None? && e.inputBindingRef.None? && e.bindingRefs == [] && e.observationRef.None? && e.toolsetHash.None?
    && e.acceptedDeltaRef.None? && e.manifestId.None?
  }

  lemma NewKinds(g: RunGraph, es: seq<TraceEvent>, at: Time)
    requires EventsAfter(g, es, at)
    ensures forall i :: 0 <= i < |es| ==> IsNew(es[i]) && Bare(es[i]) && es[i].at == at
    ensures forall i :: 1 <= i < |es| ==> !es[i].kind.RunStopped?
  {
  }

  lemma OldKindStands(g: RunGraph, es: seq<TraceEvent>, at: Time, kind: EventKind)
    requires EventsAfter(g, es, at) && !kind.RunStopped? && !kind.TaskStateChanged? && !kind.ToolCallInterrupted?
    ensures OfKind(g.trace + es, kind) == OfKind(g.trace, kind)
  {
    hide EventsAfter, OfKind;
    NewKinds(g, es, at);
    OfKindConcat(g.trace, es, kind);
    OfKindNone(es, kind);
  }

  lemma StopEventCloses(g: RunGraph, e: TraceEvent, at: Time)
    requires IsStop(e, g.run.runId, at)
    ensures EventCloses(g, e)
  {
  }

  lemma MoveEventCloses(g: RunGraph, g': RunGraph, e: TraceEvent, at: Time)
    requires IsMove(e, g.units, g.run.runId, at) && UnitsAfter(g.units, g'.units) && g'.run.runId == g.run.runId
    requires g.units[e.unitId.value].taskId in g'.tasks
    ensures EventCloses(g', e)
  {
    assert UnitAfter(g.units[e.unitId.value], g'.units[e.unitId.value]);
  }

  lemma InterruptEventCloses(g: RunGraph, g': RunGraph, e: TraceEvent, at: Time)
    requires IsInterrupt(e, g.calls, g.run.runId, at) && CallsAfter(g.calls, g'.calls, at) && g'.run.runId == g.run.runId
    ensures EventCloses(g', e)
  {
  }

  lemma NewEventCloses(g: RunGraph, g': RunGraph, es: seq<TraceEvent>, at: Time, i: nat)
    requires After(g, g', es, at) && i < |es| && forall u :: u in g.units ==> g.units[u].taskId in g.tasks
    ensures EventCloses(g', es[i])
  {
    hide TaskAfter, LinksAfter, Interrupts, EventCloses, IsStop, IsInterrupt, UnitsAfter, CallsAfter;
    if i == 0 {
      StopEventCloses(g', es[i], at);
    } else if IsMove(es[i], g.units, g.run.runId, at) {
      MoveEventCloses(g, g', es[i], at);
    } else {
      InterruptEventCloses(g, g', es[i], at);
    }
  }

  lemma OldEventCloses(g: RunGraph, g': RunGraph, es: seq<TraceEvent>, at: Time, e: TraceEvent)
    requires After(g, g', es, at) && EventCloses(g, e)
    ensures EventCloses(g', e)
  {
    hide TaskAfter, LinksAfter, EventsAfter;
    if e.callId.Some? { assert CallAfter(g.calls[e.callId.value], g'.calls[e.callId.value], at); }
    if e.unitId.Some? && e.unitId.value in g.units { assert UnitAfter(g.units[e.unitId.value], g'.units[e.unitId.value]); }
  }

  lemma NormalizedStands(calls: map<Id, ToolCall>, calls': map<Id, ToolCall>, attempts: map<Id, seq<Attempt>>,
                         trace: seq<TraceEvent>, trace': seq<TraceEvent>, at: Time)
    requires NormalizedClose(calls, attempts, trace) && CallsAfter(calls, calls', at)
    requires OfKind(trace', ToolResultNormalized) == OfKind(trace, ToolResultNormalized)
    ensures NormalizedClose(calls', attempts, trace')
  {
    hide OfKind;
    forall e | e in OfKind(trace', ToolResultNormalized)
      ensures e.callId.Some? && e.callId.value in calls' && e.callId.value in attempts && e.toolOutcome.Some?
      ensures NormalizedAgrees(calls'[e.callId.value], attempts[e.callId.value], e)
    {
      assert CallAfter(calls[e.callId.value], calls'[e.callId.value], at);
    }
  }

  lemma {:induction false} CrossUnitStands(es: seq<TraceEvent>, units: map<Id, RequestUnit>, units': map<Id, RequestUnit>)
    requires UnitsAfter(units, units')
    ensures CrossUnit(es, units') == CrossUnit(es, units)
  {
    if es != [] {
      CrossUnitStands(es[..|es| - 1], units, units');
      var e := es[|es| - 1];
      if e.unitId.Some? && e.unitId.value in units { assert UnitAfter(units[e.unitId.value], units'[e.unitId.value]); }
    }
  }

  lemma GateEventsStand(gates: map<Id, GateDecision>, manifests: map<Id, ContextManifest>, units: map<Id, RequestUnit>,
                        units': map<Id, RequestUnit>, trace: seq<TraceEvent>, trace': seq<TraceEvent>)
    requires GateEventsClose(gates, manifests, units, trace) && UnitsAfter(units, units')
    requires OfKind(trace', GateDecisionRecorded) == OfKind(trace, GateDecisionRecorded)
    ensures GateEventsClose(gates, manifests, units', trace')
  {
    hide OfKind, CrossUnit, UnitsAfter, Viewed, Owners, InvalidOwners, EventView;
    var es := OfKind(trace, GateDecisionRecorded);
    forall e | e in es ensures CrossUnit(Viewed(es, EventView(e)), units') <= |InvalidOwners(gates, EventView(e))| {
      CrossUnitStands(Viewed(es, EventView(e)), units, units');
    }
  }

  // ----- RunStopped -----

  lemma {:induction false} NoStops(es: seq<TraceEvent>)
    requires CountStops(es) == 0
    ensures OfKind(es, RunStopped) == []
  {
    if es != [] { NoStops(es[..|es| - 1]); }
  }

  lemma StopStands(g: RunGraph, g': RunGraph, es: seq<TraceEvent>, at: Time)
    requires RunAfter(g.run, g'.run, at) && EventsAfter(g, es, at) && CountStops(g.trace) == 0
    ensures StopCloses(g'.run, g'.tasks, g.trace + es)
  {
    hide OfKind;
    NoStops(g.trace);
    NewKinds(g, es, at);
    assert es == [es[0]] + es[1..];
    OfKindConcat(g.trace, es, RunStopped);
    OfKindConcat([es[0]], es[1..], RunStopped);
    OneEvent(es[0], RunStopped);
    OfKindNone(es[1..], RunStopped);
  }

  // ----- Lifecycles -----

  lemma {:induction false} LifecycleOfNew(es: seq<TraceEvent>, k: Id, i: nat)
    requires i < |es| && es[i].kind.ToolCallInterrupted? && es[i].callId == Some(k)
    requires forall j :: 0 <= j < |es| && j != i ==> !(CallStatusOf(es[j].kind).Some? && es[j].callId == Some(k))
    ensures LifecycleOf(es, k) == [es[i]]
  {
    var n := |es| - 1;
    if i == n {
      LifecycleOfOthers(es[..n], k);
    } else {
      LifecycleOfNew(es[..n], k, i);
    }
  }

  lemma {:induction false} LifecycleOfOthers(es: seq<TraceEvent>, k: Id)
    requires forall j :: 0 <= j < |es| ==> !(CallStatusOf(es[j].kind).Some? && es[j].callId == Some(k))
    ensures LifecycleOf(es, k) == []
  {
    if es != [] { LifecycleOfOthers(es[..|es| - 1], k); }
  }

  lemma EndedCallUntouched(g: RunGraph, es: seq<TraceEvent>, at: Time, k: Id)
    requires EventsAfter(g, es, at) && k in g.calls && !g.calls[k].status.Active()
    ensures LifecycleOf(es, k) == []
  {
    hide LifecycleOf, Interrupts;
    LifecycleOfOthers(es, k);
  }

  lemma OpenCallInterrupted(g: RunGraph, es: seq<TraceEvent>, at: Time, k: Id) returns (e: TraceEvent)
    requires EventsAfter(g, es, at) && k in g.calls && g.calls[k].status.Active()
    ensures LifecycleOf(es, k) == [e] && e.kind.ToolCallInterrupted? && e.at == at
  {
    hide LifecycleOf;
    assert Interrupts(es, k);
    var i :| 0 <= i < |es| && es[i].kind.ToolCallInterrupted? && es[i].callId == Some(k);
    e := es[i];
    LifecycleOfNew(es, k, i);
  }

  lemma OpenCallCloses(c: ToolCall, c': ToolCall, trace: seq<TraceEvent>, e: TraceEvent, at: Time)
    requires CallAfter(c, c', at) && c.status.Active() && LifecycleOf(trace, c.callId) == [e]
    requires e.kind.ToolCallInterrupted? && e.at == at
    ensures LifecycleCloses(c', trace)
  {
    hide LifecycleOf;
    assert [e][1..] == [] && Sorting.Sort([], LifeLe) == [];
    assert Sorting.Sort([e], LifeLe) == [e];
  }

  lemma LifecycleStands(g: RunGraph, g': RunGraph, es: seq<TraceEvent>, at: Time, k: Id)
    requires CallsAfter(g.calls, g'.calls, at) && EventsAfter(g, es, at) && k in g.calls && g.calls[k].callId == k
    requires g.calls[k].status.Active() ==> LifecycleOf(g.trace, k) == []
    ensures LifecycleCloses(g'.calls[k], g.trace + es)
            <==> (!g.calls[k].status.Active() ==> LifecycleCloses(g.calls[k], g.trace))
  {
    hide LifecycleOf, EventsAfter;
    assert CallAfter(g.calls[k], g'.calls[k], at);
    LifecycleConcat(g.trace, es, k);
    if !g.calls[k].status.Active() {
      EndedCallUntouched(g, es, at, k);
      assert LifecycleOf(g.trace + es, k) == LifecycleOf(g.trace, k);
    } else {
      var e := OpenCallInterrupted(g, es, at, k);
      OpenCallCloses(g.calls[k], g'.calls[k], g.trace + es, e, at);
    }
  }

  lemma LifecyclesStand(g: RunGraph, g': RunGraph, es: seq<TraceEvent>, at: Time)
    requires CallsAfter(g.calls, g'.calls, at) && EventsAfter(g, es, at) && OpenCallsUntraced(g.calls, g.trace)
    requires forall k :: k in g.calls ==> g.calls[k].callId == k
    ensures LifecyclesClose(g'.calls, g.trace + es) <==> EndedCallsTraced(g.calls, g.trace)
  {
    hide LifecycleOf, EventsAfter, LifecycleCloses, CallAfter;
    forall k | k in g.calls
      ensures LifecycleCloses(g'.calls[k], g.trace + es)
              <==> (!g.calls[k].status.Active() ==> LifecycleCloses(g.calls[k], g.trace))
    {
      LifecycleStands(g, g', es, at, k);
    }
  }

  // ----- References -----

  lemma TraceReferences(g: RunGraph, es: seq<TraceEvent>, at: Time)
    requires EventsAfter(g, es, at)
    ensures TraceMessages(g.trace + es) == TraceMessages(g.trace) && TraceBindings(g.trace + es) == TraceBindings(g.trace)
    ensures TraceObservations(g.trace + es) == TraceObservations(g.trace)
  {
    hide EventsAfter;
    NewKinds(g, es, at);
    assert forall e :: e in g.trace + es <==> e in g.trace || e in es;
  }

  lemma MessageReferences(g: RunGraph, g': RunGraph, es: seq<TraceEvent>, at: Time)
    requires After(g, g', es, at)
    ensures ReferencedMessages(g') == ReferencedMessages(g)
  {
    hide EventsAfter, TaskAfter, CallAfter, TraceMessages, UnderstandingMessages;
    TraceReferences(g, es, at);
    assert forall u :: u in g.units ==> UnitAfter(g.units[u], g'.units[u]);
    assert (set u, m | u in g'.units && m in g'.units[u].goalSourceRefs :: m)
           == (set u, m | u in g.units && m in g.units[u].goalSourceRefs :: m);
  }

  lemma BindingReferences(g: RunGraph, g': RunGraph, es: seq<TraceEvent>, at: Time)
    requires After(g, g', es, at)
    ensures ReferencedBindings(g') == ReferencedBindings(g)
  {
    hide EventsAfter, TaskAfter, TraceBindings;
    TraceReferences(g, es, at);
    UnitBindings(g.units, g'.units);
    CallBindings(g.calls, g'.calls, at);
  }

  lemma UnitBindings(units: map<Id, RequestUnit>, units': map<Id, RequestUnit>)
    requires UnitsAfter(units, units')
    ensures (set u, b | u in units' && b in units'[u].bindingRefs :: b) == (set u, b | u in units && b in units[u].bindingRefs :: b)
  {
    assert forall u :: u in units ==> UnitAfter(units[u], units'[u]);
  }

  lemma CallBindings(calls: map<Id, ToolCall>, calls': map<Id, ToolCall>, at: Time)
    requires CallsAfter(calls, calls', at)
    ensures (set c, b | c in calls' && b in calls'[c].bindingRefs :: b) == (set c, b | c in calls && b in calls[c].bindingRefs :: b)
  {
    assert forall k :: k in calls ==> CallAfter(calls[k], calls'[k], at);
  }

  lemma ObservationReferences(g: RunGraph, g': RunGraph, es: seq<TraceEvent>, at: Time)
    requires After(g, g', es, at)
    ensures ReferencedObservations(g') == ReferencedObservations(g)
  {
    hide EventsAfter, TaskAfter, CallAfter, TraceObservations;
    TraceReferences(g, es, at);
    assert forall u :: u in g.units ==> UnitAfter(g.units[u], g'.units[u]);
    assert (set u, o | u in g'.units && o in g'.units[u].observationRefs :: o)
           == (set u, o | u in g.units && o in g.units[u].observationRefs :: o);
  }

  lemma ArtifactReferences(g: RunGraph, g': RunGraph, es: seq<TraceEvent>, at: Time)
    requires After(g, g', es, at)
    ensures ReferencedArtifacts(g') == ReferencedArtifacts(g)
  {
    hide TaskAfter, CallAfter, EventsAfter;
    NewKinds(g, es, at);
    assert forall e :: e in g.trace + es <==> e in g.trace || e in es;
    assert (set e | e in g'.trace && e.toolsetHash.Some? :: e.toolsetHash.value)
           == (set e | e in g.trace && e.toolsetHash.Some? :: e.toolsetHash.value);
  }

  // ----- The whole -----

  // The families that recovery leaves closed.
  lemma FamiliesStand(g: RunGraph, g': RunGraph, es: seq<TraceEvent>, at: Time, e: Evidence)
    requires After(g, g', es, at) && RestCloses(e) && e.g == g
    requires TasksOk(g'.conversation.owner, g'.tasks, g'.history) && UnitsOk(g'.tasks, g'.units)
    requires HistoryUnitsOk(g'.units, g'.history) && LinksOk(g'.run, g'.tasks, g'.links)
    requires forall k :: k in g.calls ==> g.calls[k].Valid()
    ensures UnderstandingCloses(g'.run, e.messages, g'.understanding, g'.deltas, g'.bindings, g'.tasks)
    ensures TasksClose(g'.conversation, g'.run, g'.understanding, g'.deltas, g'.tasks, g'.links, g'.convLinks)
    ensures UnitsClose(g'.understanding, g'.deltas, g'.tasks, g'.units)
    ensures HistoriesClose(g'.understanding, g'.deltas, g'.tasks, g'.units, g'.history)
    ensures CallsClose(g'.run, g'.tasks, g'.units, g'.manifests, g'.gates, g'.calls)
    ensures AttemptsClose(g'.calls, g'.attempts)
  {
    hide UnderstandingCloses, TasksClose, UnitsClose, HistoriesClose, CallsClose, AttemptsClose, ManifestsClose, GatesClose,
      EventCloses, NormalizedClose, GateEventsClose, ReferencesExact, TasksOk, UnitsOk, HistoryUnitsOk, LinksOk, UnitsAfter,
      LinksAfter, CallsAfter, EventsAfter, OpenCallsUntraced;
    assert Grown(g.tasks, g'.tasks) by { assert forall t :: t in g.tasks ==> TaskAfter(g.tasks[t], g'.tasks[t], g.history[t], g'.history[t], at); }
    hide TasksAfter, Grown;
    UnderstandingStands(g.run, g'.run, e.messages, g.understanding, g.deltas, g.bindings, g.tasks, g'.tasks);
    SameTasks(g.tasks, g'.tasks, g.history, g'.history, at);
    TasksStand(g, g', g.understanding, g.deltas);
    UnitsStand(g.understanding, g.deltas, g.tasks, g'.tasks, g.units, g'.units);
    HistoriesStand(g, g', g.understanding, g.deltas, at);
    CallsStand(g, g', at);
    AttemptsStand(g.calls, g'.calls, g.attempts, at);
  }

  lemma SameTasks(tasks: map<Id, Task>, tasks': map<Id, Task>, history: map<Id, seq<Transition>>,
                  history': map<Id, seq<Transition>>, at: Time)
    requires TasksAfter(tasks, tasks', history, history', at)
    ensures tasks'.Keys == tasks.Keys
  {
  }

  // And the trace.
  lemma TraceStands(g: RunGraph, g': RunGraph, es: seq<TraceEvent>, at: Time, e: Evidence)
    requires hide *; After(g, g', es, at) && RestCloses(e) && e.g == g && forall u :: u in g.units ==> g.units[u].taskId in g.tasks
    ensures forall i :: 0 <= i < |g'.trace| ==> EventCloses(g', g'.trace[i])
    ensures NormalizedClose(g'.calls, g'.attempts, g'.trace) && GateEventsClose(g'.gates, g'.manifests, g'.units, g'.trace)
    ensures SourceEdgesClose(g'.observations, g'.trace) <==> SourceEdgesClose(g.observations, g.trace)
    ensures ReferencesExact(e.(g := g'))
  {
    hide UnderstandingCloses, TasksClose, UnitsClose, HistoriesClose, CallsClose, AttemptsClose, ManifestsClose, GatesClose,
      EventCloses, NormalizedClose, GateEventsClose, UnitsAfter, LinksAfter, CallsAfter, EventsAfter, OpenCallsUntraced,
      TasksAfter, ExactFamily, ReferencedMessages, ReferencedBindings, ReferencedObservations, ReferencedArtifacts, OfKind;
    forall i | 0 <= i < |g'.trace| ensures EventCloses(g', g'.trace[i]) {
      if i < |g.trace| { OldEventCloses(g, g', es, at, g.trace[i]); } else { NewEventCloses(g, g', es, at, i - |g.trace|); }
    }
    OldKindStands(g, es, at, ToolResultNormalized);
    OldKindStands(g, es, at, GateDecisionRecorded);
    OldKindStands(g, es, at, ObservationRecorded);
    NormalizedStands(g.calls, g'.calls, g.attempts, g.trace, g'.trace, at);
    GateEventsStand(g.gates, g.manifests, g.units, g'.units, g.trace, g'.trace);
    MessageReferences(g, g', es, at);
    BindingReferences(g, g', es, at);
    ObservationReferences(g, g', es, at);
    ArtifactReferences(g, g', es, at);
  }

  lemma ManifestsMove(g: RunGraph, g': RunGraph, es: seq<TraceEvent>, at: Time)
    requires After(g, g', es, at) && TasksOk(g.conversation.owner, g.tasks, g.history)
    requires TasksOk(g'.conversation.owner, g'.tasks, g'.history)
    requires ManifestsClose(g.run, g.tasks, g.history, g.observations, g.manifests)
    ensures ManifestsClose(g'.run, g'.tasks, g'.history, g'.observations, g'.manifests) <==> MovedOn(g.tasks, g.manifests, at)
  {
    hide ManifestsClose, MovedOn, TasksAfter, UnitsAfter, LinksAfter, CallsAfter, EventsAfter, CompleteHistory, Chain;
    forall t | t in g.tasks ensures CompleteHistory(g.tasks[t], g.history[t]) {
      assert TaskOk(g.conversation.owner, t, g.tasks[t], g.history[t]);
      ChainIsComplete(g.tasks[t], g.history[t]);
    }
    forall t | t in g'.tasks ensures CompleteHistory(g'.tasks[t], g'.history[t]) {
      assert TaskOk(g'.conversation.owner, t, g'.tasks[t], g'.history[t]);
      ChainIsComplete(g'.tasks[t], g'.history[t]);
    }
    ManifestsStand(g, g', at);
  }

  lemma CallsAreValid(g: RunGraph)
    requires CallsOk(g.run, g.tasks, g.units, g.calls, g.attempts)
    ensures forall k :: k in g.calls ==> g.calls[k].Valid() && g.calls[k].callId == k
  {
    forall k | k in g.calls ensures g.calls[k].Valid() && g.calls[k].callId == k {
      assert CallOk(g.run, g.tasks, g.units, k, g.calls[k], g.attempts[k]);
    }
  }

  lemma UnitsHaveTasks(g: RunGraph)
    requires UnitsOk(g.tasks, g.units)
    ensures forall u :: u in g.units ==> g.units[u].taskId in g.tasks
  {
    forall u | u in g.units ensures g.units[u].taskId in g.tasks { assert UnitOk(g.tasks, u, g.units[u]); }
  }

  // The two sides of one recovery, and nothing of the command.
  lemma MovedCloses(g: RunGraph, g': RunGraph, es: seq<TraceEvent>, at: Time, e: Evidence)
    requires Inv(g) && Inv(g') && After(g, g', es, at) && RestCloses(e) && e.g == g
    ensures Closed(e.(g := g')) <==>
              && EndedCallsTraced(g.calls, g.trace) && SourceEdgesClose(g.observations, g.trace)
              && MovedOn(g.tasks, g.manifests, at)
  {
    hide UnderstandingCloses, TasksClose, UnitsClose, HistoriesClose, CallsClose, AttemptsClose, ManifestsClose, GatesClose,
      EventCloses, NormalizedClose, GateEventsClose, ReferencesExact, SourceEdgesClose, LifecyclesClose, StopCloses,
      TasksOk, UnitsOk, HistoryUnitsOk, LinksOk, CallsOk, RunOk, ConvLinksOk, ObservationsOk, AssistantReplied,
      TasksAfter, UnitsAfter, LinksAfter, CallsAfter, EventsAfter, MovedOn, EndedCallsTraced, OpenCallsUntraced;
    CallsAreValid(g);
    UnitsHaveTasks(g);
    FamiliesStand(g, g', es, at, e);
    ManifestsMove(g, g', es, at);
    TraceStands(g, g', es, at, e);
    LifecyclesStand(g, g', es, at);
    StopStands(g, g', es, at);
  }

  // What was stored before the crash closes once recovered, if and only if every call that
  // had ended and every Observation is in the trace and the clock moved past every
  // presentation of a Task that recovery blocks.
  lemma RecoveredRunCloses(g: RunGraph, c: RecoveryCommand, at: Time, messages: map<Id, Message>, artifacts: set<string>)
    requires hide *; Inv(g) && AppliedTo(g, c, at) && RestCloses(Evidence(g, messages, artifacts))
    ensures Closed(Evidence(RecoverWrites(g, c), messages, artifacts)) <==>
              && EndedCallsTraced(g.calls, g.trace) && SourceEdgesClose(g.observations, g.trace)
              && MovedOn(g.tasks, g.manifests, at)
  {
    hide Inv, RecoverWrites, RestCloses, Closed, EndedCallsTraced, SourceEdgesClose, MovedOn, After, RecoveryCommand.Valid,
      RecoverMatches;
    RecoverKeepsInv(g, c);
    RecoveryMoves(g, c, at);
    MovedCloses(g, RecoverWrites(g, c), c.events, at, Evidence(g, messages, artifacts));
  }

  // A call that ended without a trace is never made good for.
  lemma LostTraceStaysLost(g: RunGraph, c: RecoveryCommand, at: Time, k: Id, messages: map<Id, Message>, artifacts: set<string>)
    requires hide *; Inv(g) && AppliedTo(g, c, at)
    requires k in g.calls && !g.calls[k].status.Active() && LifecycleOf(g.trace, k) == []
    ensures !Closed(Evidence(RecoverWrites(g, c), messages, artifacts))
  {
    hide Inv, AppliedTo, RecoverWrites, LifecycleOf, LifecyclesClose, Closed, After;
    RecoveryMoves(g, c, at);
    LostCall(g, RecoverWrites(g, c), c.events, at, k);
    NeedsLifecycles(Evidence(RecoverWrites(g, c), messages, artifacts));
  }

  lemma LostCall(g: RunGraph, g': RunGraph, es: seq<TraceEvent>, at: Time, k: Id)
    requires Inv(g) && After(g, g', es, at) && k in g.calls && !g.calls[k].status.Active() && LifecycleOf(g.trace, k) == []
    ensures !LifecyclesClose(g'.calls, g'.trace)
  {
    hide RunOk, TasksOk, UnitsOk, HistoryUnitsOk, LinksOk, ConvLinksOk, CallsOk, ObservationsOk, TraceOk, AssistantReplied, LifecycleOf,
      EventsAfter, TasksAfter, UnitsAfter, LinksAfter;
    CallsAreValid(g);
    assert CallAfter(g.calls[k], g'.calls[k], at);
    EndedCallUntouched(g, es, at, k);
    LifecycleConcat(g.trace, es, k);
    assert LifecycleOf(g'.trace, k) == [];
    assert !LifecycleCloses(g'.calls[k], g'.trace);
  }

  lemma NeedsLifecycles(e: Evidence)
    ensures Closed(e) ==> LifecyclesClose(e.g.calls, e.g.trace)
  {
    hide UnderstandingCloses, TasksClose, UnitsClose, HistoriesClose, CallsClose, AttemptsClose, ManifestsClose, GatesClose,
      EventCloses, NormalizedClose, GateEventsClose, ReferencesExact, SourceEdgesClose, LifecyclesClose, StopCloses, RootsClose;
  }
}
