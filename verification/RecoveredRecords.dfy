// What recovery changes in the records of a Run, family by family, and what it leaves.

module RecoveredRecords {
  import opened Records
  import opened Commands
  import opened RecoveryCommands
  import opened RunStore
  import opened Protocol
  import opened ProtocolRecovery
  import opened RestartRecovery
  import opened Startup

  predicate RunAfter(run: Run, run': Run, at: Time) { run.Active() && run' == MarkIncomplete(run, at) }

  // One more transition for a Task that was not final, nothing for the others.
  predicate TaskAfter(t: Task, t': Task, hs: seq<Transition>, hs': seq<Transition>, at: Time) {
    if t.status.Recoverable() then
      && t'.taskId == t.taskId && t'.owner == t.owner && t'.createdAt == t.createdAt && t'.version == t.version + 1
      && |hs'| == |hs| + 1 && hs' == hs + [hs'[|hs|]] && hs'[|hs|].changedAt == at
    else t' == t && hs' == hs
  }

  predicate TasksAfter(tasks: map<Id, Task>, tasks': map<Id, Task>, history: map<Id, seq<Transition>>,
                       history': map<Id, seq<Transition>>, at: Time)
  {
    && tasks'.Keys == tasks.Keys == history.Keys == history'.Keys
    && forall t :: t in tasks ==> TaskAfter(tasks[t], tasks'[t], history[t], history'[t], at)
  }

  predicate UnitAfter(u: RequestUnit, u': RequestUnit) {
    u' == u.(status := u'.status, version := u'.version, updatedAt := u'.updatedAt, resultRefs := u'.resultRefs)
  }

  predicate UnitsAfter(units: map<Id, RequestUnit>, units': map<Id, RequestUnit>) {
    units'.Keys == units.Keys && forall u :: u in units ==> UnitAfter(units[u], units'[u])
  }

  predicate LinksAfter(links: map<Id, RunTaskLink>, links': map<Id, RunTaskLink>) {
    links'.Keys == links.Keys && forall t :: t in links ==> links'[t] == links[t].(result := links'[t].result)
  }

  predicate CallAfter(c: ToolCall, c': ToolCall, at: Time) {
    if c.status.Active() then c' == InterruptOf(c, at).interrupted && c.startedAt <= at else c' == c
  }

  predicate CallsAfter(calls: map<Id, ToolCall>, calls': map<Id, ToolCall>, at: Time) {
    calls'.Keys == calls.Keys && forall k :: k in calls ==> CallAfter(calls[k], calls'[k], at)
  }

  // ----- The new events -----

  predicate IsStop(e: TraceEvent, runId: Id, at: Time) {
    e == RunStoppedEvent(e.eventId, at, runId, OutcomeBlocked, ProcessRestartDetected)
  }

  predicate IsMove(e: TraceEvent, units: map<Id, RequestUnit>, runId: Id, at: Time) {
    && e.taskId.Some? && e.unitId.Some? && e.unitId.value in units && units[e.unitId.value].taskId == e.taskId.value
    && e == TaskChangedEvent(e.eventId, at, runId, e.taskId.value, e.unitId.value)
  }

  predicate IsInterrupt(e: TraceEvent, calls: map<Id, ToolCall>, runId: Id, at: Time) {
    && e.callId.Some? && e.callId.value in calls && calls[e.callId.value].status.Active()
    && e == RecoveryInterruptedEvent(e.eventId, at, runId, e.callId.value)
  }

  predicate Interrupts(es: seq<TraceEvent>, k: Id) {
    exists i :: 0 <= i < |es| && es[i].kind.ToolCallInterrupted? && es[i].callId == Some(k)
  }

  // RunStopped first, then moves and interruptions, one for every call that was open.
  predicate EventsAfter(g: RunGraph, es: seq<TraceEvent>, at: Time) {
    && es != [] && IsStop(es[0], g.run.runId, at)
    && (forall i :: 1 <= i < |es| ==> IsMove(es[i], g.units, g.run.runId, at) || IsInterrupt(es[i], g.calls, g.run.runId, at))
    && (forall i, j :: 0 <= i < j < |es| && es[i].kind.ToolCallInterrupted? && es[j].kind.ToolCallInterrupted? ==>
          es[i].callId != es[j].callId)
    && (forall k :: k in g.calls && g.calls[k].status.Active() ==> Interrupts(es, k))
  }

  // Everything recovery does to a Run.
  predicate After(g: RunGraph, g': RunGraph, es: seq<TraceEvent>, at: Time) {
    && g' == g.(run := g'.run, links := g'.links, tasks := g'.tasks, units := g'.units, history := g'.history,
                calls := g'.calls, trace := g.trace + es)
    && RunAfter(g.run, g'.run, at)
    && TasksAfter(g.tasks, g'.tasks, g.history, g'.history, at)
    && UnitsAfter(g.units, g'.units)
    && LinksAfter(g.links, g'.links)
    && CallsAfter(g.calls, g'.calls, at)
    && EventsAfter(g, es, at)
  }

  // ----- That this is what recovery does -----

  lemma TransitionBuilt(g: RunGraph, c: RecoveryCommand, at: Time, x: TaskTransitionCommand)
    requires Enumerates(c.closure, g) && TasksBuilt(Blockable(c.closure.tasks), c.closure.units, at, c.tasks) && x in c.tasks
    ensures x == BlockOf(x.expectedTask, x.expectedUnit, at, x.transition.reasonRef)
    ensures x.expectedTask.status.Recoverable() && x.expectedTask.taskId in g.tasks && g.tasks[x.expectedTask.taskId] == x.expectedTask
    ensures x.expectedUnit.unitId in g.units && g.units[x.expectedUnit.unitId] == x.expectedUnit
    ensures x.expectedUnit.taskId == x.expectedTask.taskId
  {
    hide DistinctTasks, DistinctCalls, LinksMatch;
    var i :| 0 <= i < |c.tasks| && c.tasks[i] == x;
    assert Blockable(c.closure.tasks)[i] in Blockable(c.closure.tasks);
  }

  lemma TaskMoves(g: RunGraph, c: RecoveryCommand, at: Time, t: Id)
    requires Enumerates(c.closure, g) && TasksBuilt(Blockable(c.closure.tasks), c.closure.units, at, c.tasks)
    requires c.TasksBijective() && t in g.tasks && t in g.history
    ensures TaskAfter(g.tasks[t], NextTasks(g, c.tasks)[t], g.history[t], NextHistory(g, c.tasks)[t], at)
  {
    hide TasksBuilt, Blockable, Enumerates, RecoveryCommand.TasksBijective;
    match TransitionFor(c.tasks, t)
    case Some(x) => TransitionBuilt(g, c, at, x);
    case None => UntouchedIsFinal(g, c, t);
  }

  lemma TasksMove(g: RunGraph, c: RecoveryCommand, at: Time)
    requires Enumerates(c.closure, g) && TasksBuilt(Blockable(c.closure.tasks), c.closure.units, at, c.tasks)
    requires c.TasksBijective() && g.history.Keys == g.tasks.Keys
    ensures TasksAfter(g.tasks, NextTasks(g, c.tasks), g.history, NextHistory(g, c.tasks), at)
  {
    hide TasksBuilt, Blockable, TaskAfter, Enumerates, RecoveryCommand.TasksBijective;
    var tasks', history' := NextTasks(g, c.tasks), NextHistory(g, c.tasks);
    forall t | t in g.tasks ensures TaskAfter(g.tasks[t], tasks'[t], g.history[t], history'[t], at) {
      TaskMoves(g, c, at, t);
    }
  }

  lemma UntouchedIsFinal(g: RunGraph, c: RecoveryCommand, t: Id)
    requires Enumerates(c.closure, g) && c.TasksBijective() && t in g.tasks && t !in TransitionTasks(c.tasks)
    ensures !g.tasks[t].status.Recoverable()
  {
    hide TaskTransitionCommand.Valid, LinksMatch;
    assert t in AggregateTaskIds(c.closure.tasks);
    var a :| a in c.closure.tasks && a.task.taskId == t;
  }

  lemma UnitsMove(g: RunGraph, c: RecoveryCommand, at: Time)
    requires Enumerates(c.closure, g) && TasksBuilt(Blockable(c.closure.tasks), c.closure.units, at, c.tasks)
    ensures UnitsAfter(g.units, NextUnits(g, c.tasks))
  {
    hide TasksBuilt, Enumerates, Blockable;
    forall u | u in g.units ensures UnitAfter(g.units[u], NextUnits(g, c.tasks)[u]) {
      match TransitionForUnit(c.tasks, u)
      case Some(x) => TransitionBuilt(g, c, at, x);
      case None =>
    }
  }

  lemma LinksEnd(g: RunGraph, c: RecoveryCommand)
    requires Enumerates(c.closure, g) && c.LinksBijective()
    requires forall t :: t in g.links ==> g.links[t].result.None?
    ensures LinksAfter(g.links, OverwriteLinks(g.links, c.links))
  {
    hide TaskTransitionCommand.Valid;
    var links' := OverwriteLinks(g.links, c.links);
    forall t | t in g.links ensures links'[t] == g.links[t].(result := links'[t].result) {
      assert t in LinkTasks(c.links);
      var l :| l in c.links && l.taskId == t;
      assert RunTaskLink(l.runId, l.taskId, l.base, None) in c.closure.runLinks;
    }
  }

  lemma CallsEnd(g: RunGraph, c: RecoveryCommand, at: Time)
    requires Enumerates(c.closure, g) && c.CallsBijective() && CallsBuilt(c.closure.calls, at, c.calls)
    requires forall k :: k in g.calls ==> g.calls[k].callId == k
    ensures CallsAfter(g.calls, NextCalls(g, c.calls), at)
  {
    hide Enumerates, RecoveryCommand.CallsBijective;
    var calls' := NextCalls(g, c.calls);
    forall k | k in g.calls ensures CallAfter(g.calls[k], calls'[k], at) {
      InterruptsActive(g, c, k);
      match InterruptFor(c.calls, k)
      case Some(x) => InterruptBuilt(c, at, x);
      case None =>
    }
  }

  lemma InterruptBuilt(c: RecoveryCommand, at: Time, x: InterruptCallCommand)
    requires CallsBuilt(c.closure.calls, at, c.calls) && c.CallsBijective() && x in c.calls
    ensures x == InterruptOf(x.active, at) && x.active.startedAt <= at
  {
    assert x.Valid();
  }

  lemma EventsAppended(g: RunGraph, c: RecoveryCommand, at: Time)
    requires Enumerates(c.closure, g) && c.CallsBijective() && c.CallEventsBijective()
    requires CallsBuilt(c.closure.calls, at, c.calls)
    requires TasksBuilt(Blockable(c.closure.tasks), c.closure.units, at, c.tasks)
    requires EventsBuilt(g.run.runId, at, c.tasks, c.calls, c.events)
    requires forall k :: k in g.calls ==> g.calls[k].callId == k
    ensures EventsAfter(g, c.events, at)
  {
    hide Enumerates, RecoveryCommand.CallsBijective, CallsBuilt, TasksBuilt, Blockable, IsMove, IsInterrupt, Interrupts;
    forall i | 1 <= i < |c.events|
      ensures IsMove(c.events[i], g.units, g.run.runId, at) || IsInterrupt(c.events[i], g.calls, g.run.runId, at)
    {
      if i <= |c.tasks| { MoveEvent(g, c, at, i); } else { InterruptEvent(g, c, at, i); }
    }
    forall k | k in g.calls && g.calls[k].status.Active() ensures Interrupts(c.events, k) { OpenIsInterrupted(g, c, at, k); }
  }

  lemma MoveEvent(g: RunGraph, c: RecoveryCommand, at: Time, i: nat)
    requires Enumerates(c.closure, g) && TasksBuilt(Blockable(c.closure.tasks), c.closure.units, at, c.tasks)
    requires EventsBuilt(g.run.runId, at, c.tasks, c.calls, c.events) && 1 <= i <= |c.tasks|
    ensures IsMove(c.events[i], g.units, g.run.runId, at)
  {
    hide Enumerates, TasksBuilt, Blockable;
    TransitionBuilt(g, c, at, c.tasks[i - 1]);
  }

  lemma InterruptEvent(g: RunGraph, c: RecoveryCommand, at: Time, i: nat)
    requires Enumerates(c.closure, g) && CallsBuilt(c.closure.calls, at, c.calls) && c.CallsBijective()
    requires EventsBuilt(g.run.runId, at, c.tasks, c.calls, c.events) && |c.tasks| < i < |c.events|
    ensures IsInterrupt(c.events[i], g.calls, g.run.runId, at)
  {
    hide Enumerates, CallsBuilt, RecoveryCommand.CallsBijective;
    var x := c.calls[i - 1 - |c.tasks|];
    InterruptBuilt(c, at, x);
    InterruptedIsOpen(g, c, x);
  }

  lemma InterruptedIsOpen(g: RunGraph, c: RecoveryCommand, x: InterruptCallCommand)
    requires Enumerates(c.closure, g) && c.CallsBijective() && x in c.calls
    ensures x.active.callId in g.calls && g.calls[x.active.callId] == x.active && x.active.status.Active()
  {
    hide InterruptCallCommand.Valid, DistinctTasks, LinksMatch;
    var a :| a in c.closure.calls && a.call == x.active;
    assert a.call.callId in AggregateCallIds(c.closure.calls);
  }

  lemma OpenIsInterrupted(g: RunGraph, c: RecoveryCommand, at: Time, k: Id)
    requires c.CallsBijective() && EventsBuilt(g.run.runId, at, c.tasks, c.calls, c.events) && Enumerates(c.closure, g)
    requires k in g.calls && g.calls[k].status.Active() && g.calls[k].callId == k
    ensures Interrupts(c.events, k)
  {
    hide Enumerates;
    InterruptsActive(g, c, k);
    var x := InterruptFor(c.calls, k).value;
    assert x.Valid() && x.interrupted.callId == k;
    var j :| 0 <= j < |c.calls| && c.calls[j] == x;
    assert c.events[1 + |c.tasks| + j].callId == Some(k);
  }

  lemma CallsKeyed(g: RunGraph)
    requires CallsOk(g.run, g.tasks, g.units, g.calls, g.attempts)
    ensures forall k :: k in g.calls ==> g.calls[k].callId == k
  {
    forall k | k in g.calls ensures g.calls[k].callId == k {
      assert CallOk(g.run, g.tasks, g.units, k, g.calls[k], g.attempts[k]);
    }
  }

  lemma LinksOpen(g: RunGraph)
    requires LinksOk(g.run, g.tasks, g.links) && g.run.Active()
    ensures forall t :: t in g.links ==> g.links[t].result.None?
  {
    forall t | t in g.links ensures g.links[t].result.None? { assert LinkOk(g.run, t, g.tasks[t], g.links[t]); }
  }

  lemma RecoveryMoves(g: RunGraph, c: RecoveryCommand, at: Time)
    requires Inv(g) && AppliedTo(g, c, at)
    ensures After(g, RecoverWrites(g, c), c.events, at)
  {
    hide TaskAfter, UnitsAfter, TasksAfter, LinksAfter, CallsAfter, EventsAfter, TasksBuilt, CallsBuilt, EventsBuilt, LinksBuilt,
      Blockable, RecoveryClosure.Valid, RecoveryCommand.RunCloses, RecoveryCommand.CallsBijective, RecoveryCommand.TasksBijective,
      RecoveryCommand.LinksBijective, RecoveryCommand.EventsShaped, RecoveryCommand.StopCloses,
      RecoveryCommand.TaskEventsBijective, RecoveryCommand.CallEventsBijective, NextTasks, NextUnits, NextHistory, NextCalls,
      OverwriteLinks, CallsOk, LinksOk, UnitsOk, HistoryUnitsOk, RunOk, ConvLinksOk, ObservationsOk, TraceOk, AssistantReplied;
    ListsRun(c.closure, g);
    hide Enumerates;
    CallsKeyed(g);
    LinksOpen(g);
    TasksMove(g, c, at);
    UnitsMove(g, c, at);
    LinksEnd(g, c);
    CallsEnd(g, c, at);
    EventsAppended(g, c, at);
  }

  lemma ListsRun(c: RecoveryClosure, g: RunGraph)
    requires Enumerates(c, g)
    ensures c.run == g.run && g.run.Active()
  {
  }
}
