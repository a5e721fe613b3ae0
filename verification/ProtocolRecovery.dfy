// Restart recovery keeps the invariant, whatever number of Tasks and ToolCalls
// the recovered Run owns.

module ProtocolRecovery {
  import opened Records
  import opened Commands
  import opened RecoveryCommands
  import opened RunStore
  import opened Protocol

  // Every transition of the command starts from what is stored.
  predicate Sourced(g: RunGraph, ts: seq<TaskTransitionCommand>) {
    && (forall x :: x in ts ==> TransitMatches(g, x) && x.Valid())
    && (forall i, j :: 0 <= i < j < |ts| ==> ts[i].expectedTask.taskId != ts[j].expectedTask.taskId)
  }

  lemma RecoverySourced(g: RunGraph, c: RecoveryCommand)
    requires c.TasksBijective() && Enumerates(c.closure, g)
    ensures Sourced(g, c.tasks)
  {
    forall x | x in c.tasks ensures TransitMatches(g, x) {
      var a :| a in c.closure.tasks && a.task == x.expectedTask;
    }
  }

  lemma SameTaskSameTransition(ts: seq<TaskTransitionCommand>, x: TaskTransitionCommand, y: TaskTransitionCommand)
    requires forall i, j :: 0 <= i < j < |ts| ==> ts[i].expectedTask.taskId != ts[j].expectedTask.taskId
    requires x in ts && y in ts && x.expectedTask.taskId == y.expectedTask.taskId
    ensures x == y
  {
  }

  lemma RecoveredTasksOk(g: RunGraph, ts: seq<TaskTransitionCommand>)
    requires TasksOk(g.conversation.owner, g.tasks, g.history) && Sourced(g, ts)
    ensures TasksOk(g.conversation.owner, NextTasks(g, ts), NextHistory(g, ts))
  {
    var tasks', history' := NextTasks(g, ts), NextHistory(g, ts);
    forall t | t in tasks' ensures TaskOk(g.conversation.owner, t, tasks'[t], history'[t]) {
      assert TaskOk(g.conversation.owner, t, g.tasks[t], g.history[t]);
      match TransitionFor(ts, t)
      case None =>
      case Some(x) => ChainGrows(x.expectedTask, g.history[t], x.nextTask, x.transition);
    }
  }

  // A RequestUnit moves exactly when its Task does, and by the same transition.
  lemma UnitFollowsTask(g: RunGraph, ts: seq<TaskTransitionCommand>, u: Id)
    requires UnitsOk(g.tasks, g.units) && Sourced(g, ts) && u in g.units
    ensures TransitionForUnit(ts, u) == TransitionFor(ts, g.units[u].taskId)
  {
    assert UnitOk(g.tasks, u, g.units[u]);
    var t := g.units[u].taskId;
    match TransitionFor(ts, t) {
      case Some(x) =>
        assert x.expectedUnit.taskId == t;
        assert g.units[x.expectedUnit.unitId].taskId == t;
        assert x.expectedUnit.unitId == u;
        match TransitionForUnit(ts, u) {
          case Some(y) => SameTaskSameTransition(ts, x, y);
          case None =>
        }
      case None =>
        assert forall y :: y in ts ==> y.expectedTask.taskId in TransitionTasks(ts);
    }
  }

  lemma RecoveredUnitOk(g: RunGraph, ts: seq<TaskTransitionCommand>, u: Id)
    requires UnitsOk(g.tasks, g.units) && Sourced(g, ts) && u in g.units
    ensures UnitOk(NextTasks(g, ts), u, NextUnits(g, ts)[u])
    ensures NextUnits(g, ts)[u].taskId == g.units[u].taskId
    ensures NextUnits(g, ts)[u].bindingRefs == g.units[u].bindingRefs
  {
    assert UnitOk(g.tasks, u, g.units[u]);
    UnitFollowsTask(g, ts, u);
  }

  lemma RecoveredUnitsOk(g: RunGraph, ts: seq<TaskTransitionCommand>)
    requires UnitsOk(g.tasks, g.units) && Sourced(g, ts)
    ensures UnitsOk(NextTasks(g, ts), NextUnits(g, ts)) && SameOwnership(g.units, NextUnits(g, ts))
  {
    var tasks', units' := NextTasks(g, ts), NextUnits(g, ts);
    forall u | u in units'
      ensures UnitOk(tasks', u, units'[u])
      ensures units'[u].taskId == g.units[u].taskId && units'[u].bindingRefs == g.units[u].bindingRefs
    {
      RecoveredUnitOk(g, ts, u);
    }
    MirroredUnitsOk(g.tasks, tasks', g.units, units');
  }

  lemma MirroredUnitsOk(tasks: map<Id, Task>, tasks': map<Id, Task>,
                        units: map<Id, RequestUnit>, units': map<Id, RequestUnit>)
    requires UnitsOk(tasks, units) && tasks'.Keys == tasks.Keys && SameOwnership(units, units')
    requires forall u :: u in units' ==> UnitOk(tasks', u, units'[u])
    ensures UnitsOk(tasks', units')
  {
    forall t | t in tasks' ensures HasUnit(units', t) {
      assert HasUnit(units, t);
      var u :| u in units && units[u].taskId == t;
      assert units'[u].taskId == t;
    }
  }

  lemma RecoveredHistoryOk(g: RunGraph, ts: seq<TaskTransitionCommand>, units': map<Id, RequestUnit>)
    requires HistoryUnitsOk(g.units, g.history) && Sourced(g, ts) && SameOwnership(g.units, units')
    ensures HistoryUnitsOk(units', NextHistory(g, ts))
  {
    var history' := NextHistory(g, ts);
    forall t | t in history' ensures TransitionsOf(units', t, history'[t]) {
      assert TransitionsOf(g.units, t, g.history[t]);
    }
  }

  lemma RecoveredLinkOk(g: RunGraph, c: RecoveryCommand, l: RunTaskLink)
    requires TasksOk(g.conversation.owner, g.tasks, g.history) && LinksOk(g.run, g.tasks, g.links)
    requires c.RunCloses() && c.LinksBijective() && Enumerates(c.closure, g) && Sourced(g, c.tasks)
    requires l in c.links
    ensures l.taskId in g.tasks && LinkOk(c.incomplete, l.taskId, NextTasks(g, c.tasks)[l.taskId], l)
  {
    var stored := RunTaskLink(l.runId, l.taskId, l.base, None);
    var t := l.taskId;
    assert stored in c.closure.runLinks;
    assert LinkOk(g.run, t, g.tasks[t], g.links[t]);
    assert TaskOk(g.conversation.owner, t, g.tasks[t], g.history[t]);
    match TransitionFor(c.tasks, t) {
      case Some(x) =>
      case None =>
        assert t in AggregateTaskIds(c.closure.tasks);
        var a :| a in c.closure.tasks && a.task.taskId == t;
    }
  }

  lemma RecoveredLinkKeys(g: RunGraph, c: RecoveryCommand)
    requires c.RunCloses() && c.LinksBijective() && Enumerates(c.closure, g)
    ensures DistinctLinkTasks(c.links) && LinkTasks(c.links) == g.links.Keys
    ensures c.incomplete.runId == g.run.runId && !c.incomplete.Active()
  {
    hide LinkTasks;
  }

  lemma RecoveredLinksOk(g: RunGraph, c: RecoveryCommand)
    requires TasksOk(g.conversation.owner, g.tasks, g.history) && LinksOk(g.run, g.tasks, g.links)
    requires c.RunCloses() && c.LinksBijective() && Enumerates(c.closure, g) && Sourced(g, c.tasks)
    ensures LinksOk(c.incomplete, NextTasks(g, c.tasks), OverwriteLinks(g.links, c.links))
  {
    hide Enumerates, RecoveryCommand.LinksBijective, TasksOk, LinksOk, LinkOk, Sourced, NextTasks, OverwriteLinks;
    forall l | l in c.links
      ensures l.taskId in g.tasks && LinkOk(c.incomplete, l.taskId, NextTasks(g, c.tasks)[l.taskId], l)
    {
      RecoveredLinkOk(g, c, l);
    }
    RecoveredLinkKeys(g, c);
    OverwrittenLinksOk(g.run, c.incomplete, g.tasks, NextTasks(g, c.tasks), g.links, c.links);
  }

  // Exactly the active calls are interrupted.
  lemma InterruptsActive(g: RunGraph, c: RecoveryCommand, k: Id)
    requires c.CallsBijective() && Enumerates(c.closure, g) && k in g.calls && g.calls[k].callId == k
    ensures InterruptFor(c.calls, k).Some? <==> g.calls[k].status.Active()
    ensures InterruptFor(c.calls, k).Some? ==> InterruptFor(c.calls, k).value.active == g.calls[k]
  {
    match InterruptFor(c.calls, k) {
      case Some(x) =>
        assert x.active in AggregateCalls(c.closure.calls);
        var a :| a in c.closure.calls && a.call == x.active;
        assert a.call.callId in AggregateCallIds(c.closure.calls);
      case None =>
        assert g.calls[k] !in InterruptedFrom(c.calls);
        assert g.calls[k] !in AggregateCalls(c.closure.calls);
        assert k !in AggregateCallIds(c.closure.calls);
        assert k !in ActiveCallIds(g);
    }
  }

  lemma RecoveredCallOk(run: Run, run': Run, tasks: map<Id, Task>, tasks': map<Id, Task>,
                        units: map<Id, RequestUnit>, units': map<Id, RequestUnit>, id: Id,
                        x: InterruptCallCommand, attempts: seq<Attempt>)
    requires CallOk(run, tasks, units, id, x.active, attempts) && x.Valid() && run'.runId == run.runId
    requires tasks'.Keys == tasks.Keys && SameOwnership(units, units')
    ensures CallOk(run', tasks', units', id, x.interrupted, attempts)
  {
  }

  lemma RecoveredCall(g: RunGraph, c: RecoveryCommand, tasks': map<Id, Task>, units': map<Id, RequestUnit>, k: Id)
    requires k in g.calls && k in g.attempts && CallOk(g.run, g.tasks, g.units, k, g.calls[k], g.attempts[k])
    requires c.CallsBijective() && Enumerates(c.closure, g) && c.incomplete.runId == g.run.runId
    requires tasks'.Keys == g.tasks.Keys && SameOwnership(g.units, units')
    ensures CallOk(c.incomplete, tasks', units', k, NextCalls(g, c.calls)[k], g.attempts[k])
  {
    InterruptsActive(g, c, k);
    match InterruptFor(c.calls, k) {
      case Some(x) =>
        RecoveredCallOk(g.run, c.incomplete, g.tasks, tasks', g.units, units', k, x, g.attempts[k]);
      case None =>
    }
  }

  lemma RecoveredCallsOk(g: RunGraph, c: RecoveryCommand, tasks': map<Id, Task>, units': map<Id, RequestUnit>)
    requires CallsOk(g.run, g.tasks, g.units, g.calls, g.attempts)
    requires c.CallsBijective() && Enumerates(c.closure, g) && c.incomplete.runId == g.run.runId
    requires tasks'.Keys == g.tasks.Keys && SameOwnership(g.units, units')
    ensures CallsOk(c.incomplete, tasks', units', NextCalls(g, c.calls), g.attempts)
  {
    hide Enumerates, RecoveryCommand.CallsBijective, SameOwnership;
    var calls' := NextCalls(g, c.calls);
    forall k | k in calls' ensures CallOk(c.incomplete, tasks', units', k, calls'[k], g.attempts[k]) {
      RecoveredCall(g, c, tasks', units', k);
    }
  }

  lemma RecoveredSourcesOk(g: RunGraph, c: RecoveryCommand)
    requires CallsOk(g.run, g.tasks, g.units, g.calls, g.attempts)
    requires ObservationsOk(g.observations, g.sources, g.calls)
    requires c.CallsBijective() && Enumerates(c.closure, g)
    ensures ObservationsOk(g.observations, g.sources, NextCalls(g, c.calls))
  {
    forall o | o in g.sources ensures NextCalls(g, c.calls)[g.sources[o]] == g.calls[g.sources[o]] {
      assert CallOk(g.run, g.tasks, g.units, g.sources[o], g.calls[g.sources[o]], g.attempts[g.sources[o]]);
      InterruptsActive(g, c, g.sources[o]);
    }
  }

  lemma RecoveredTraceOk(g: RunGraph, c: RecoveryCommand)
    requires TraceOk(g.run, g.trace) && c.RunCloses() && c.EventsShaped() && c.StopCloses()
    requires c.closure.run == g.run && g.run.Active()
    requires forall e :: e in c.events ==> !EventStored(g, e.eventId)
    ensures TraceOk(c.incomplete, g.trace + c.events)
  {
    TraceGrows(g.run, c.incomplete, g.trace, c.events);
  }

  lemma RecoveredTaskSide(g: RunGraph, c: RecoveryCommand)
    requires TasksOk(g.conversation.owner, g.tasks, g.history) && UnitsOk(g.tasks, g.units)
    requires HistoryUnitsOk(g.units, g.history) && LinksOk(g.run, g.tasks, g.links)
    requires c.RunCloses() && c.TasksBijective() && c.LinksBijective() && Enumerates(c.closure, g)
    ensures TasksOk(g.conversation.owner, NextTasks(g, c.tasks), NextHistory(g, c.tasks))
    ensures UnitsOk(NextTasks(g, c.tasks), NextUnits(g, c.tasks))
    ensures SameOwnership(g.units, NextUnits(g, c.tasks))
    ensures HistoryUnitsOk(NextUnits(g, c.tasks), NextHistory(g, c.tasks))
    ensures LinksOk(c.incomplete, NextTasks(g, c.tasks), OverwriteLinks(g.links, c.links))
  {
    RecoverySourced(g, c);
    RecoveredTasksOk(g, c.tasks);
    RecoveredUnitsOk(g, c.tasks);
    RecoveredHistoryOk(g, c.tasks, NextUnits(g, c.tasks));
    RecoveredLinksOk(g, c);
  }

  lemma RecoveredCallSide(g: RunGraph, c: RecoveryCommand, tasks': map<Id, Task>, units': map<Id, RequestUnit>)
    requires CallsOk(g.run, g.tasks, g.units, g.calls, g.attempts)
    requires ObservationsOk(g.observations, g.sources, g.calls)
    requires c.RunCloses() && c.CallsBijective() && Enumerates(c.closure, g)
    requires tasks'.Keys == g.tasks.Keys && SameOwnership(g.units, units')
    ensures CallsOk(c.incomplete, tasks', units', NextCalls(g, c.calls), g.attempts)
    ensures ObservationsOk(g.observations, g.sources, NextCalls(g, c.calls))
  {
    RecoveredCallsOk(g, c, tasks', units');
    RecoveredSourcesOk(g, c);
  }

  lemma RecoverKeepsInv(g: RunGraph, c: RecoveryCommand)
    requires Inv(g) && c.Valid() && RecoverMatches(g, c)
    ensures Inv(RecoverWrites(g, c))
  {
    RecoveredTaskSide(g, c);
    RecoveredTraceOk(g, c);
    RecoveredWhole(g, c);
  }

  lemma RecoveredWhole(g: RunGraph, c: RecoveryCommand)
    requires RunOk(g.conversation.conversationId, g.run)
    requires ConvLinksOk(g.conversation.conversationId, g.tasks, g.convLinks)
    requires CallsOk(g.run, g.tasks, g.units, g.calls, g.attempts)
    requires ObservationsOk(g.observations, g.sources, g.calls)
    requires Enumerates(c.closure, g) && c.closure.RunCloses() && c.RunCloses() && c.CallsBijective()
    requires TasksOk(g.conversation.owner, NextTasks(g, c.tasks), NextHistory(g, c.tasks))
    requires UnitsOk(NextTasks(g, c.tasks), NextUnits(g, c.tasks))
    requires SameOwnership(g.units, NextUnits(g, c.tasks))
    requires HistoryUnitsOk(NextUnits(g, c.tasks), NextHistory(g, c.tasks))
    requires LinksOk(c.incomplete, NextTasks(g, c.tasks), OverwriteLinks(g.links, c.links))
    requires TraceOk(c.incomplete, g.trace + c.events)
    ensures Inv(RecoverWrites(g, c))
  {
    var tasks', units' := NextTasks(g, c.tasks), NextUnits(g, c.tasks);
    RecoveredCallSide(g, c, tasks', units');
    RecoveredInv(g, c, tasks', units', NextHistory(g, c.tasks), NextCalls(g, c.calls),
                 OverwriteLinks(g.links, c.links));
  }

  lemma RecoveredInv(g: RunGraph, c: RecoveryCommand, tasks': map<Id, Task>, units': map<Id, RequestUnit>,
                     history': map<Id, seq<Transition>>, calls': map<Id, ToolCall>, links': map<Id, RunTaskLink>)
    requires c.closure.RunCloses() && c.RunCloses() && c.closure.run == g.run
    requires RunOk(g.conversation.conversationId, g.run) && tasks'.Keys == g.tasks.Keys
    requires ConvLinksOk(g.conversation.conversationId, g.tasks, g.convLinks)
    requires TasksOk(g.conversation.owner, tasks', history')
    requires UnitsOk(tasks', units') && HistoryUnitsOk(units', history')
    requires LinksOk(c.incomplete, tasks', links')
    requires CallsOk(c.incomplete, tasks', units', calls', g.attempts)
    requires ObservationsOk(g.observations, g.sources, calls')
    requires TraceOk(c.incomplete, g.trace + c.events)
    ensures Inv(g.(run := c.incomplete, links := links', tasks := tasks', units := units', history := history',
                   calls := calls', trace := g.trace + c.events))
  {
    assert ConvLinksOk(g.conversation.conversationId, tasks', g.convLinks);
  }
}
