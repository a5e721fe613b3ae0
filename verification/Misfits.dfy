// Commands that pass their validators and are applied, and still do not fit the Run
// they are applied to.  There is one of each kind for every Run that is far enough.

module Misfits {
  import opened Records
  import opened Commands
  import opened RecoveryCommands
  import opened RunStore
  import opened Protocol
  import opened Behaviours

  // Applied, and no longer consistent.
  predicate Breaks(g: RunGraph, w: Write) { Validated(w) && Lands(g, w) && !Inv(ApplyWrite(g, w)) }

  lemma MisfitBreaks(g: RunGraph, w: Write)
    requires Inv(g) && Validated(w) && Lands(g, w) && !Fitting(g, w)
    ensures Breaks(g, w)
  {
    hide Inv, ApplyWrite, Lands, Validated, Fitting;
    WriteKeepsInvExactly(g, w);
  }

  // A new call of a unit of this Run.
  function NewCall(g: RunGraph, id: Id, unit: RequestUnit, version: nat, bindings: seq<Id>): CreateCallCommand {
    CreateCallCommand(ToolCall(id, g.run.runId, unit.taskId, unit.unitId, 0, 0, 0, "get_order", "", version, bindings, Read,
                               0, CallCreated, 0, None, None, None, None, None))
  }

  lemma NewCallLands(g: RunGraph, id: Id, unit: RequestUnit, version: nat, bindings: seq<Id>)
    requires g.run.status.RunRunning? && id !in g.calls && 1 <= version && bindings != []
    ensures Validated(InsertCall(NewCall(g, id, unit, version, bindings)))
            && Lands(g, InsertCall(NewCall(g, id, unit, version, bindings)))
  {
  }

  // A ToolCall that was validated against any other version of its Task.
  lemma StaleCallBreaks(g: RunGraph, id: Id, u: Id, version: nat)
    requires hide *; Inv(g) && g.run.status.RunRunning? && id !in g.calls && u in g.units && g.units[u].bindingRefs != []
    requires g.units[u].taskId in g.tasks && 1 <= version != g.tasks[g.units[u].taskId].version
    ensures Breaks(g, InsertCall(NewCall(g, id, g.units[u], version, g.units[u].bindingRefs)))
  {
    hide Inv, Breaks;
    NewCallLands(g, id, g.units[u], version, g.units[u].bindingRefs);
    MisfitBreaks(g, InsertCall(NewCall(g, id, g.units[u], version, g.units[u].bindingRefs)));
  }

  // A ToolCall with a binding that is not one of its unit.
  lemma ForeignBindingBreaks(g: RunGraph, id: Id, u: Id, b: Id)
    requires hide *; Inv(g) && g.run.status.RunRunning? && id !in g.calls && u in g.units && b !in g.units[u].bindingRefs
    requires g.units[u].taskId in g.tasks && 1 <= g.tasks[g.units[u].taskId].version
    ensures g.units[u].unitId == u
    ensures Breaks(g, InsertCall(NewCall(g, id, g.units[u], g.tasks[g.units[u].taskId].version, [b])))
  {
    hide TasksOk, CallsOk, ObservationsOk, TraceOk, AssistantReplied, LinksOk, ConvLinksOk, HistoryUnitsOk, RunOk, Breaks;
    var version := g.tasks[g.units[u].taskId].version;
    assert UnitOk(g.tasks, u, g.units[u]);
    hide Inv, UnitsOk;
    NewCallLands(g, id, g.units[u], version, [b]);
    assert b in [b];
    MisfitBreaks(g, InsertCall(NewCall(g, id, g.units[u], version, [b])));
  }

  // A transition of the Task of a call that is still active.
  lemma MoveUnderCallBreaks(g: RunGraph, k: Id) returns (c: TaskTransitionCommand)
    requires hide *; Inv(g) && k in g.calls && g.calls[k].status.Active()
    ensures g.run.Active() && c.expectedTask.taskId == g.calls[k].taskId && Breaks(g, Transit(c))
  {
    hide TasksOk, UnitsOk, ObservationsOk, TraceOk, AssistantReplied, LinksOk, ConvLinksOk, HistoryUnitsOk,
      RunOk, TaskTransitionCommand.Valid, TransitMatches, Breaks, CallAggregate.Valid;
    assert CallOk(g.run, g.tasks, g.units, k, g.calls[k], g.attempts[k]);
    TaskKeyed(g, g.calls[k].taskId);
    c := SomeLateTransit(g, g.calls[k].taskId);
    hide Inv;
    assert !Idle(g, c.expectedTask.taskId);
    MisfitBreaks(g, Transit(c));
  }

  lemma TaskKeyed(g: RunGraph, t: Id)
    requires TasksOk(g.conversation.owner, g.tasks, g.history) && t in g.tasks
    ensures g.tasks[t].taskId == t
  {
    hide Chain;
  }

  // A RunStopped that finalization did not write, whatever it says.
  lemma StrayStopBreaks(g: RunGraph, id: Id, at: Time, outcome: AgentOutcome, reason: StopReason)
    requires hide *; Inv(g) && !EventStored(g, id)
    ensures Breaks(g, AppendTrace(RunStoppedEvent(id, at, g.run.runId, outcome, reason)))
  {
    hide Inv, Breaks, EventStored;
    MisfitBreaks(g, AppendTrace(RunStoppedEvent(id, at, g.run.runId, outcome, reason)));
  }
}
