// Startup recovery: one closure after another is loaded, closed and written
// back, until no Run is active or something does not work out.

module Startup {
  import opened Records
  import opened Commands
  import opened RecoveryCommands
  import opened RunStore
  import opened Protocol
  import opened ProtocolRecovery
  import opened Behaviours
  import opened RestartRecovery
  import opened CrashClosure
  import opened Host

  datatype RecoveryWriteResult = Applied | ClosureConflict | NotApplicable | ReconciliationRequired

  datatype RecoveryResult = RecoveryResult(
    ready: bool, closureFound: bool, writeResult: Option<RecoveryWriteResult>)

  type Runs = map<Id, RunGraph>

  predicate RunsOk(runs: Runs) { forall r :: r in runs ==> runs[r].run.runId == r && Inv(runs[r]) }

  predicate EventsBelow(g: RunGraph, bound: Id) { forall e :: e in g.trace ==> e.eventId < bound }

  predicate AllEventsBelow(runs: Runs, bound: Id) { forall r :: r in runs ==> EventsBelow(runs[r], bound) }

  function ActiveRuns(runs: Runs): set<Id> { set r | r in runs && runs[r].run.Active() }

  predicate HasRunningAction(g: RunGraph) {
    exists k :: k in g.calls && g.calls[k].effect.Action? && g.calls[k].status.CallRunning?
  }

  predicate NoRunningActions(runs: Runs) { forall r :: r in ActiveRuns(runs) ==> !HasRunningAction(runs[r]) }

  // No record of the graph was stamped after `at`.
  predicate StampedBy(g: RunGraph, at: Time) {
    && g.run.startedAt <= at
    && (forall k :: k in g.calls ==> g.calls[k].startedAt <= at)
    && (forall t :: t in g.tasks ==> g.tasks[t].updatedAt <= at)
    && (forall u :: u in g.units ==> g.units[u].updatedAt <= at)
  }

  predicate AllStampedBy(runs: Runs, at: Time) { forall r :: r in ActiveRuns(runs) ==> StampedBy(runs[r], at) }

  // What one applied recovery does to the Run it claimed.
  ghost predicate Recovered(g: RunGraph, g': RunGraph) {
    && g.run.Active() && g'.run.status.RunIncomplete? && !HasRunningAction(g)
    && Inv(g') && Preserves(g, g') && NoActiveCall(g')
    && exists cmd: RecoveryCommand, at: Time :: AppliedTo(g, cmd, at) && g' == RecoverWrites(g, cmd)
  }

  // The command passed both validators, was put together at one instant and matches the graph.
  predicate AppliedTo(g: RunGraph, cmd: RecoveryCommand, at: Time) {
    cmd.Valid() && RecoverMatches(g, cmd) && Built(cmd.closure, at, cmd)
  }

  // ----- The recovery side of the store -----

  class RecoveryStore {
    var runs: Runs
    // True when no await raises and no other transaction interferes.
    const calm: bool

    constructor (runs: Runs, calm: bool)
      ensures this.runs == runs && this.calm == calm
    {
      this.runs, this.calm := runs, calm;
    }

    // Some active Run with everything it owns, read in one snapshot.
    method LoadNextClosure() returns (r: Awaited<Option<RecoveryClosure>>)
      requires RunsOk(runs)
      ensures calm ==> r.Answer?
      ensures r == Answer(None) ==> ActiveRuns(runs) == {}
      ensures r.Answer? && r.value.Some? ==>
                var c := r.value.value;
                c.Valid() && c.run.runId in ActiveRuns(runs) && Enumerates(c, runs[c.run.runId])
    {
      var fails: bool := *;
      if fails && !calm { return Raised(Exception); }
      var active := ActiveRuns(runs);
      if active == {} { return Answer(None); }
      var id :| id in active;
      var c := ReadClosure(runs[id]);
      CrashLeavesClosure(runs[id], c);
      return Answer(Some(c));
    }

    method ReadClosure(g: RunGraph) returns (c: RecoveryClosure)
      requires Inv(g) && g.run.Active()
      ensures Enumerates(c, g)
    {
      hide Inv, Enumerates;
      InvKeys(g);
      var convKeys := Listed(g.convLinks.Keys);
      var linkKeys := Listed(g.links.Keys);
      var taskKeys := Listed(g.tasks.Keys);
      var unitKeys := Listed(g.units.Keys);
      var callKeys := Listed(ActiveCallIds(g));
      assert forall i :: 0 <= i < |callKeys| ==> callKeys[i] in ActiveCallIds(g);
      c := RecoveryClosure(
        g.conversation, g.run,
        seq(|convKeys|, i requires 0 <= i < |convKeys| => g.convLinks[convKeys[i]]),
        seq(|linkKeys|, i requires 0 <= i < |linkKeys| => g.links[linkKeys[i]]),
        seq(|taskKeys|, i requires 0 <= i < |taskKeys| => TaskAggregate(g.tasks[taskKeys[i]], g.history[taskKeys[i]])),
        seq(|unitKeys|, i requires 0 <= i < |unitKeys| => g.units[unitKeys[i]]),
        seq(|callKeys|, i requires 0 <= i < |callKeys| => CallAggregate(g.calls[callKeys[i]], g.attempts[callKeys[i]])));
      ListedEnumerates(g, convKeys, linkKeys, taskKeys, unitKeys, callKeys, c);
    }

    // One serializable transaction: the fence is re-read, and either everything
    // or nothing is committed.  The answer to a commit may be lost.
    method ClaimAndApply(cmd: RecoveryCommand) returns (r: Awaited<RecoveryWriteResult>)
      requires hide *; RunsOk(runs) && cmd.Valid() && cmd.closure.run.runId in runs
      requires forall e :: e in cmd.events ==> !EventStored(runs[cmd.closure.run.runId], e.eventId)
      modifies this`runs
      ensures r == Answer(Applied) ==>
                var id := cmd.closure.run.runId;
                RecoverMatches(old(runs[id]), cmd) && runs == old(runs)[id := RecoverWrites(old(runs[id]), cmd)]
      ensures r.Answer? && r != Answer(Applied) ==> runs == old(runs)
      ensures r.Raised? ==>
                var id := cmd.closure.run.runId;
                || runs == old(runs)
                || (RecoverMatches(old(runs[id]), cmd) && runs == old(runs)[id := RecoverWrites(old(runs[id]), cmd)])
      ensures calm && Enumerates(cmd.closure, old(runs[cmd.closure.run.runId])) ==>
                r == Answer(if RunningActionListed(cmd.closure) then ReconciliationRequired else Applied)
      ensures r == Answer(ReconciliationRequired) ==>
                HasRunningAction(runs[cmd.closure.run.runId]) && runs[cmd.closure.run.runId].run.Active()
    {
      var raises: bool, commits: bool, contended: bool := *, *, *;
      var id := cmd.closure.run.runId;
      if raises && !commits && !calm { return Raised(Exception); }
      if !runs[id].run.Active() { return Answer(NotApplicable); }
      if contended && !calm { return Answer(ClosureConflict); }
      if !Enumerates(cmd.closure, runs[id]) { return Answer(ClosureConflict); }
      if RunningActionListed(cmd.closure) {
        ListedActionRuns(cmd.closure, runs[id]);
        return Answer(ReconciliationRequired);
      }
      runs := runs[id := RecoverWrites(runs[id], cmd)];
      if raises && !calm { return Raised(Exception); }
      return Answer(Applied);
    }
  }

  predicate RunningActionListed(c: RecoveryClosure) {
    exists a :: a in c.calls && a.call.effect.Action? && a.call.status.CallRunning?
  }

  lemma ListedActionRuns(c: RecoveryClosure, g: RunGraph)
    requires Enumerates(c, g) && RunningActionListed(c)
    ensures HasRunningAction(g)
  {
    var a :| a in c.calls && a.call.effect.Action? && a.call.status.CallRunning?;
    assert a.call.callId in g.calls;
  }

  lemma RunningActionIsListed(c: RecoveryClosure, g: RunGraph)
    requires Enumerates(c, g) && HasRunningAction(g)
    ensures RunningActionListed(c)
  {
    var k :| k in g.calls && g.calls[k].effect.Action? && g.calls[k].status.CallRunning?;
    assert k in AggregateCallIds(c.calls);
    var a :| a in c.calls && a.call.callId == k;
  }

  ghost predicate Lists(s: seq<Id>, keys: set<Id>) { Distinct(s) && forall k :: k in s <==> k in keys }

  method Listed(keys: set<Id>) returns (s: seq<Id>)
    ensures Lists(s, keys)
  {
    s := [];
    var rest := keys;
    while rest != {}
      invariant rest <= keys && Lists(s, keys - rest)
      decreases rest
    {
      var k :| k in rest;
      s, rest := s + [k], rest - {k};
    }
  }

  lemma InvKeys(g: RunGraph)
    requires Inv(g)
    ensures g.history.Keys == g.tasks.Keys && g.attempts.Keys == g.calls.Keys
  {
    hide RunOk, TaskOk, UnitsOk, HistoryUnitsOk, LinksOk, ConvLinksOk, CallOk, ObservationsOk, TraceOk, AssistantReplied;
  }

  lemma ListedEnumerates(g: RunGraph, convKeys: seq<Id>, linkKeys: seq<Id>, taskKeys: seq<Id>,
                         unitKeys: seq<Id>, callKeys: seq<Id>, c: RecoveryClosure)
    requires Inv(g) && g.run.Active() && c.conversation == g.conversation && c.run == g.run
    requires Lists(convKeys, g.convLinks.Keys) && |c.convLinks| == |convKeys|
    requires Lists(linkKeys, g.links.Keys) && |c.runLinks| == |linkKeys|
    requires Lists(taskKeys, g.tasks.Keys) && |c.tasks| == |taskKeys|
    requires Lists(unitKeys, g.units.Keys) && |c.units| == |unitKeys|
    requires Lists(callKeys, ActiveCallIds(g)) && |c.calls| == |callKeys|
    requires forall i :: 0 <= i < |convKeys| ==> convKeys[i] in g.convLinks && c.convLinks[i] == g.convLinks[convKeys[i]]
    requires forall i :: 0 <= i < |linkKeys| ==> linkKeys[i] in g.links && c.runLinks[i] == g.links[linkKeys[i]]
    requires forall i :: 0 <= i < |taskKeys| ==>
               taskKeys[i] in g.tasks && c.tasks[i] == TaskAggregate(g.tasks[taskKeys[i]], g.history[taskKeys[i]])
    requires forall i :: 0 <= i < |unitKeys| ==> unitKeys[i] in g.units && c.units[i] == g.units[unitKeys[i]]
    requires forall i :: 0 <= i < |callKeys| ==>
               callKeys[i] in g.calls && c.calls[i] == CallAggregate(g.calls[callKeys[i]], g.attempts[callKeys[i]])
    ensures Enumerates(c, g)
  {
    ConvListed(g, convKeys, c.convLinks);
    LinksListed(g, linkKeys, c.runLinks);
    TasksListed(g, taskKeys, c.tasks);
    UnitsListed(g, unitKeys, c.units);
    CallsListed(g, callKeys, c.calls);
  }

  lemma ConvListed(g: RunGraph, keys: seq<Id>, ls: seq<ConversationTaskLink>)
    requires ConvLinksOk(g.conversation.conversationId, g.tasks, g.convLinks) && |ls| == |keys|
    requires Lists(keys, g.convLinks.Keys)
    requires forall i :: 0 <= i < |keys| ==> keys[i] in g.convLinks && ls[i] == g.convLinks[keys[i]]
    ensures DistinctConvTasks(ls) && (set l | l in ls :: l.taskId) == g.convLinks.Keys
    ensures forall l :: l in ls ==> l.taskId in g.convLinks && g.convLinks[l.taskId] == l
  {
    assert forall i :: 0 <= i < |keys| ==> ls[i].taskId == keys[i];
    forall k | k in g.convLinks ensures exists l :: l in ls && l.taskId == k {
      assert k in keys;
      var i :| 0 <= i < |keys| && keys[i] == k;
      assert ls[i] in ls;
    }
  }

  lemma LinksListed(g: RunGraph, keys: seq<Id>, ls: seq<RunTaskLink>)
    requires LinksOk(g.run, g.tasks, g.links) && |ls| == |keys|
    requires Lists(keys, g.links.Keys)
    requires forall i :: 0 <= i < |keys| ==> keys[i] in g.links && ls[i] == g.links[keys[i]]
    ensures DistinctLinkTasks(ls) && LinksMatch(g, ls)
  {
    forall i | 0 <= i < |keys| ensures ls[i].taskId == keys[i] {
      assert LinkOk(g.run, keys[i], g.tasks[keys[i]], g.links[keys[i]]);
    }
    forall k | k in g.links ensures k in LinkTasks(ls) {
      assert k in keys;
      var i :| 0 <= i < |keys| && keys[i] == k;
      assert ls[i] in ls;
    }
  }

  lemma TasksListed(g: RunGraph, keys: seq<Id>, ts: seq<TaskAggregate>)
    requires TasksOk(g.conversation.owner, g.tasks, g.history) && |ts| == |keys|
    requires Lists(keys, g.tasks.Keys)
    requires forall i :: 0 <= i < |keys| ==>
               keys[i] in g.tasks && ts[i] == TaskAggregate(g.tasks[keys[i]], g.history[keys[i]])
    ensures DistinctTasks(ts) && AggregateTaskIds(ts) == g.tasks.Keys
    ensures forall a :: a in ts ==>
              && a.task.taskId in g.tasks && g.tasks[a.task.taskId] == a.task
              && a.task.taskId in g.history && g.history[a.task.taskId] == a.transitions
  {
    forall i | 0 <= i < |keys| ensures ts[i].task.taskId == keys[i] {
      assert TaskOk(g.conversation.owner, keys[i], g.tasks[keys[i]], g.history[keys[i]]);
    }
    forall k | k in g.tasks ensures k in AggregateTaskIds(ts) {
      assert k in keys;
      var i :| 0 <= i < |keys| && keys[i] == k;
      assert ts[i] in ts;
    }
  }

  lemma UnitsListed(g: RunGraph, keys: seq<Id>, us: seq<RequestUnit>)
    requires UnitsOk(g.tasks, g.units) && |us| == |keys|
    requires Lists(keys, g.units.Keys)
    requires forall i :: 0 <= i < |keys| ==> keys[i] in g.units && us[i] == g.units[keys[i]]
    ensures DistinctUnitIds(us) && (set u | u in us :: u.unitId) == g.units.Keys
    ensures forall u :: u in us ==> u.unitId in g.units && g.units[u.unitId] == u
  {
    forall i | 0 <= i < |keys| ensures us[i].unitId == keys[i] {
      assert UnitOk(g.tasks, keys[i], g.units[keys[i]]);
    }
    forall k | k in g.units ensures exists u :: u in us && u.unitId == k {
      assert k in keys;
      var i :| 0 <= i < |keys| && keys[i] == k;
      assert us[i] in us;
    }
  }

  lemma CallsListed(g: RunGraph, keys: seq<Id>, cs: seq<CallAggregate>)
    requires CallsOk(g.run, g.tasks, g.units, g.calls, g.attempts) && |cs| == |keys|
    requires Lists(keys, ActiveCallIds(g))
    requires forall i :: 0 <= i < |keys| ==>
               keys[i] in g.calls && cs[i] == CallAggregate(g.calls[keys[i]], g.attempts[keys[i]])
    ensures DistinctCalls(cs) && AggregateCallIds(cs) == ActiveCallIds(g)
    ensures forall a :: a in cs ==>
              && a.call.callId in g.calls && g.calls[a.call.callId] == a.call
              && a.call.callId in g.attempts && g.attempts[a.call.callId] == a.attempts
  {
    forall i | 0 <= i < |keys| ensures cs[i].call.callId == keys[i] && keys[i] in ActiveCallIds(g) {
      assert CallOk(g.run, g.tasks, g.units, keys[i], g.calls[keys[i]], g.attempts[keys[i]]);
      assert keys[i] in keys;
    }
    forall k | k in ActiveCallIds(g) ensures k in AggregateCallIds(cs) {
      assert k in keys;
      var i :| 0 <= i < |keys| && keys[i] == k;
      assert cs[i] in cs;
    }
  }

  // ----- The service -----

  class RestartRecoveryService {
    const port: RecoveryStore
    const host: Host

    constructor (port: RecoveryStore, host: Host)
      ensures this.port == port && this.host == host
    {
      this.port, this.host := port, host;
    }

    method Interruptions(c: RecoveryClosure, at: Time) returns (xs: seq<InterruptCallCommand>)
      ensures CallsBuilt(c.calls, at, xs)
    {
      xs := [];
      for i := 0 to |c.calls|
        invariant |xs| == i && forall k :: 0 <= k < i ==> xs[k] == InterruptOf(c.calls[k].call, at)
      {
        xs := xs + [InterruptOf(c.calls[i].call, at)];
      }
    }

    method UnitByTask(units: seq<RequestUnit>) returns (byTask: map<Id, RequestUnit>)
      ensures byTask.Keys == set u | u in units :: u.taskId
      ensures forall t :: t in byTask ==> byTask[t] in units && byTask[t].taskId == t
    {
      byTask := map[];
      for i := 0 to |units|
        invariant byTask.Keys == set k | 0 <= k < i :: units[k].taskId
        invariant forall t :: t in byTask ==> byTask[t] in units && byTask[t].taskId == t
      {
        byTask := byTask[units[i].taskId := units[i]];
      }
    }

    method Blocks(c: RecoveryClosure, at: Time) returns (xs: seq<TaskTransitionCommand>)
      requires c.UnitsClose()
      modifies host`nextId
      ensures TasksBuilt(Blockable(c.tasks), c.units, at, xs)
      ensures old(host.nextId) <= host.nextId
    {
      hide BlockOf, TasksBuilt, Blockable, RecoveryClosure.UnitsClose;
      var byTask := UnitByTask(c.units);
      EachTaskHasUnit(c);
      NothingBlocked(c.units, at);
      xs := [];
      for i := 0 to |c.tasks|
        invariant TasksBuilt(Blockable(c.tasks[..i]), c.units, at, xs)
        invariant old(host.nextId) <= host.nextId
      {
        var task := c.tasks[i].task;
        assert c.tasks[..i + 1] == c.tasks[..i] + [c.tasks[i]] && c.tasks[i] in c.tasks;
        if task.status.Recoverable() {
          var reason := host.Uuid();
          BlockedGrows(c.tasks[..i], c.units, at, xs, c.tasks[i], byTask[task.taskId], reason);
          xs := xs + [BlockOf(task, byTask[task.taskId], at, reason)];
        } else {
          SkippedGrows(c.tasks[..i], c.tasks[i]);
        }
      }
      assert c.tasks[..|c.tasks|] == c.tasks;
    }

    method Links(c: RecoveryClosure, xs: seq<TaskTransitionCommand>) returns (closed: seq<RunTaskLink>)
      requires c.TasksClose() && c.LinksClose()
      requires forall x :: x in xs ==> x.nextTask.taskId == x.expectedTask.taskId
      requires forall i, j :: 0 <= i < j < |xs| ==> xs[i].nextTask.taskId != xs[j].nextTask.taskId
      ensures LinksBuilt(c.runLinks, c.tasks, xs, closed)
    {
      hide ClosedLink, LinksBuilt, TaskAggregate.Valid;
      NothingClosed(c.tasks, xs);
      var transitionByTask: map<Id, TaskTransitionCommand> := map[];
      for i := 0 to |xs|
        invariant forall k :: 0 <= k < i ==>
                    xs[k].nextTask.taskId in transitionByTask && transitionByTask[xs[k].nextTask.taskId] == xs[k]
        invariant forall t :: t in transitionByTask ==>
                    transitionByTask[t] in xs[..i] && transitionByTask[t].nextTask.taskId == t
      {
        transitionByTask := transitionByTask[xs[i].nextTask.taskId := xs[i]];
      }
      var taskById: map<Id, Task> := map[];
      for i := 0 to |c.tasks|
        invariant forall k :: 0 <= k < i ==>
                    c.tasks[k].task.taskId in taskById && taskById[c.tasks[k].task.taskId] == c.tasks[k].task
      {
        taskById := taskById[c.tasks[i].task.taskId := c.tasks[i].task];
      }
      closed := [];
      for i := 0 to |c.runLinks|
        invariant LinksBuilt(c.runLinks[..i], c.tasks, xs, closed)
      {
        var link := c.runLinks[i];
        LinkHasTask(c, link);
        var version := if link.taskId in transitionByTask then transitionByTask[link.taskId].nextTask.version
                       else taskById[link.taskId].version;
        assert c.runLinks[..i + 1] == c.runLinks[..i] + [link];
        ClosedGrows(c.runLinks[..i], c.tasks, xs, closed, link, version);
        closed := closed + [ClosedLink(link, version)];
      }
      assert c.runLinks[..|c.runLinks|] == c.runLinks;
    }

    method Events(runId: Id, at: Time, tasks: seq<TaskTransitionCommand>, calls: seq<InterruptCallCommand>)
      returns (events: seq<TraceEvent>)
      modifies host`nextId
      ensures EventsBuilt(runId, at, tasks, calls, events) && DistinctEvents(events)
      ensures forall e :: e in events ==> old(host.nextId) <= e.eventId < host.nextId
    {
      hide RunStoppedEvent, TaskChangedEvent, RecoveryInterruptedEvent, EventsBuilt, DistinctEvents;
      var id := host.Uuid();
      events := [RunStoppedEvent(id, at, runId, OutcomeBlocked, ProcessRestartDetected)];
      StopAlone(runId, at, id);
      for i := 0 to |tasks|
        invariant EventsBuilt(runId, at, tasks[..i], [], events) && DistinctEvents(events)
        invariant old(host.nextId) <= host.nextId
        invariant forall e :: e in events ==> old(host.nextId) <= e.eventId < host.nextId
      {
        var next := host.Uuid();
        TaskEventAdded(runId, at, tasks[..i], tasks[i], events, next);
        assert tasks[..i + 1] == tasks[..i] + [tasks[i]];
        events := events + [TaskChangedEvent(next, at, runId, tasks[i].nextTask.taskId, tasks[i].nextUnit.unitId)];
      }
      assert tasks[..|tasks|] == tasks;
      for i := 0 to |calls|
        invariant EventsBuilt(runId, at, tasks, calls[..i], events) && DistinctEvents(events)
        invariant old(host.nextId) <= host.nextId
        invariant forall e :: e in events ==> old(host.nextId) <= e.eventId < host.nextId
      {
        var next := host.Uuid();
        CallEventAdded(runId, at, tasks, calls[..i], calls[i], events, next);
        assert calls[..i + 1] == calls[..i] + [calls[i]];
        events := events + [RecoveryInterruptedEvent(next, at, runId, calls[i].interrupted.callId)];
      }
      assert calls[..|calls|] == calls;
    }

    method Build(c: RecoveryClosure, at: Time) returns (cmd: RecoveryCommand)
      requires c.Valid()
      modifies host`nextId
      ensures Built(c, at, cmd) && DistinctEvents(cmd.events)
      ensures old(host.nextId) <= host.nextId
      ensures forall e :: e in cmd.events ==> old(host.nextId) <= e.eventId < host.nextId
    {
      var calls := Interruptions(c, at);
      var tasks := Blocks(c, at);
      BuiltTaskSourced(c, at, tasks);
      var links := Links(c, tasks);
      var events := Events(c.run.runId, at, tasks, calls);
      assert events[0] in events;
      cmd := RecoveryCommand(c, MarkIncomplete(c.run, at), calls, tasks, links, events);
    }

    // At most one closure: none left, one applied, or nothing written.  A record
    // that does not validate raises, and so do the store's own failures.
    method RecoverPending() returns (r: Awaited<RecoveryResult>)
      requires hide *; RunsOk(port.runs) && AllEventsBelow(port.runs, host.nextId)
      modifies port`runs, host
      ensures RunsOk(port.runs) && AllEventsBelow(port.runs, host.nextId)
      ensures old(host.now) <= host.now
      ensures port.runs == old(port.runs)
              || exists id :: RecoveredOne(old(port.runs), port.runs, id)
      ensures r.Answer? && !r.value.closureFound ==>
                r.value == RecoveryResult(true, false, None) && ActiveRuns(port.runs) == {}
      ensures r.Answer? && r.value.closureFound ==>
                && (r.value.ready <==> r.value.writeResult == Some(Applied))
                && (r.value.ready ==> exists id :: RecoveredOne(old(port.runs), port.runs, id))
                && (!r.value.ready ==> port.runs == old(port.runs))
      ensures port.calm && AllStampedBy(old(port.runs), old(host.now)) ==>
                && r.Answer?
                && (NoRunningActions(old(port.runs)) ==> r.value.ready)
                && (!r.value.ready ==> r.value.writeResult == Some(ReconciliationRequired))
      ensures r.Answer? && r.value.writeResult == Some(ReconciliationRequired) ==>
                !NoRunningActions(port.runs)
    {
      hide Inv, Built, RecoveryClosure.Valid, ClockCovers, Recovered, RecoverWrites, RecoverMatches, StampedBy;
      var loaded := port.LoadNextClosure();
      if loaded.Raised? { return Raised(Exception); }
      if loaded.value.None? { return Answer(RecoveryResult(true, false, None)); }
      var c := loaded.value.value;
      var id := c.run.runId;
      var at := host.Clock();
      ghost var g := port.runs[id];
      var cmd := Build(c, at);
      BuiltValidIff(cmd, at);
      if StampedBy(g, old(host.now)) { StampedClosureCovered(c, g, old(host.now), at); }
      if !cmd.Valid() { return Raised(Exception); }
      hide RecoveryCommand.Valid;
      BelowMeansNew(g, old(host.nextId), cmd.events);
      var w := port.ClaimAndApply(cmd);
      if port.runs != old(port.runs) { ClaimedOne(old(port.runs), port.runs, cmd, at, host.nextId); }
      if w.Raised? { return Raised(Exception); }
      if w.value.Applied? { ClaimedOne(old(port.runs), port.runs, cmd, at, host.nextId); }
      if RunningActionListed(c) { ListedActionRuns(c, g); }
      return Answer(RecoveryResult(w.value.Applied?, true, Some(w.value)));
    }
  }

  lemma OneReplaced(runs: Runs, runs': Runs, id: Id, g': RunGraph, bound: Id)
    requires hide *; RunsOk(runs) && AllEventsBelow(runs, bound) && id in runs && runs' == runs[id := g']
    requires Recovered(runs[id], g') && EventsBelow(g', bound)
    ensures RecoveredOne(runs, runs', id) && RunsOk(runs') && AllEventsBelow(runs', bound)
  {
    hide Inv, AppliedTo, RecoverWrites, EventsBelow, NoActiveCall, CallsKept, HistoryKept;
  }

  lemma ClaimedOne(runs: Runs, runs': Runs, cmd: RecoveryCommand, at: Time, bound: Id)
    requires hide *; RunsOk(runs) && AllEventsBelow(runs, bound) && cmd.closure.run.runId in runs
    requires cmd.Valid() && RecoverMatches(runs[cmd.closure.run.runId], cmd) && Built(cmd.closure, at, cmd)
    requires runs' == runs[cmd.closure.run.runId := RecoverWrites(runs[cmd.closure.run.runId], cmd)]
    requires forall e :: e in cmd.events ==> e.eventId < bound
    ensures RecoveredOne(runs, runs', cmd.closure.run.runId)
    ensures RunsOk(runs') && AllEventsBelow(runs', bound)
  {
    hide Inv, Built, RecoverMatches, RecoverWrites, RecoveryCommand.Valid, Recovered, EventsBelow;
    var g := runs[cmd.closure.run.runId];
    RecoveredIs(g, cmd, at);
    RecoverAddsEvents(g, cmd, bound);
    OneReplaced(runs, runs', cmd.closure.run.runId, RecoverWrites(g, cmd), bound);
  }

  ghost predicate RecoveredOne(runs: Runs, runs': Runs, id: Id) {
    id in runs && id in runs' && runs' == runs[id := runs'[id]] && Recovered(runs[id], runs'[id])
  }

  lemma StopAlone(runId: Id, at: Time, id: Id)
    ensures var events := [RunStoppedEvent(id, at, runId, OutcomeBlocked, ProcessRestartDetected)];
            EventsBuilt(runId, at, [], [], events) && DistinctEvents(events)
  {
  }

  lemma TaskEventAdded(runId: Id, at: Time, tasks: seq<TaskTransitionCommand>, x: TaskTransitionCommand,
                       events: seq<TraceEvent>, id: Id)
    requires EventsBuilt(runId, at, tasks, [], events) && DistinctEvents(events)
    requires forall e :: e in events ==> e.eventId < id
    ensures var more := events + [TaskChangedEvent(id, at, runId, x.nextTask.taskId, x.nextUnit.unitId)];
            && EventsBuilt(runId, at, tasks + [x], [], more) && DistinctEvents(more)
            && forall e :: e in more ==> e in events || e.eventId == id
  {
    hide RunStoppedEvent, TaskChangedEvent, RecoveryInterruptedEvent;
  }

  lemma CallEventAdded(runId: Id, at: Time, tasks: seq<TaskTransitionCommand>, calls: seq<InterruptCallCommand>,
                       x: InterruptCallCommand, events: seq<TraceEvent>, id: Id)
    requires EventsBuilt(runId, at, tasks, calls, events) && DistinctEvents(events)
    requires forall e :: e in events ==> e.eventId < id
    ensures var more := events + [RecoveryInterruptedEvent(id, at, runId, x.interrupted.callId)];
            && EventsBuilt(runId, at, tasks, calls + [x], more) && DistinctEvents(more)
            && forall e :: e in more ==> e in events || e.eventId == id
  {
    hide RunStoppedEvent, TaskChangedEvent, RecoveryInterruptedEvent;
  }

  lemma EachTaskHasUnit(c: RecoveryClosure)
    requires c.UnitsClose()
    ensures forall a :: a in c.tasks ==> a.task.taskId in set u | u in c.units :: u.taskId
  {
    forall a | a in c.tasks ensures a.task.taskId in set u | u in c.units :: u.taskId {
      assert a.task.taskId in AggregateTaskIds(c.tasks);
    }
  }

  lemma NothingBlocked(units: seq<RequestUnit>, at: Time)
    ensures TasksBuilt(Blockable([]), units, at, [])
  {
  }

  lemma BlockedGrows(ts: seq<TaskAggregate>, units: seq<RequestUnit>, at: Time, xs: seq<TaskTransitionCommand>,
                     a: TaskAggregate, unit: RequestUnit, reason: Id)
    requires TasksBuilt(Blockable(ts), units, at, xs) && a.task.status.Recoverable()
    requires unit in units && unit.taskId == a.task.taskId
    ensures TasksBuilt(Blockable(ts + [a]), units, at, xs + [BlockOf(a.task, unit, at, reason)])
  {
    hide Blockable, TasksBuilt;
    BlockablePush(ts, a);
    BuiltPush(Blockable(ts), units, at, xs, a, unit, reason);
  }

  lemma BlockablePush(ts: seq<TaskAggregate>, a: TaskAggregate)
    requires a.task.status.Recoverable()
    ensures Blockable(ts + [a]) == Blockable(ts) + [a]
  {
    assert (ts + [a])[..|ts + [a]| - 1] == ts;
  }

  lemma BlockIs(task: Task, unit: RequestUnit, at: Time, reason: Id)
    ensures BlockOf(task, unit, at, reason).expectedUnit == unit
    ensures BlockOf(task, unit, at, reason).transition.reasonRef == reason
  {
  }

  lemma BuiltPush(ts: seq<TaskAggregate>, units: seq<RequestUnit>, at: Time, xs: seq<TaskTransitionCommand>,
                  a: TaskAggregate, unit: RequestUnit, reason: Id)
    requires TasksBuilt(ts, units, at, xs) && unit in units && unit.taskId == a.task.taskId
    ensures TasksBuilt(ts + [a], units, at, xs + [BlockOf(a.task, unit, at, reason)])
  {
    hide BlockOf;
    BlockIs(a.task, unit, at, reason);
  }

  lemma SkippedGrows(ts: seq<TaskAggregate>, a: TaskAggregate)
    requires !a.task.status.Recoverable()
    ensures Blockable(ts + [a]) == Blockable(ts)
  {
    assert (ts + [a])[..|ts + [a]| - 1] == ts;
  }

  lemma NothingClosed(ts: seq<TaskAggregate>, xs: seq<TaskTransitionCommand>)
    ensures LinksBuilt([], ts, xs, [])
  {
  }

  lemma ClosedGrows(links: seq<RunTaskLink>, ts: seq<TaskAggregate>, xs: seq<TaskTransitionCommand>,
                    closed: seq<RunTaskLink>, link: RunTaskLink, version: nat)
    requires LinksBuilt(links, ts, xs, closed)
    requires forall x :: x in xs && x.expectedTask.taskId == link.taskId ==> version == x.nextTask.version
    requires forall a :: a in ts && a.task.taskId == link.taskId && link.taskId !in TransitionTasks(xs) ==>
               version == a.task.version
    ensures LinksBuilt(links + [link], ts, xs, closed + [ClosedLink(link, version)])
  {
    hide TransitionTasks;
  }

  lemma LinkHasTask(c: RecoveryClosure, link: RunTaskLink)
    requires c.LinksClose() && link in c.runLinks
    ensures exists i :: 0 <= i < |c.tasks| && c.tasks[i].task.taskId == link.taskId
  {
    assert link.taskId in LinkTasks(c.runLinks);
    var a :| a in c.tasks && a.task.taskId == link.taskId;
  }

  lemma StampedClosureCovered(c: RecoveryClosure, g: RunGraph, bound: Time, at: Time)
    requires Enumerates(c, g) && StampedBy(g, bound) && bound <= at
    ensures ClockCovers(c, at)
  {
  }

  lemma BelowMeansNew(g: RunGraph, bound: Id, events: seq<TraceEvent>)
    requires EventsBelow(g, bound) && forall e :: e in events ==> bound <= e.eventId
    ensures forall e :: e in events ==> !EventStored(g, e.eventId)
  {
  }

  lemma RecoverAddsEvents(g: RunGraph, cmd: RecoveryCommand, bound: Id)
    requires EventsBelow(g, bound) && forall e :: e in cmd.events ==> e.eventId < bound
    ensures EventsBelow(RecoverWrites(g, cmd), bound)
  {
  }

  // An applied recovery closes the Run, its calls, Tasks and links, and nothing else changes.
  lemma RecoveredIs(g: RunGraph, cmd: RecoveryCommand, at: Time)
    requires Inv(g) && cmd.Valid() && RecoverMatches(g, cmd) && Built(cmd.closure, at, cmd)
    ensures Recovered(g, RecoverWrites(g, cmd))
  {
    assert AppliedTo(g, cmd, at);
    RecoverKeepsInv(g, cmd);
    RecoverPreserves(g, cmd);
    TerminalRunHasNoActiveCall(RecoverWrites(g, cmd));
    if HasRunningAction(g) { RunningActionIsListed(cmd.closure, g); }
  }

  // Calls are active only while their Run is RUNNING.
  lemma TerminalRunHasNoActiveCall(g: RunGraph)
    requires Inv(g) && !g.run.Active()
    ensures NoActiveCall(g)
  {
    forall k | k in g.calls ensures !g.calls[k].status.Active() {
      assert CallOk(g.run, g.tasks, g.units, k, g.calls[k], g.attempts[k]);
    }
  }

  // ----- The startup loop -----

  // A Run is left alone or recovered once.
  ghost predicate Settled(runs: Runs, runs': Runs) {
    && runs'.Keys == runs.Keys
    && forall r :: r in runs ==> runs'[r] == runs[r] || Recovered(runs[r], runs'[r])
  }

  lemma OneFewerActive(runs: Runs, runs': Runs, id: Id)
    requires RecoveredOne(runs, runs', id)
    ensures id in ActiveRuns(runs) && ActiveRuns(runs') == ActiveRuns(runs) - {id}
  {
    hide Inv, AppliedTo, RecoverWrites, NoActiveCall, Preserves, HasRunningAction;
  }

  lemma FewerActive(runs: Runs, runs': Runs, id: Id)
    requires id in ActiveRuns(runs) && ActiveRuns(runs') == ActiveRuns(runs) - {id}
    ensures |ActiveRuns(runs')| < |ActiveRuns(runs)|
  {
  }

  lemma SettledRefl(runs: Runs)
    ensures Settled(runs, runs)
  {
  }

  lemma SettledFurther(start: Runs, runs: Runs, runs': Runs, id: Id)
    requires Settled(start, runs) && RecoveredOne(runs, runs', id)
    ensures Settled(start, runs')
  {
    hide Inv, AppliedTo, RecoverWrites, NoActiveCall, Preserves, HasRunningAction;
  }

  lemma ReadyMeansDone(start: Runs, runs: Runs)
    requires hide *; RunsOk(runs) && Settled(start, runs) && ActiveRuns(runs) == {}
    ensures forall r :: r in runs ==> !runs[r].run.Active() && NoActiveCall(runs[r])
    ensures NoRunningActions(start)
  {
    hide Built, Enumerates, RecoverWrites, Preserves, HasRunningAction, Inv;
    forall r | r in runs ensures !runs[r].run.Active() && NoActiveCall(runs[r]) {
      assert r !in ActiveRuns(runs);
      TerminalRunHasNoActiveCall(runs[r]);
    }
    forall r | r in ActiveRuns(start) ensures !HasRunningAction(start[r]) {
      assert r !in ActiveRuns(runs);
    }
  }

  // Recovers closure after closure; ready exactly when nothing is left to recover.
  method Start(service: RestartRecoveryService) returns (ready: bool)
    requires hide *; RunsOk(service.port.runs) && AllEventsBelow(service.port.runs, service.host.nextId)
    modifies service.port`runs, service.host
    ensures RunsOk(service.port.runs) && Settled(old(service.port.runs), service.port.runs)
    ensures ready ==> forall r :: r in service.port.runs ==>
              !service.port.runs[r].run.Active() && NoActiveCall(service.port.runs[r])
    ensures service.port.calm && AllStampedBy(old(service.port.runs), old(service.host.now)) ==>
              (ready <==> NoRunningActions(old(service.port.runs)))
  {
    hide Inv, Recovered, StampedBy, HasRunningAction, EventsBelow, RunsOk, AllEventsBelow, Settled, ActiveRuns,
      RecoveredOne, AllStampedBy, NoRunningActions;
    ghost var start := service.port.runs;
    SettledRefl(start);
    ready := true;
    while true
      invariant RunsOk(service.port.runs) && AllEventsBelow(service.port.runs, service.host.nextId)
      invariant old(service.host.now) <= service.host.now
      invariant Settled(start, service.port.runs)
      invariant AllStampedBy(start, old(service.host.now)) ==>
                  AllStampedBy(service.port.runs, service.host.now)
      invariant NoRunningActions(start) ==> NoRunningActions(service.port.runs)
      invariant ready
      decreases |ActiveRuns(service.port.runs)|
    {
      ghost var before, earlier := service.port.runs, service.host.now;
      var result := service.RecoverPending();
      if service.port.runs != before {
        ghost var id :| RecoveredOne(before, service.port.runs, id);
        SettledFurther(start, before, service.port.runs, id);
      }
      if result.Raised? || !result.value.ready {
        ready := false;
        break;
      }
      if !result.value.closureFound {
        if result.value.writeResult.Some? { ready := false; }
        break;
      }
      if result.value.writeResult != Some(Applied) {
        ready := false;
        break;
      }
      ghost var id :| RecoveredOne(before, service.port.runs, id);
      OneFewerActive(before, service.port.runs, id);
      FewerActive(before, service.port.runs, id);
      StampedLater(before, service.port.runs, id, earlier, service.host.now);
    }
    if ready { ReadyMeansDone(start, service.port.runs); }
  }

  lemma StampedLater(runs: Runs, runs': Runs, id: Id, at: Time, at': Time)
    requires RecoveredOne(runs, runs', id) && at <= at'
    ensures AllStampedBy(runs, at) ==> AllStampedBy(runs', at')
    ensures NoRunningActions(runs) ==> NoRunningActions(runs')
  {
    hide Inv, AppliedTo, RecoverWrites, NoActiveCall, Preserves, HasRunningAction;
    OneFewerActive(runs, runs', id);
    forall r | AllStampedBy(runs, at) && r in ActiveRuns(runs') ensures StampedBy(runs'[r], at') {
      assert StampedBy(runs[r], at);
    }
  }
}
