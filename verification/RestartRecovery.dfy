// The one command restart recovery builds from a closure, and when it is valid.

module RestartRecovery {
  import opened Records
  import opened Commands
  import opened RecoveryCommands

  // ----- One projection per record of the closure -----

  function MarkIncomplete(run: Run, at: Time): Run {
    run.(status := RunIncomplete, completedAt := Some(at), stopReason := Some(ProcessRestartDetected),
         incompleteReason := Some(RESTART_DETECTED))
  }

  function InterruptOf(call: ToolCall, at: Time): InterruptCallCommand {
    InterruptCallCommand(
      call,
      call.(status := CallInterrupted, finishedAt := Some(at), interruption := Some(RESTART_DETECTED)))
  }

  function BlockOf(task: Task, unit: RequestUnit, at: Time, reason: Id): TaskTransitionCommand {
    TaskTransitionCommand(
      task,
      task.(status := TaskBlocked, version := task.version + 1, updatedAt := at, lastOutcomeRef := Some(reason)),
      unit,
      unit.(status := TaskBlocked, version := unit.version + 1, updatedAt := at,
            resultRefs := unit.resultRefs + [reason]),
      Transition(task.taskId, unit.unitId, task.status, TaskBlocked, task.version, task.version + 1, reason, at))
  }

  function ClosedLink(link: RunTaskLink, version: nat): RunTaskLink { link.(result := Some(version)) }

  // The aggregates whose Task is not final yet, in their order.
  function Blockable(ts: seq<TaskAggregate>): (r: seq<TaskAggregate>)
    ensures forall a :: a in r <==> a in ts && a.task.status.Recoverable()
    ensures DistinctTasks(ts) ==> DistinctTasks(r)
  {
    if ts == [] then []
    else
      var last := ts[|ts| - 1];
      assert ts == ts[..|ts| - 1] + [last];
      Blockable(ts[..|ts| - 1]) + if last.task.status.Recoverable() then [last] else []
  }

  // What the service must have put together, whatever identifiers it drew.
  predicate Built(c: RecoveryClosure, at: Time, cmd: RecoveryCommand) {
    && cmd.closure == c && cmd.incomplete == MarkIncomplete(c.run, at)
    && CallsBuilt(c.calls, at, cmd.calls)
    && TasksBuilt(Blockable(c.tasks), c.units, at, cmd.tasks)
    && LinksBuilt(c.runLinks, c.tasks, cmd.tasks, cmd.links)
    && EventsBuilt(c.run.runId, at, cmd.tasks, cmd.calls, cmd.events)
  }

  predicate CallsBuilt(calls: seq<CallAggregate>, at: Time, xs: seq<InterruptCallCommand>) {
    |xs| == |calls| && forall i :: 0 <= i < |calls| ==> xs[i] == InterruptOf(calls[i].call, at)
  }

  predicate TasksBuilt(
    ts: seq<TaskAggregate>, units: seq<RequestUnit>, at: Time, xs: seq<TaskTransitionCommand>)
  {
    && |xs| == |ts|
    && forall i :: 0 <= i < |ts| ==>
         && xs[i].expectedUnit in units && xs[i].expectedUnit.taskId == ts[i].task.taskId
         && xs[i] == BlockOf(ts[i].task, xs[i].expectedUnit, at, xs[i].transition.reasonRef)
  }

  predicate LinksBuilt(
    links: seq<RunTaskLink>, ts: seq<TaskAggregate>, xs: seq<TaskTransitionCommand>, closed: seq<RunTaskLink>)
  {
    && |closed| == |links|
    && forall i :: 0 <= i < |links| ==>
         && closed[i] == links[i].(result := closed[i].result) && closed[i].result.Some?
         && (forall x :: x in xs && x.expectedTask.taskId == links[i].taskId ==>
               closed[i].result == Some(x.nextTask.version))
         && (forall a :: a in ts && a.task.taskId == links[i].taskId && links[i].taskId !in TransitionTasks(xs) ==>
               closed[i].result == Some(a.task.version))
  }

  predicate EventsBuilt(
    runId: Id, at: Time, tasks: seq<TaskTransitionCommand>, calls: seq<InterruptCallCommand>,
    events: seq<TraceEvent>)
  {
    && |events| == 1 + |tasks| + |calls|
    && events[0] == RunStoppedEvent(events[0].eventId, at, runId, OutcomeBlocked, ProcessRestartDetected)
    && (forall k :: 1 <= k <= |tasks| ==>
          events[k] == TaskChangedEvent(events[k].eventId, at, runId, tasks[k - 1].nextTask.taskId,
                                        tasks[k - 1].nextUnit.unitId))
    && (forall k :: |tasks| < k < |events| ==>
          events[k] == RecoveryInterruptedEvent(events[k].eventId, at, runId,
                                                calls[k - 1 - |tasks|].interrupted.callId))
  }

  // ----- When the built command passes its validators -----

  // The clock reads no earlier than any timestamp recovery has to move past.
  predicate ClockCovers(c: RecoveryClosure, at: Time) {
    && c.run.startedAt <= at
    && (forall a :: a in c.calls ==> a.call.startedAt <= at)
    && TasksCovered(c, at)
  }

  predicate TasksCovered(c: RecoveryClosure, at: Time) {
    forall a :: a in c.tasks && a.task.status.Recoverable() ==>
      a.task.updatedAt <= at && forall u :: u in c.units && u.taskId == a.task.taskId ==> u.updatedAt <= at
  }

  lemma InterruptValid(a: CallAggregate, at: Time)
    requires a.Valid() && a.call.status.Active()
    ensures InterruptOf(a.call, at).Valid() <==> a.call.startedAt <= at
  {
  }

  lemma BlockValid(t: Task, u: RequestUnit, at: Time, reason: Id)
    requires t.Valid() && u.Valid() && t.status.Recoverable() && u.taskId == t.taskId
    requires u.status == t.status && u.version == t.version
    ensures BlockOf(t, u, at, reason).Valid() <==> t.updatedAt <= at && u.updatedAt <= at
  {
  }

  lemma CallsBijectiveIff(cmd: RecoveryCommand, at: Time)
    requires cmd.closure.CallsClose() && CallsBuilt(cmd.closure.calls, at, cmd.calls)
    ensures cmd.CallsBijective() <==> forall a :: a in cmd.closure.calls ==> a.call.startedAt <= at
  {
    var calls := cmd.closure.calls;
    forall i | 0 <= i < |calls|
      ensures cmd.calls[i].active in AggregateCalls(calls)
      ensures cmd.calls[i].Valid() <==> calls[i].call.startedAt <= at
    {
      assert calls[i] in calls;
      InterruptValid(calls[i], at);
    }
    forall t | t in AggregateCalls(calls) ensures t in InterruptedFrom(cmd.calls) {
      var a :| a in calls && a.call == t;
      var i :| 0 <= i < |calls| && calls[i] == a;
      assert cmd.calls[i] in cmd.calls;
    }
    assert InterruptedFrom(cmd.calls) == AggregateCalls(calls);
  }

  // Each Task has one unit, so the unit the service found is the only one.
  lemma TheUnit(c: RecoveryClosure, u: RequestUnit, v: RequestUnit)
    requires c.UnitsClose() && u in c.units && v in c.units && u.taskId == v.taskId
    ensures u == v
  {
    var i :| 0 <= i < |c.units| && c.units[i] == u;
    var j :| 0 <= j < |c.units| && c.units[j] == v;
  }

  lemma BlockedTaskValid(c: RecoveryClosure, a: TaskAggregate, x: TaskTransitionCommand, at: Time)
    requires c.TasksClose() && c.UnitsClose() && a in c.tasks && a.task.status.Recoverable()
    requires x.expectedUnit in c.units && x.expectedUnit.taskId == a.task.taskId
    requires x == BlockOf(a.task, x.expectedUnit, at, x.transition.reasonRef)
    ensures x.Valid() <==> a.task.updatedAt <= at && x.expectedUnit.updatedAt <= at
  {
    BlockValid(a.task, x.expectedUnit, at, x.transition.reasonRef);
  }

  function RecoverableIds(ts: seq<TaskAggregate>): set<Id> {
    set a | a in ts && a.task.status.Recoverable() :: a.task.taskId
  }

  lemma BuiltTasksTouchRecoverable(ts: seq<TaskAggregate>, units: seq<RequestUnit>, at: Time,
                                   xs: seq<TaskTransitionCommand>)
    requires TasksBuilt(Blockable(ts), units, at, xs)
    ensures TransitionTasks(xs) == RecoverableIds(ts)
  {
    var bs := Blockable(ts);
    forall t | t in TransitionTasks(xs) ensures t in RecoverableIds(ts) {
      var x :| x in xs && x.expectedTask.taskId == t;
      var i :| 0 <= i < |xs| && xs[i] == x;
      assert bs[i] in bs;
    }
    forall t | t in RecoverableIds(ts) ensures t in TransitionTasks(xs) {
      var a :| a in ts && a.task.status.Recoverable() && a.task.taskId == t;
      var i :| 0 <= i < |bs| && bs[i] == a;
      assert xs[i] in xs;
    }
  }

  predicate AllTransitionsValid(xs: seq<TaskTransitionCommand>) { forall x :: x in xs ==> x.Valid() }

  lemma TransitionsValidIff(c: RecoveryClosure, at: Time, xs: seq<TaskTransitionCommand>)
    requires c.TasksClose() && c.UnitsClose() && TasksBuilt(Blockable(c.tasks), c.units, at, xs)
    ensures AllTransitionsValid(xs) <==> TasksCovered(c, at)
  {
    var bs := Blockable(c.tasks);
    forall i | 0 <= i < |bs|
      ensures xs[i].Valid() <==> bs[i].task.updatedAt <= at && xs[i].expectedUnit.updatedAt <= at
    {
      assert bs[i] in bs;
      BlockedTaskValid(c, bs[i], xs[i], at);
    }
    if AllTransitionsValid(xs) {
      forall a | a in c.tasks && a.task.status.Recoverable()
        ensures a.task.updatedAt <= at
        ensures forall u :: u in c.units && u.taskId == a.task.taskId ==> u.updatedAt <= at
      {
        var i :| 0 <= i < |bs| && bs[i] == a;
        assert xs[i] in xs;
        forall u | u in c.units && u.taskId == a.task.taskId ensures u.updatedAt <= at {
          TheUnit(c, u, xs[i].expectedUnit);
        }
      }
    }
    if TasksCovered(c, at) {
      forall x | x in xs ensures x.Valid() {
        var i :| 0 <= i < |xs| && xs[i] == x;
        assert bs[i] in bs;
      }
    }
  }

  lemma BuiltTaskSourced(c: RecoveryClosure, at: Time, xs: seq<TaskTransitionCommand>)
    requires TasksBuilt(Blockable(c.tasks), c.units, at, xs) && DistinctTasks(c.tasks)
    ensures forall x :: x in xs ==>
              && x.expectedTask in AggregateTasks(c.tasks) && x.expectedUnit in c.units
              && x.nextTask.status.TaskBlocked? && x.nextUnit.status.TaskBlocked?
    ensures forall i, j :: 0 <= i < j < |xs| ==> xs[i].expectedTask.taskId != xs[j].expectedTask.taskId
  {
    var bs := Blockable(c.tasks);
    forall i | 0 <= i < |xs|
      ensures xs[i].expectedTask in AggregateTasks(c.tasks) && xs[i].expectedTask == bs[i].task
    {
      assert bs[i] in bs;
    }
  }

  lemma TasksBijectiveIff(cmd: RecoveryCommand, at: Time)
    requires cmd.closure.TasksClose() && cmd.closure.UnitsClose()
    requires TasksBuilt(Blockable(cmd.closure.tasks), cmd.closure.units, at, cmd.tasks)
    ensures cmd.TasksBijective() <==> TasksCovered(cmd.closure, at)
  {
    TransitionsValidIff(cmd.closure, at, cmd.tasks);
    BuiltTasksTouchRecoverable(cmd.closure.tasks, cmd.closure.units, at, cmd.tasks);
    BuiltTaskSourced(cmd.closure, at, cmd.tasks);
    hide RecoveryClosure.TasksClose, RecoveryClosure.UnitsClose, TasksBuilt, TasksCovered, TransitionTasks,
      AggregateTasks, TaskTransitionCommand.Valid;
  }

  lemma LinkBuiltValid(c: RecoveryClosure, link: RunTaskLink, xs: seq<TaskTransitionCommand>, at: Time,
                       closed: RunTaskLink)
    requires c.TasksClose() && c.LinksClose() && link in c.runLinks
    requires TasksBuilt(Blockable(c.tasks), c.units, at, xs)
    requires closed == link.(result := closed.result) && closed.result.Some?
    requires forall x :: x in xs && x.expectedTask.taskId == link.taskId ==>
               closed.result == Some(x.nextTask.version)
    requires forall a :: a in c.tasks && a.task.taskId == link.taskId && link.taskId !in TransitionTasks(xs) ==>
               closed.result == Some(a.task.version)
    ensures closed.Valid() && RunTaskLink(closed.runId, closed.taskId, closed.base, None) == link
  {
    assert link.taskId in LinkTasks(c.runLinks);
    var a :| a in c.tasks && a.task.taskId == link.taskId;
    if link.taskId in TransitionTasks(xs) {
      var x :| x in xs && x.expectedTask.taskId == link.taskId;
      var i :| 0 <= i < |xs| && xs[i] == x;
      var b := Blockable(c.tasks)[i];
      assert b in Blockable(c.tasks);
      SameTask(c, a, b);
    }
  }

  lemma SameTask(c: RecoveryClosure, a: TaskAggregate, b: TaskAggregate)
    requires DistinctTasks(c.tasks) && a in c.tasks && b in c.tasks && a.task.taskId == b.task.taskId
    ensures a == b
  {
    var i :| 0 <= i < |c.tasks| && c.tasks[i] == a;
    var j :| 0 <= j < |c.tasks| && c.tasks[j] == b;
  }

  lemma LinksBuiltBijective(cmd: RecoveryCommand, at: Time)
    requires cmd.closure.TasksClose() && cmd.closure.LinksClose()
    requires TasksBuilt(Blockable(cmd.closure.tasks), cmd.closure.units, at, cmd.tasks)
    requires LinksBuilt(cmd.closure.runLinks, cmd.closure.tasks, cmd.tasks, cmd.links)
    ensures cmd.LinksBijective()
  {
    var c := cmd.closure;
    forall i | 0 <= i < |cmd.links|
      ensures cmd.links[i].Valid() && cmd.links[i].result.Some? && cmd.links[i].taskId == c.runLinks[i].taskId
      ensures RunTaskLink(cmd.links[i].runId, cmd.links[i].taskId, cmd.links[i].base, None) in c.runLinks
    {
      LinkBuiltValid(c, c.runLinks[i], cmd.tasks, at, cmd.links[i]);
    }
    forall t | t in LinkTasks(c.runLinks) ensures t in LinkTasks(cmd.links) {
      var l :| l in c.runLinks && l.taskId == t;
      var i :| 0 <= i < |c.runLinks| && c.runLinks[i] == l;
      assert cmd.links[i] in cmd.links;
    }
  }

  lemma BuiltEventsShaped(cmd: RecoveryCommand, at: Time)
    requires EventsBuilt(cmd.closure.run.runId, at, cmd.tasks, cmd.calls, cmd.events)
    ensures forall e :: e in cmd.events ==>
              e.Valid() && e.runId == cmd.closure.run.runId && RecoveryCommand.Shaped(e) && e.at == at
    ensures forall i :: 0 < i < |cmd.events| ==> !cmd.events[i].kind.RunStopped?
    ensures forall i :: 0 < i < |cmd.events| ==> (cmd.events[i].kind.TaskStateChanged? <==> i <= |cmd.tasks|)
  {
    var n := |cmd.tasks|;
    forall i | 0 <= i < |cmd.events|
      ensures var e := cmd.events[i];
              && e.Valid() && e.runId == cmd.closure.run.runId && RecoveryCommand.Shaped(e) && e.at == at
              && (0 < i ==> !e.kind.RunStopped? && (e.kind.TaskStateChanged? <==> i <= n))
    {
    }
  }

  lemma {:induction false} OneStopFirst(events: seq<TraceEvent>)
    requires events != [] && events[0].kind.RunStopped?
    requires forall i :: 0 < i < |events| ==> !events[i].kind.RunStopped?
    ensures CountStops(events) == 1
  {
    if |events| == 1 {
      assert events[..0] == [];
    } else {
      OneStopFirst(events[..|events| - 1]);
    }
  }

  // Where each kind of event stands, and what it names.
  lemma BuiltKinds(cmd: RecoveryCommand, at: Time)
    requires EventsBuilt(cmd.closure.run.runId, at, cmd.tasks, cmd.calls, cmd.events)
    ensures |cmd.events| == 1 + |cmd.tasks| + |cmd.calls|
    ensures forall i :: 0 <= i < |cmd.events| ==>
              && (cmd.events[i].kind.TaskStateChanged? <==> 0 < i <= |cmd.tasks|)
              && (cmd.events[i].kind.ToolCallInterrupted? <==> |cmd.tasks| < i)
    ensures forall i :: 0 < i <= |cmd.tasks| ==>
              && cmd.events[i].taskId == Some(cmd.tasks[i - 1].nextTask.taskId)
              && cmd.events[i].unitId == Some(cmd.tasks[i - 1].nextUnit.unitId)
    ensures forall i :: |cmd.tasks| < i < |cmd.events| ==>
              cmd.events[i].callId == Some(cmd.calls[i - 1 - |cmd.tasks|].interrupted.callId)
  {
  }

  lemma BuiltTaskEventsBijective(cmd: RecoveryCommand, at: Time)
    requires EventsBuilt(cmd.closure.run.runId, at, cmd.tasks, cmd.calls, cmd.events)
    requires forall i, j :: 0 <= i < j < |cmd.tasks| ==> cmd.tasks[i].nextTask.taskId != cmd.tasks[j].nextTask.taskId
    requires forall x :: x in cmd.tasks ==> x.transition.changedAt == at
    ensures cmd.TaskEventsBijective()
  {
    hide EventsBuilt, RecoveryCommand.Shaped, TaskTransitionCommand.Valid, TraceEvent.Valid;
    BuiltEventsShaped(cmd, at);
    BuiltKinds(cmd, at);
    var n := |cmd.tasks|;
    var wanted := set x | x in cmd.tasks :: (Some(x.nextTask.taskId), Some(x.nextUnit.unitId));
    var got := set e | e in cmd.events && e.kind.TaskStateChanged? :: (e.taskId, e.unitId);
    forall p | p in wanted ensures p in got {
      var x :| x in cmd.tasks && p == (Some(x.nextTask.taskId), Some(x.nextUnit.unitId));
      var i :| 0 <= i < n && cmd.tasks[i] == x;
      var k := i + 1;
      assert cmd.events[k] in cmd.events && cmd.events[k].kind.TaskStateChanged?;
    }
    assert got == wanted;
  }

  lemma BuiltCallEventsBijective(cmd: RecoveryCommand, at: Time)
    requires EventsBuilt(cmd.closure.run.runId, at, cmd.tasks, cmd.calls, cmd.events)
    requires forall i, j :: 0 <= i < j < |cmd.calls| ==>
               cmd.calls[i].interrupted.callId != cmd.calls[j].interrupted.callId
    requires forall x :: x in cmd.calls ==> x.interrupted.finishedAt == Some(at)
    ensures cmd.CallEventsBijective()
  {
    hide EventsBuilt, RecoveryCommand.Shaped, InterruptCallCommand.Valid, TraceEvent.Valid;
    BuiltEventsShaped(cmd, at);
    BuiltKinds(cmd, at);
    var n := 1 + |cmd.tasks|;
    var wanted := set x | x in cmd.calls :: Some(x.interrupted.callId);
    var got := set e | e in cmd.events && e.kind.ToolCallInterrupted? :: e.callId;
    forall p | p in wanted ensures p in got {
      var x :| x in cmd.calls && p == Some(x.interrupted.callId);
      var i :| 0 <= i < |cmd.calls| && cmd.calls[i] == x;
      var k := n + i;
      assert cmd.events[k] in cmd.events && cmd.events[k].kind.ToolCallInterrupted?;
    }
    assert got == wanted;
  }

  lemma BuiltTraceCloses(cmd: RecoveryCommand, at: Time)
    requires Built(cmd.closure, at, cmd) && cmd.closure.TasksClose() && cmd.closure.CallsClose()
    requires DistinctEvents(cmd.events)
    ensures cmd.EventsShaped() && cmd.StopCloses() && cmd.TaskEventsBijective() && cmd.CallEventsBijective()
  {
    hide RecoveryClosure.TasksClose, RecoveryClosure.CallsClose, RecoveryCommand.TaskEventsBijective,
      RecoveryCommand.CallEventsBijective, EventsBuilt, TasksBuilt, CallsBuilt, LinksBuilt, DistinctEvents,
      RecoveryCommand.Shaped, TraceEvent.Valid, CountStops;
    BuiltEventsShaped(cmd, at);
    FirstStops(cmd, at);
    OneStopFirst(cmd.events);
    BuiltNamesDiffer(cmd, at);
    BuiltTaskEventsBijective(cmd, at);
    BuiltCallEventsBijective(cmd, at);
  }

  lemma FirstStops(cmd: RecoveryCommand, at: Time)
    requires EventsBuilt(cmd.closure.run.runId, at, cmd.tasks, cmd.calls, cmd.events)
    ensures cmd.events != [] && cmd.events[0].kind.RunStopped? && cmd.events[0].outcome == Some(OutcomeBlocked)
    ensures cmd.events[0].stopReason == Some(ProcessRestartDetected)
  {
  }

  lemma BuiltNamesDiffer(cmd: RecoveryCommand, at: Time)
    requires cmd.closure.TasksClose() && cmd.closure.CallsClose()
    requires CallsBuilt(cmd.closure.calls, at, cmd.calls)
    requires TasksBuilt(Blockable(cmd.closure.tasks), cmd.closure.units, at, cmd.tasks)
    ensures forall i, j :: 0 <= i < j < |cmd.tasks| ==> cmd.tasks[i].nextTask.taskId != cmd.tasks[j].nextTask.taskId
    ensures forall x :: x in cmd.tasks ==> x.transition.changedAt == at
    ensures forall i, j :: 0 <= i < j < |cmd.calls| ==>
              cmd.calls[i].interrupted.callId != cmd.calls[j].interrupted.callId
    ensures forall x :: x in cmd.calls ==> x.interrupted.finishedAt == Some(at)
  {
    hide TaskAggregate.Valid, CallAggregate.Valid, RecoveryClosure.CallOwned;
  }

  // From any closure the built command passes both recovery validators exactly
  // when the clock covers the closure; nothing else can go wrong.
  lemma BuiltValidIff(cmd: RecoveryCommand, at: Time)
    requires Built(cmd.closure, at, cmd) && cmd.closure.Valid() && DistinctEvents(cmd.events)
    ensures cmd.Valid() <==> ClockCovers(cmd.closure, at)
  {
    hide RecoveryClosure.TasksClose, RecoveryClosure.UnitsClose, RecoveryClosure.LinksClose,
      RecoveryClosure.CallsClose, RecoveryCommand.TasksBijective, RecoveryCommand.CallsBijective,
      RecoveryCommand.LinksBijective, RecoveryCommand.EventsShaped, RecoveryCommand.StopCloses,
      RecoveryCommand.TaskEventsBijective, RecoveryCommand.CallEventsBijective, CallsBuilt, TasksBuilt,
      LinksBuilt, EventsBuilt, DistinctEvents;
    CallsBijectiveIff(cmd, at);
    TasksBijectiveIff(cmd, at);
    LinksBuiltBijective(cmd, at);
    BuiltTraceCloses(cmd, at);
  }

  // And it does go wrong for every Run that is found CREATED while the clock is behind it.
  lemma EarlyClockFails(conversation: Conversation, run: Run, at: Time, id: Id) returns (cmd: RecoveryCommand)
    requires run.Valid() && run.status.RunCreated? && run.incompleteReason.None?
    requires run.conversationId == Some(conversation.conversationId) && at < run.startedAt
    ensures cmd.closure == RecoveryClosure(conversation, run, [], [], [], [], []) && cmd.closure.Valid()
    ensures Built(cmd.closure, at, cmd) && DistinctEvents(cmd.events) && !cmd.Valid()
  {
    var c := RecoveryClosure(conversation, run, [], [], [], [], []);
    cmd := RecoveryCommand(c, MarkIncomplete(run, at), [], [], [],
                           [RunStoppedEvent(id, at, run.runId, OutcomeBlocked, ProcessRestartDetected)]);
    assert c.Valid() && Built(c, at, cmd);
    hide RecoveryCommand.Valid, RecoveryClosure.Valid, Built;
    BuiltValidIff(cmd, at);
  }

  // One RunStopped, one event a transition: at most three when each family has one member.
  lemma BuiltEventCount(c: RecoveryClosure, at: Time, cmd: RecoveryCommand)
    requires Built(c, at, cmd)
    ensures |cmd.events| == 1 + |Blockable(c.tasks)| + |c.calls|
    ensures |c.tasks| <= 1 && |c.calls| <= 1 ==> 1 <= |cmd.events| <= 3
  {
    BlockableShorter(c.tasks);
  }

  lemma {:induction false} BlockableShorter(ts: seq<TaskAggregate>)
    ensures |Blockable(ts)| <= |ts|
  {
    if ts != [] { BlockableShorter(ts[..|ts| - 1]); }
  }
}
