// What restart recovery reads (one active Run and everything it owns) and what
// it writes back in one transaction.  The families have any length.

module RecoveryCommands {
  import opened Records
  import opened Commands

  datatype TaskAggregate = TaskAggregate(task: Task, transitions: seq<Transition>)
  {
    // The whole transition history of a Task, from version 1 up to its current version.
    predicate Valid() {
      && task.Valid()
      && (forall h :: h in transitions ==> h.Valid())
      && task.version == |transitions| + 1
      && (forall i :: 0 <= i < |transitions| ==>
            transitions[i].result == i + 2 && transitions[i].taskId == task.taskId)
      && (transitions != [] ==>
            && task.createdAt <= transitions[0].changedAt
            && transitions[|transitions| - 1].to == task.status
            && transitions[|transitions| - 1].changedAt <= task.updatedAt)
      && (forall i, j | 0 <= i < |transitions| && i < j < |transitions| :: j == i + 1 ==>
            && transitions[i].to == transitions[j].from
            && transitions[i].changedAt <= transitions[j].changedAt)
    }
  }

  datatype CallAggregate = CallAggregate(call: ToolCall, attempts: seq<Attempt>)
  {
    predicate Valid() {
      && call.Valid()
      && (forall a :: a in attempts ==> a.Valid() && a.callId == call.callId)
      && call.attemptCount <= 1
      && |attempts| == call.attemptCount
      && (forall i :: 0 <= i < |attempts| ==> attempts[i].attemptNo == i + 1)
      && (call.status.Active() ==> call.failureCode.None? && call.resultRef.None?)
      && (call.status.CallRunning? ==> attempts[0].finishedAt.None?)
      && (call.status.CallInterrupted? && attempts != [] && attempts[0].finishedAt.Some? ==>
            attempts[0].outcome == Some(Interrupted) && call.finishedAt == attempts[0].finishedAt)
      && (!call.status.Active() && !call.status.CallInterrupted? ==> TerminalAgrees())
    }

    predicate TerminalAgrees() {
      && |attempts| == 1
      && attempts[0].finishedAt.Some? && attempts[0].outcome.Some?
      && OutcomeFits(call.status, attempts[0].outcome.value)
      && call.finishedAt == attempts[0].finishedAt && call.failureCode == attempts[0].failureCode
    }
  }

  function AggregateTasks(ts: seq<TaskAggregate>): set<Task> { set a | a in ts :: a.task }
  function AggregateTaskIds(ts: seq<TaskAggregate>): set<Id> { set a | a in ts :: a.task.taskId }
  function AggregateCalls(cs: seq<CallAggregate>): set<ToolCall> { set a | a in cs :: a.call }

  predicate DistinctTasks(ts: seq<TaskAggregate>) {
    forall i, j :: 0 <= i < j < |ts| ==> ts[i].task.taskId != ts[j].task.taskId
  }

  predicate DistinctUnits(us: seq<RequestUnit>) {
    forall i, j :: 0 <= i < j < |us| ==> us[i].unitId != us[j].unitId && us[i].taskId != us[j].taskId
  }

  predicate DistinctCalls(cs: seq<CallAggregate>) {
    forall i, j :: 0 <= i < j < |cs| ==> cs[i].call.callId != cs[j].call.callId
  }

  predicate DistinctConvTasks(ls: seq<ConversationTaskLink>) {
    forall i, j :: 0 <= i < j < |ls| ==> ls[i].taskId != ls[j].taskId
  }

  datatype RecoveryClosure = RecoveryClosure(
    conversation: Conversation, run: Run, convLinks: seq<ConversationTaskLink>, runLinks: seq<RunTaskLink>,
    tasks: seq<TaskAggregate>, units: seq<RequestUnit>, calls: seq<CallAggregate>)
  {
    predicate Valid() {
      RunCloses() && TasksClose() && LinksClose() && UnitsClose() && CallsClose()
    }

    predicate RunCloses() {
      && run.Valid() && run.Active() && run.incompleteReason.None?
      && run.conversationId == Some(conversation.conversationId)
      && (run.status.RunCreated? ==>
            convLinks == [] && runLinks == [] && tasks == [] && units == [] && calls == [])
    }

    predicate TasksClose() {
      && (forall a :: a in tasks ==> a.Valid() && a.task.owner == conversation.owner)
      && DistinctTasks(tasks)
    }

    predicate LinksClose() {
      && (forall l :: l in runLinks ==> l.Valid() && l.runId == run.runId && l.result.None?)
      && DistinctLinkTasks(runLinks)
      && LinkTasks(runLinks) == AggregateTaskIds(tasks)
      && (forall l, a :: l in runLinks && a in tasks && l.taskId == a.task.taskId && l.base.Some? ==>
            l.base.value <= a.task.version)
      && (forall c :: c in convLinks ==>
            c.conversationId == conversation.conversationId && c.endedAt.None?)
      && DistinctConvTasks(convLinks)
      && (set c | c in convLinks :: c.taskId) == AggregateTaskIds(tasks)
    }

    predicate UnitsClose() {
      && (forall u :: u in units ==> u.Valid())
      && DistinctUnits(units)
      && (set u | u in units :: u.taskId) == AggregateTaskIds(tasks)
      && (forall u, a :: u in units && a in tasks && u.taskId == a.task.taskId ==>
            u.status == a.task.status && u.version == a.task.version)
      && (forall a, h :: a in tasks && h in a.transitions ==> OwnsUnit(h.unitId, a.task.taskId))
    }

    predicate OwnsUnit(unitId: Id, taskId: Id) {
      exists u :: u in units && u.unitId == unitId && u.taskId == taskId
    }

    predicate CallsClose() {
      && (forall a :: a in calls ==> a.Valid() && a.call.status.Active() && a.call.runId == run.runId)
      && DistinctCalls(calls)
      && (forall a :: a in calls ==> a.call.taskId in AggregateTaskIds(tasks) && CallOwned(a.call))
      && (forall a, t :: a in calls && t in tasks && t.task.taskId == a.call.taskId ==>
            a.call.validatedVersion == t.task.version)
    }

    predicate CallOwned(c: ToolCall) {
      exists u :: u in units && u.unitId == c.unitId && u.taskId == c.taskId
                  && forall b :: b in c.bindingRefs ==> b in u.bindingRefs
    }
  }

  function CountStops(events: seq<TraceEvent>): (n: nat)
    ensures n <= |events|
  {
    if events == [] then 0
    else CountStops(events[..|events| - 1]) + if events[|events| - 1].kind.RunStopped? then 1 else 0
  }

  predicate DistinctEvents(events: seq<TraceEvent>) {
    forall i, j :: 0 <= i < j < |events| ==> events[i].eventId != events[j].eventId
  }

  function TransitionTasks(ts: seq<TaskTransitionCommand>): set<Id> { set x | x in ts :: x.expectedTask.taskId }

  function InterruptedFrom(xs: seq<InterruptCallCommand>): set<ToolCall> { set x | x in xs :: x.active }

  datatype RecoveryCommand = RecoveryCommand(
    closure: RecoveryClosure, incomplete: Run, calls: seq<InterruptCallCommand>,
    tasks: seq<TaskTransitionCommand>, links: seq<RunTaskLink>, events: seq<TraceEvent>)
  {
    predicate Valid() {
      && closure.Valid()
      && RunCloses()
      && CallsBijective() && TasksBijective() && LinksBijective()
      && EventsShaped() && StopCloses() && TaskEventsBijective() && CallEventsBijective()
    }

    predicate RunCloses() {
      && incomplete.Valid() && incomplete.status.RunIncomplete?
      && incomplete.stopReason == Some(ProcessRestartDetected)
      && (incomplete.incompleteReason.None? || incomplete.incompleteReason.value == RESTART_DETECTED)
      && closure.run.SameIdentity(incomplete)
    }

    predicate CallsBijective() {
      && (forall x :: x in calls ==> x.Valid() && x.active in AggregateCalls(closure.calls))
      && (forall i, j :: 0 <= i < j < |calls| ==> calls[i].active.callId != calls[j].active.callId)
      && InterruptedFrom(calls) == AggregateCalls(closure.calls)
    }

    predicate TasksBijective() {
      && (forall x :: x in tasks ==>
            && x.Valid()
            && x.expectedTask in AggregateTasks(closure.tasks) && x.expectedUnit in closure.units
            && x.nextTask.status.TaskBlocked? && x.nextUnit.status.TaskBlocked?)
      && (forall i, j :: 0 <= i < j < |tasks| ==> tasks[i].expectedTask.taskId != tasks[j].expectedTask.taskId)
      && TransitionTasks(tasks) == set a | a in closure.tasks && a.task.status.Recoverable() :: a.task.taskId
    }

    predicate LinksBijective() {
      && DistinctLinkTasks(links)
      && LinkTasks(links) == LinkTasks(closure.runLinks)
      && (forall l :: l in links ==>
            l.Valid() && l.result.Some? && RunTaskLink(l.runId, l.taskId, l.base, None) in closure.runLinks)
      && (forall l, x :: l in links && x in tasks && x.expectedTask.taskId == l.taskId ==>
            l.result == Some(x.nextTask.version))
      && (forall l, a :: l in links && a in closure.tasks && a.task.taskId == l.taskId
                         && l.taskId !in TransitionTasks(tasks) ==>
            l.result == Some(a.task.version))
    }

    // Every event has one of three kinds and carries only the fields of its kind.
    predicate EventsShaped() {
      && DistinctEvents(events)
      && forall e :: e in events ==> e.Valid() && e.runId == closure.run.runId && Shaped(e)
    }

    static predicate Shaped(e: TraceEvent) {
      match e.kind
      case RunStopped =>
        e == PlainEvent(e.eventId, e.kind, e.at, e.runId).(outcome := e.outcome, stopReason := e.stopReason)
      case TaskStateChanged =>
        e == PlainEvent(e.eventId, e.kind, e.at, e.runId).(taskId := e.taskId, unitId := e.unitId)
      case ToolCallInterrupted =>
        e == PlainEvent(e.eventId, e.kind, e.at, e.runId).(callId := e.callId, callStatus := e.callStatus)
      case _ => false
    }

    predicate StopCloses() {
      && CountStops(events) == 1
      && forall e :: e in events && e.kind.RunStopped? ==>
           && e.outcome == Some(OutcomeBlocked) && e.stopReason == Some(ProcessRestartDetected)
           && Some(e.at) == incomplete.completedAt
    }

    predicate TaskEventsBijective() {
      && (forall i, j :: 0 <= i < j < |events| && events[i].kind.TaskStateChanged?
                         && events[j].kind.TaskStateChanged? ==>
            (events[i].taskId, events[i].unitId) != (events[j].taskId, events[j].unitId))
      && (set e | e in events && e.kind.TaskStateChanged? :: (e.taskId, e.unitId))
         == (set x | x in tasks :: (Some(x.nextTask.taskId), Some(x.nextUnit.unitId)))
      && (forall e, x ::
            e in events && e.kind.TaskStateChanged? && x in tasks && e.taskId == Some(x.nextTask.taskId)
            && e.unitId == Some(x.nextUnit.unitId)
            ==> e.at == x.transition.changedAt)
    }

    predicate CallEventsBijective() {
      && (forall i, j :: 0 <= i < j < |events| && events[i].kind.ToolCallInterrupted?
                         && events[j].kind.ToolCallInterrupted? ==>
            events[i].callId != events[j].callId)
      && (set e | e in events && e.kind.ToolCallInterrupted? :: e.callId)
         == (set x | x in calls :: Some(x.interrupted.callId))
      && (forall e, x ::
            e in events && e.kind.ToolCallInterrupted? && x in calls
            && e.callId == Some(x.interrupted.callId)
            ==> Some(e.at) == x.interrupted.finishedAt)
    }
  }
}
