// A process that stops for good leaves whatever graph its last write produced.
// Any graph that satisfies the invariant, and hence any crash, leaves a valid closure.

module CrashClosure {
  import opened Records
  import opened RecoveryCommands
  import opened RunStore
  import opened Protocol

  lemma AggregateOk(owner: string, tasks: map<Id, Task>, history: map<Id, seq<Transition>>, a: TaskAggregate)
    requires TasksOk(owner, tasks, history) && a.task.taskId in tasks
    requires tasks[a.task.taskId] == a.task && history[a.task.taskId] == a.transitions
    ensures a.Valid() && a.task.owner == owner
  {
    assert TaskOk(owner, a.task.taskId, a.task, a.transitions);
  }

  lemma TasksClosed(g: RunGraph, c: RecoveryClosure)
    requires TasksOk(g.conversation.owner, g.tasks, g.history) && Enumerates(c, g)
    ensures c.TasksClose()
  {
    forall a | a in c.tasks ensures a.Valid() && a.task.owner == c.conversation.owner {
      AggregateOk(g.conversation.owner, g.tasks, g.history, a);
    }
  }

  lemma LinksClosed(g: RunGraph, c: RecoveryClosure)
    requires LinksOk(g.run, g.tasks, g.links) && Enumerates(c, g)
    requires ConvLinksOk(g.conversation.conversationId, g.tasks, g.convLinks)
    ensures c.LinksClose()
  {
    forall l | l in c.runLinks
      ensures l.Valid() && l.runId == c.run.runId && l.result.None?
      ensures forall a :: a in c.tasks && l.taskId == a.task.taskId && l.base.Some? ==>
                l.base.value <= a.task.version
    {
      assert LinkOk(g.run, l.taskId, g.tasks[l.taskId], g.links[l.taskId]);
    }
  }

  lemma UnitsDistinct(g: RunGraph, us: seq<RequestUnit>)
    requires UnitsOk(g.tasks, g.units) && DistinctUnitIds(us)
    requires forall u :: u in us ==> u.unitId in g.units && g.units[u.unitId] == u
    ensures DistinctUnits(us)
  {
    forall i, j | 0 <= i < j < |us| ensures us[i].taskId != us[j].taskId {
      assert us[i] in us && us[j] in us;
    }
  }

  lemma UnitsCover(g: RunGraph, c: RecoveryClosure)
    requires UnitsOk(g.tasks, g.units) && Enumerates(c, g)
    ensures (set u | u in c.units :: u.taskId) == AggregateTaskIds(c.tasks)
  {
    var owners := set u | u in c.units :: u.taskId;
    forall t | t in owners ensures t in g.tasks {
      var u :| u in c.units && u.taskId == t;
      assert UnitOk(g.tasks, u.unitId, g.units[u.unitId]);
    }
    forall t | t in g.tasks ensures t in owners {
      assert HasUnit(g.units, t);
      var k :| k in g.units && g.units[k].taskId == t;
      assert k in set u | u in c.units :: u.unitId;
      var u :| u in c.units && u.unitId == k;
    }
    assert owners == g.tasks.Keys;
  }

  lemma TransitionsOwned(g: RunGraph, c: RecoveryClosure, a: TaskAggregate, h: Transition)
    requires HistoryUnitsOk(g.units, g.history) && Enumerates(c, g) && a in c.tasks && h in a.transitions
    ensures c.OwnsUnit(h.unitId, a.task.taskId)
  {
    assert TransitionsOf(g.units, a.task.taskId, g.history[a.task.taskId]);
    UnitListed(g, c, h.unitId);
  }

  lemma UnitListed(g: RunGraph, c: RecoveryClosure, k: Id)
    requires Enumerates(c, g) && k in g.units
    ensures g.units[k] in c.units && g.units[k].unitId == k
  {
    assert k in set u | u in c.units :: u.unitId;
    var u :| u in c.units && u.unitId == k;
  }

  lemma UnitsClosed(g: RunGraph, c: RecoveryClosure)
    requires UnitsOk(g.tasks, g.units) && HistoryUnitsOk(g.units, g.history) && Enumerates(c, g)
    ensures c.UnitsClose()
  {
    UnitsDistinct(g, c.units);
    UnitsCover(g, c);
    forall u | u in c.units
      ensures u.Valid()
      ensures forall a :: a in c.tasks && u.taskId == a.task.taskId ==>
                u.status == a.task.status && u.version == a.task.version
    {
      assert UnitOk(g.tasks, u.unitId, g.units[u.unitId]);
    }
    forall a, h | a in c.tasks && h in a.transitions ensures c.OwnsUnit(h.unitId, a.task.taskId) {
      TransitionsOwned(g, c, a, h);
    }
  }

  lemma CallClosed(g: RunGraph, c: RecoveryClosure, a: CallAggregate)
    requires CallsOk(g.run, g.tasks, g.units, g.calls, g.attempts) && Enumerates(c, g) && a in c.calls
    ensures a.Valid() && a.call.status.Active() && a.call.runId == c.run.runId
    ensures a.call.taskId in g.tasks && c.CallOwned(a.call)
    ensures a.call.validatedVersion == g.tasks[a.call.taskId].version
  {
    assert CallOk(g.run, g.tasks, g.units, a.call.callId, a.call, a.attempts);
    assert a.call.callId in AggregateCallIds(c.calls);
    UnitListed(g, c, a.call.unitId);
    assert g.units[a.call.unitId] in c.units;
  }

  lemma CallsClosed(g: RunGraph, c: RecoveryClosure)
    requires CallsOk(g.run, g.tasks, g.units, g.calls, g.attempts) && Enumerates(c, g)
    ensures c.CallsClose()
  {
    forall a | a in c.calls
      ensures a.Valid() && a.call.status.Active() && a.call.runId == c.run.runId
      ensures a.call.taskId in AggregateTaskIds(c.tasks) && c.CallOwned(a.call)
      ensures forall t :: t in c.tasks && t.task.taskId == a.call.taskId ==>
                a.call.validatedVersion == t.task.version
    {
      CallClosed(g, c, a);
    }
  }

  lemma SomeMember<T>(s: seq<T>)
    ensures s == [] || exists x :: x in s
  {
    if s != [] { assert s[0] in s; }
  }

  lemma EmptyListing(g: RunGraph, c: RecoveryClosure)
    requires Enumerates(c, g) && g.tasks == map[] && g.units == map[] && g.calls == map[]
    requires g.links == map[] && g.convLinks == map[]
    ensures c.convLinks == [] && c.runLinks == [] && c.tasks == [] && c.units == [] && c.calls == []
  {
    SomeMember(c.convLinks);
    SomeMember(c.runLinks);
    SomeMember(c.tasks);
    SomeMember(c.units);
    SomeMember(c.calls);
  }

  lemma RunClosed(g: RunGraph, c: RecoveryClosure)
    requires Inv(g) && Enumerates(c, g)
    ensures c.RunCloses()
  {
    if g.run.status.RunCreated? {
      assert g.links.Keys == {} && g.convLinks.Keys == {};
      EmptyListing(g, c);
    }
  }

  // Whatever the last write before the crash was, what recovery reads is a valid closure.
  lemma CrashLeavesClosure(g: RunGraph, c: RecoveryClosure)
    requires Inv(g) && Enumerates(c, g)
    ensures c.Valid()
  {
    RunClosed(g, c);
    TasksClosed(g, c);
    LinksClosed(g, c);
    UnitsClosed(g, c);
    CallsClosed(g, c);
    hide Inv, Enumerates, RecoveryClosure.RunCloses, RecoveryClosure.TasksClose, RecoveryClosure.LinksClose,
      RecoveryClosure.UnitsClose, RecoveryClosure.CallsClose;
  }
}
