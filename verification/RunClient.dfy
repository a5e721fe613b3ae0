// A handler's hold on its own Run: what its writes have made of the Run, as long
// as recovery has not claimed it.

module RunClient {
  import opened Records
  import opened Commands
  import opened RecoveryCommands
  import opened RunStore
  import opened Protocol
  import opened Behaviours
  import opened Reachable
  import opened Host
  import opened RuntimePort

  // Writes that match only what a RUNNING or CREATED Run holds; the others only add records.
  predicate NeedsActive(w: Write) {
    !w.SaveObservation? && !w.SaveManifest? && !w.SaveGate? && !w.AppendTrace?
  }

  // The records after a write the store answered for.
  function Written(g: RunGraph, w: Write): RunGraph {
    match w
    case SaveObservation(c) => ObserveWrites(g, c.observation, c.source.callId)
    case SaveManifest(m) => AuditWrites(g, g.manifests[m.manifestId := m], g.gates)
    case SaveGate(d) => AuditWrites(g, g.manifests, g.gates[d.gateId := d])
    case AppendTrace(e) => AppendWrites(g, e)
    case _ => ApplyWrite(g, w)
  }

  // What a write that lands has found.
  lemma LandedFound(g: RunGraph, w: Write)
    requires Validated(w) && Lands(g, w)
    ensures match w
            case Start(_) | CreateGraph(_) | Finalize(_) | InsertCall(_) => g.run.Active()
            case Transit(c) => c.expectedTask.taskId in g.tasks && g.tasks[c.expectedTask.taskId] == c.expectedTask
            case Dispatch(c) =>
              c.expected.callId in g.calls && g.calls[c.expected.callId] == c.expected && c.expected.status.Active()
            case FinishCall(c) =>
              c.expected.callId in g.calls && g.calls[c.expected.callId] == c.expected && c.expected.status.Active()
            case _ => true
  {
    hide CreateGraphCommand.AcceptedChildCloses, CreateGraphCommand.BindingProjectsCandidate,
      CreateGraphCommand.CleanTaskAndUnit, CreateGraphCommand.LinksClose, CreateGraphCommand.OneTimestamp,
      FinalizeRunCommand.LinksClose, FinalizeRunCommand.TasksClose, FinalizeRunCommand.CompletedIsWhole,
      FinalizeRunCommand.FailedIsBare, RecoveryCommand.Valid, RecoverMatches, TaskTransitionCommand.Valid, LinksMatch,
      SaveObservationCommand.Valid, GateDecision.Valid, TraceEvent.Valid;
  }

  // Nothing that needs an active Run lands once recovery has claimed it.
  lemma ClaimedRefuses(g: RunGraph, w: Write)
    requires Inv(g) && Claimed(g) && Sendable(g, w) && NeedsActive(w)
    ensures !Lands(g, w)
  {
    hide Inv, Lands, Validated, Fitting;
    if Lands(g, w) {
      LandedFound(g, w);
      match w
      case Dispatch(c) => CallsAreSettled(g, c.expected.callId);
      case FinishCall(c) => CallsAreSettled(g, c.expected.callId);
      case _ =>
    }
  }

  lemma CallsAreSettled(g: RunGraph, k: Id)
    requires Inv(g) && !g.run.Active()
    ensures k in g.calls ==> !g.calls[k].status.Active()
  {
    if k in g.calls { assert CallOk(g.run, g.tasks, g.units, k, g.calls[k], g.attempts[k]); }
  }

  predicate Unfinished(g: RunGraph) { !g.run.status.RunCompleted? }

  lemma RunningIsUnfinished(g: RunGraph)
    requires g.run.status.RunRunning?
    ensures Unfinished(g)
  {
  }

  // Writes that only add records leave the Run and its Tasks alone.
  lemma AdditionsKeepRun(g: RunGraph, w: Write)
    requires !NeedsActive(w)
    ensures Written(g, w).run == g.run && Written(g, w).tasks == g.tasks
    ensures ApplyWrite(g, w).run == g.run && ApplyWrite(g, w).tasks == g.tasks
  {
    hide Lands;
  }

  // The answered write is in effect on whatever the handler still holds.
  lemma WrittenIsHeld(g: RunGraph, met: RunGraph, w: Write)
    requires Held(g, met) && Inv(met) && Sendable(met, w) && Lands(met, w)
    ensures Held(Written(g, w), ApplyWrite(met, w))
    ensures NeedsActive(w) ==> Lands(g, w) && ApplyWrite(met, w) == Written(g, w)
    ensures !NeedsActive(w) ==> Written(g, w).run == g.run
  {
    hide Inv, Lands, ApplyWrite, Sendable, Written;
    if NeedsActive(w) {
      if met != g { ClaimedRefuses(met, w); }
      WrittenIsApplied(g, w);
    } else {
      AdditionsKeepRun(g, w);
      AdditionsKeepRun(met, w);
      WrittenIsApplied(met, w);
    }
  }

  lemma WrittenIsApplied(g: RunGraph, w: Write)
    requires Lands(g, w)
    ensures Written(g, w) == ApplyWrite(g, w)
  {
  }

  // A write that was not answered for is in effect or not; a claimed Run stays claimed.
  lemma LostIsSafe(g: RunGraph, met: RunGraph, w: Write)
    requires Held(g, met) && Inv(met) && Sendable(met, w)
    ensures (g.run.Active() && Claimed(met) && Claimed(ApplyWrite(met, w))) || (met == g && ApplyWrite(met, w) == ApplyWrite(g, w))
  {
    hide Inv, Lands, ApplyWrite, Sendable, Written, NeedsActive;
    if met != g {
      if NeedsActive(w) {
        ClaimedRefuses(met, w);
        RefusedWritesNothing(met, w);
      } else {
        AdditionsKeepRun(met, w);
      }
    }
  }

  // The part of the records that decides whether a Run can be closed.
  datatype Cursor = Cursor(run: Run, owner: string, links: map<Id, RunTaskLink>, tasks: set<Id>, open: set<Id>)
  {
    function Opened(callId: Id): Cursor { this.(open := open + {callId}) }

    function Closed(callId: Id): Cursor { this.(open := open - {callId}) }
  }

  function CursorOf(g: RunGraph): Cursor {
    Cursor(g.run, g.conversation.owner, g.links, g.tasks.Keys, set k | k in g.calls && g.calls[k].status.Active())
  }

  predicate ShiftsCursor(w: Write) {
    w.Start? || w.CreateGraph? || w.Finalize? || w.InsertCall? || w.FinishCall? || w.Recover?
  }

  lemma CursorStays(g: RunGraph, w: Write)
    requires Validated(w) && !ShiftsCursor(w) && Lands(g, w)
    ensures CursorOf(Written(g, w)) == CursorOf(g)
  {
    LandedFound(g, w);
    hide Lands, SaveObservationCommand.Valid, GateDecision.Valid, TraceEvent.Valid, TaskTransitionCommand.Valid;
  }

  lemma CallMovesCursor(g: RunGraph, c: ToolCall, xs: seq<Attempt>)
    ensures CursorOf(CallWrites(g, c, xs))
            == if c.status.Active() then CursorOf(g).Opened(c.callId) else CursorOf(g).Closed(c.callId)
    ensures c.callId !in g.calls ==> CursorOf(g).Opened(c.callId).Closed(c.callId) == CursorOf(g)
    ensures CursorOf(g).Opened(c.callId).open != {}
  {
    assert c.callId in CursorOf(g).Opened(c.callId).open;
  }

  lemma ClosedTwice(c: Cursor, callId: Id)
    ensures c.Closed(callId).Closed(callId) == c.Closed(callId)
  {
    assert c.open - {callId} - {callId} == c.open - {callId};
  }

  class RunClient {
    const store: RuntimeStore
    const host: Host
    var id: Id
    ghost var g: RunGraph
    // While nothing disturbs the store: what every await but the last write that moved it left of the cursor.
    ghost var cursor: Cursor

    constructor (store: RuntimeStore, host: Host, id: Id)
      requires store.Valid() && id in store.world
      ensures this.store == store && this.host == host && this.id == id
      ensures Valid() && g == store.world[id].g && cursor == CursorOf(g)
    {
      hide History, Allowed, SystemInv;
      store.Sound(id);
      this.store, this.host, this.id, this.g, this.cursor := store, host, id, store.world[id].g, CursorOf(store.world[id].g);
    }

    // Either nobody else touched the Run, or recovery claimed it while it was active.
    ghost predicate Linked()
      reads `g, `id, store
    {
      store.Valid() && id in store.world && g.run.runId == id && Held(g, store.world[id].g)
    }

    // In a store that nothing disturbs the handler sees its Run as it is.
    ghost predicate Tracks()
      reads this, store
    {
      store.AlwaysCalm() ==> Current() && CursorOf(g) == cursor
    }

    ghost predicate Valid()
      reads this, store
    {
      Linked() && Tracks()
    }

    // One awaited write of this handler, which leaves the cursor where it is.
    method Submit(w: Write) returns (r: Awaited<bool>)
      requires hide *; Valid() && Sendable(g, w) && !ShiftsCursor(w)
      modifies this`g, store
      ensures Valid() && old(store.past) <= store.past
      ensures r == Answer(true) ==>
                g == Written(old(g), w) && (NeedsActive(w) ==> Lands(old(g), w) && Current())
      ensures r == Answer(true) && w.Dispatch? ==> Granted(w.dispatch.expected.callId)
      ensures r != Answer(true) ==>
                && Current()
                && (g == old(g) || g == ApplyWrite(old(g), w) || (Claimed(g) && old(g).run.Active()))
      ensures r == Answer(false) && !Claimed(g) ==> !Lands(old(g), w)
      ensures store.AlwaysCalm() ==> r == Answer(Lands(old(g), w)) && Current() && (r == Answer(true) || g == old(g))
    {
      hide ApplyWrite, Lands, Claimed, RuntimeStore.AlwaysCalm, Written, NeedsActive, History, Allowed, CursorOf, Linked,
        ShiftsCursor, Validated;
      ghost var g0 := g;
      SendableIsValid(g, w);
      r := Exchange(w);
      if r == Answer(true) && Lands(g0, w) { CursorStays(g0, w); }
    }

    // One awaited write that may move the cursor; only an answer moves it.
    method Move(w: Write) returns (r: Awaited<bool>)
      requires hide *; Valid() && Sendable(g, w) && ShiftsCursor(w)
      modifies this`g, this`cursor, store
      ensures Valid() && old(store.past) <= store.past
      ensures r == Answer(true) ==>
                g == Written(old(g), w) && (NeedsActive(w) ==> Lands(old(g), w) && Current())
      ensures r != Answer(true) ==>
                && Current()
                && (g == old(g) || g == ApplyWrite(old(g), w) || (Claimed(g) && old(g).run.Active()))
      ensures r == Answer(false) && !Claimed(g) ==> !Lands(old(g), w)
      ensures store.AlwaysCalm() ==> r == Answer(Lands(old(g), w)) && Current() && (r == Answer(true) || g == old(g))
      ensures cursor == if r == Answer(true) then CursorOf(g) else old(cursor)
    {
      hide ApplyWrite, Lands, Claimed, RuntimeStore.AlwaysCalm, Written, NeedsActive, History, Allowed, CursorOf, Linked;
      r := Exchange(w);
      if r == Answer(true) { cursor := CursorOf(g); }
    }

    method Exchange(w: Write) returns (r: Awaited<bool>)
      requires hide *; Linked() && Sendable(g, w)
      modifies this`g, store
      ensures Linked() && old(store.past) <= store.past
      ensures r == Answer(true) ==>
                g == Written(old(g), w) && (NeedsActive(w) ==> Lands(old(g), w) && Current())
      ensures r == Answer(true) && w.Dispatch? ==> Granted(w.dispatch.expected.callId)
      ensures r != Answer(true) ==>
                && Current()
                && (g == old(g) || g == ApplyWrite(old(g), w) || (Claimed(g) && old(g).run.Active()))
      ensures r == Answer(false) && !Claimed(g) ==> !Lands(old(g), w)
      ensures store.AlwaysCalm() && old(Current()) ==>
                r == Answer(Lands(old(g), w)) && Current() && (r == Answer(true) || g == old(g))
    {
      hide ApplyWrite, Lands, Sendable, Claimed, RuntimeStore.AlwaysCalm, Written, NeedsActive, History, Allowed;
      store.Sound(id);
      HeldIsSendable(g, store.world[id].g, w);
      ghost var before := store.world[id].g;
      var answer, met := store.Submit(id, w);
      HeldTransitive(g, before, met);
      HeldIsSendable(before, met, w);
      LostIsSafe(g, met, w);
      if answer == Answer(true) {
        WrittenIsHeld(g, met, w);
        if Lands(g, w) { WrittenIsApplied(g, w); }
        g := Written(g, w);
      } else {
        if !Lands(g, w) { RefusedWritesNothing(g, w); }
        g := store.world[id].g;
      }
      store.Sound(id);
      r := answer;
    }

    // What this handler knows of the Run is what the store holds.
    ghost predicate Current()
      reads this, store
    {
      id in store.world && g == store.world[id].g
    }

    ghost predicate Granted(callId: Id)
      reads this, store
    {
      id in store.world && callId in store.world[id].granted
    }

    // No other client, no failing await, and every identifier in use is an old one.
    ghost predicate Calm()
      reads this, store, host
    {
      store.AlwaysCalm() && Current() && IdsBelow(g, host.nextId)
    }

    // An await that writes nothing.
    method Wait() returns (r: Awaited<()>)
      requires hide *; Valid()
      modifies store
      ensures Valid() && old(store.past) <= store.past
      ensures old(Calm()) ==> r.Answer? && Calm()
      ensures store.AlwaysCalm() ==> r.Answer?
    {
      hide RuntimeStore.AlwaysCalm, Claimed, History, Allowed;
      ghost var before := store.world[id].g;
      r := store.Pause(id);
      HeldTransitive(g, before, store.world[id].g);
    }

    // The Task and the RequestUnit as they are now.  Once recovery has claimed the
    // Run, one of them is no longer active.
    method LoadCurrent(owner: string, taskId: Id, unitId: Id) returns (r: Awaited<Option<(Task, RequestUnit)>>)
      requires hide *; Valid() && Unfinished(g)
      modifies this`g, store
      ensures Valid() && old(store.past) <= store.past
      ensures r.Answer? && r.value.Some? ==>
                var (task, unit) := r.value.value;
                && task.Valid() && task.taskId == taskId
                && ((g == old(g) && StoredTask(g, owner, taskId) == Some(task) && StoredUnit(g, owner, unitId) == Some(unit))
                    || (Claimed(g) && !(task.status.TaskActive? && unit.status.TaskActive?)))
      ensures r.Raised? || r.value.None? ==> Current() && Unfinished(g)
      ensures old(Calm()) && StoredTask(old(g), owner, taskId).Some? && StoredUnit(old(g), owner, unitId).Some? ==>
                r.Answer? && r.value.Some? && Calm()
      ensures store.AlwaysCalm() ==> g == old(g)
    {
      hide RuntimeStore.AlwaysCalm, RuntimeStore.Valid, IdsBelow, Held, Inv, FencesOk, StoredTask, StoredUnit, Claimed;
      ghost var before := store.world[id].g;
      var task := store.LoadTask(id, owner, taskId);
      HeldTransitive(g, before, store.world[id].g);
      store.Sound(id);
      ghost var middle := store.world[id].g;
      StoredTaskIsValid(middle, owner, taskId);
      if task.Raised? {
        Abandon();
        return Raised(task.signal);
      }
      var unit := store.LoadUnit(id, owner, unitId);
      ghost var now := store.world[id].g;
      HeldTransitive(g, middle, now);
      store.Sound(id);
      if unit.Raised? {
        Abandon();
        return Raised(unit.signal);
      }
      if task.value.None? || unit.value.None? {
        Abandon();
        return Answer(None);
      }
      LoadedTogether(g, middle, now, owner, unitId, unit.value.value);
      if now != g { Abandon(); }
      return Answer(Some((task.value.value, unit.value.value)));
    }

    // The Task as it is now, whatever became of the Run.
    method ReloadTask(owner: string, taskId: Id) returns (r: Awaited<Option<Task>>)
      requires hide *; Valid() && Current()
      modifies this`g, store
      ensures Valid() && old(store.past) <= store.past && Current() && Held(old(g), g)
      ensures r.Answer? && r.value.Some? ==> r.value.value.Valid() && r.value.value.taskId == taskId
      ensures store.AlwaysCalm() ==> g == old(g) && r == Answer(StoredTask(g, owner, taskId))
    {
      hide RuntimeStore.AlwaysCalm, IdsBelow, Claimed, Inv, FencesOk, RuntimeStore.Valid, History, Allowed;
      r := store.LoadTask(id, owner, taskId);
      store.Sound(id);
      StoredTaskIsValid(store.world[id].g, owner, taskId);
      g := store.world[id].g;
    }

    // Nothing more is known of the Run than what the store holds.
    ghost method Abandon()
      requires hide *; Valid() && Unfinished(g)
      modifies this`g
      ensures Valid() && Current() && Unfinished(g)
      ensures store.AlwaysCalm() ==> g == old(g)
    {
      hide History, SystemInv;
      store.Sound(id);
      g := store.world[id].g;
    }

    // One event of this Run, with a fresh identity, now or at the given time.
    method AppendTrace(shape: TraceEvent, occurredAt: Option<Time>) returns (r: Awaited<TraceEvent>)
      requires hide *; Valid() && shape.runId == id && shape.Valid() && !shape.kind.RunStopped?
      requires Unfinished(g)
      modifies this`g, store, host
      ensures Valid() && old(store.past) <= store.past
      ensures old(host.now) <= host.now && old(host.nextId) <= host.nextId
      ensures r.Answer? ==>
                var e := r.value;
                && e == shape.(eventId := e.eventId, at := e.at) && g == AppendWrites(old(g), e)
                && (occurredAt.Some? ==> e.at == occurredAt.value)
      ensures r.Raised? ==> Current() && Unfinished(g)
      ensures old(Calm()) ==> r.Answer? && Calm()
    {
      hide ApplyWrite, Claimed, RuntimeStore.AlwaysCalm, History, Allowed;
      var eventId := host.Uuid();
      var at;
      if occurredAt.Some? { at := occurredAt.value; } else { at := host.Clock(); }
      var e := shape.(eventId := eventId, at := at);
      EventIsSendable(g, shape, e);
      hide TraceEvent.Valid, Sendable;
      FreshEvent(g, old(host.nextId), e);
      StaysUnfinished(g, Write.AppendTrace(e));
      var written := Submit(Write.AppendTrace(e));
      if written.Raised? { return Raised(written.signal); }
      if !written.value { return Raised(Exception); }
      return Answer(e);
    }
  }

  lemma StoredTaskIsValid(g: RunGraph, owner: string, taskId: Id)
    requires Inv(g)
    ensures StoredTask(g, owner, taskId).Some? ==>
              StoredTask(g, owner, taskId).value.Valid() && StoredTask(g, owner, taskId).value.taskId == taskId
  {
    hide RunOk, UnitsOk, HistoryUnitsOk, LinksOk, ConvLinksOk, CallsOk, ObservationsOk, TraceOk, AssistantReplied, Chain;
    if taskId in g.tasks { assert TaskOk(g.conversation.owner, taskId, g.tasks[taskId], g.history[taskId]); }
  }

  // The RequestUnit was read after the Task; the Run is untouched or claimed by then.
  lemma LoadedTogether(g: RunGraph, middle: RunGraph, now: RunGraph, owner: string, unitId: Id, unit: RequestUnit)
    requires Held(g, middle) && Held(middle, now) && Inv(now) && StoredUnit(now, owner, unitId) == Some(unit)
    ensures (now == g && middle == g) || (Claimed(now) && !unit.status.TaskActive?)
  {
    hide RunOk, TasksOk, HistoryUnitsOk, LinksOk, ConvLinksOk, CallsOk, ObservationsOk, TraceOk, AssistantReplied;
    if now != g || middle != g { assert UnitOk(now.tasks, unitId, now.units[unitId]); }
  }

  predicate IdsBelow(g: RunGraph, bound: Id) {
    && (forall e :: e in g.trace ==> e.eventId < bound)
    && (forall k :: k in g.manifests ==> k < bound) && (forall k :: k in g.gates ==> k < bound)
    && (forall k :: k in g.calls ==> k < bound) && (forall k :: k in g.observations ==> k < bound)
    && (forall k :: k in g.messages ==> k < bound)
  }

  lemma SendableIsValid(g: RunGraph, w: Write)
    requires Sendable(g, w)
    ensures Validated(w)
  {
  }

  // Only finalization completes a Run.
  lemma StaysUnfinished(g: RunGraph, w: Write)
    requires Unfinished(g) && Sendable(g, w) && !w.Finalize?
    ensures Unfinished(ApplyWrite(g, w))
    ensures forall h :: Claimed(h) ==> Unfinished(h)
  {
    hide Lands;
    if !NeedsActive(w) { AdditionsKeepRun(g, w); }
    hide TransitMatches, CreateMatches, AlreadyCreated;
  }

  lemma CallBelow(g: RunGraph, call: ToolCall, more: seq<Attempt>, b: Id)
    requires IdsBelow(g, b) && (call.callId < b || call.callId in g.calls)
    ensures IdsBelow(CallWrites(g, call, more), b)
  {
  }

  lemma BelowGrows(g: RunGraph, b: Id, c: Id)
    requires b <= c
    ensures IdsBelow(g, b) ==> IdsBelow(g, c)
  {
  }

  lemma EventIsSendable(g: RunGraph, shape: TraceEvent, e: TraceEvent)
    requires shape.Valid() && !shape.kind.RunStopped? && shape.runId == g.run.runId
    requires e == shape.(eventId := e.eventId, at := e.at)
    ensures Sendable(g, AppendTrace(e)) && !NeedsActive(AppendTrace(e))
    ensures Written(g, AppendTrace(e)) == AppendWrites(g, e)
  {
    hide RecoveryCommand.Valid, CreateGraphCommand.Valid, FinalizeRunCommand.Valid, TaskTransitionCommand.Valid,
      RecoverMatches, FinalizeMatches, CreateMatches, AlreadyCreated;
  }

  lemma FreshEvent(g: RunGraph, bound: Id, e: TraceEvent)
    ensures IdsBelow(g, bound) && bound <= e.eventId ==> Lands(g, AppendTrace(e))
    ensures IdsBelow(g, bound) ==> forall b :: e.eventId < b && bound <= b ==> IdsBelow(AppendWrites(g, e), b)
  {
  }

}
