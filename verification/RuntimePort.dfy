// The record store as one handler sees it.  Between any two of its awaits other
// clients take steps of their own; an await may fail before or after its write.

module RuntimePort {
  import opened Records
  import opened Commands
  import opened RecoveryCommands
  import opened RunStore
  import opened Protocol
  import opened Reachable
  import opened Guarantees
  import opened Host
  import Interleaving

  // How one await goes: what others do first, and whether it fails before or
  // after it takes effect.
  datatype Fate = Calm | FailsBefore(signal: Signal) | FailsAfter(signal: Signal)

  datatype Weather = Weather(rivals: seq<Moving>, fate: Fate)

  // What another client may do.  A Run belongs to one handler, so the only other
  // client of an active Run is restart recovery.
  predicate RivalMay(world: World, m: Moving, mine: Id) {
    match m
    case Spawn(k, s) => k != mine && Fresh(k, s)
    case At(k, e) =>
      && k in world && StepAllowed(world[k], e)
      && (k == mine ==> e.Wrote? && e.w.Recover? && !e.heard)
  }

  function NextWorld(world: World, m: Moving): World
    requires m.At? ==> m.key in world
  {
    match m
    case Spawn(k, s) => if k in world then world else world[k := s]
    case At(k, e) => world[k := Take(world[k], e)]
  }

  // Recovery closed the Run: nothing of it can be worked on any more.
  predicate Claimed(g: RunGraph) {
    g.run.status.RunIncomplete? && forall t :: t in g.tasks ==> !g.tasks[t].status.Recoverable()
  }

  // Untouched since, or claimed by recovery in between.
  predicate Held(g: RunGraph, g': RunGraph) { g' == g || (g.run.Active() && Claimed(g')) }

  lemma {:induction false} HistoryGrows(ws: seq<World>, ms: seq<Moving>, m: Moving, w: World)
    requires History(ws, ms) && Interleaving.Moves(ws[|ws| - 1], m, w, Fresh, StepAllowed, Take)
    ensures History(ws + [w], ms + [m])
  {
    hide Fresh, StepAllowed, Take, Interleaving.Moves;
    var ws', ms' := ws + [w], ms + [m];
    forall i, j | 0 <= i < |ms'| && j == i + 1
      ensures Interleaving.Moves(ws'[i], ms'[i], ws'[j], Fresh, StepAllowed, Take)
    {
      if i < |ms| { assert Interleaving.Moves(ws[i], ms[i], ws[j], Fresh, StepAllowed, Take); }
    }
  }

  lemma PastCounts(ws: seq<World>, ms: seq<Moving>)
    requires History(ws, ms)
    ensures |ws| == |ms| + 1
  {
  }

  // An applied recovery leaves no Task that could still move.
  lemma RecoveredTaskIsSettled(g: RunGraph, c: RecoveryCommand, t: Id)
    requires c.TasksBijective() && Enumerates(c.closure, g) && t in g.tasks
    ensures !NextTasks(g, c.tasks)[t].status.Recoverable()
  {
    hide TaskTransitionCommand.Valid, LinksMatch;
    assert t in AggregateTaskIds(c.closure.tasks);
    var a :| a in c.closure.tasks && a.task.taskId == t;
    match TransitionFor(c.tasks, t)
    case Some(x) => assert x.nextTask.status.TaskBlocked?;
    case None => assert t !in TransitionTasks(c.tasks);
  }

  lemma RecoveredIsClaimed(g: RunGraph, c: RecoveryCommand)
    requires c.Valid() && RecoverMatches(g, c)
    ensures Claimed(RecoverWrites(g, c)) && g.run.Active()
  {
    hide RecoveryClosure.Valid, RecoveryCommand.CallsBijective, RecoveryCommand.TasksBijective,
      RecoveryCommand.LinksBijective, RecoveryCommand.EventsShaped, RecoveryCommand.StopCloses,
      RecoveryCommand.TaskEventsBijective, RecoveryCommand.CallEventsBijective, NextTasks, NextUnits, NextCalls;
    assert Enumerates(c.closure, g);
    forall t | t in g.tasks ensures !NextTasks(g, c.tasks)[t].status.Recoverable() { RecoveredTaskIsSettled(g, c, t); }
    hide Enumerates;
  }

  // What a client may send at this moment, and still may once recovery has claimed the Run.
  predicate Sendable(g: RunGraph, w: Write) {
    && Allowed(g, w) && !w.Recover? && (w.AppendTrace? ==> Fitting(g, w))
    && (w.Transit? ==> w.transit.expectedTask.status.Recoverable())
  }

  lemma ClaimedStaysSendable(g: RunGraph, g': RunGraph, w: Write)
    requires Sendable(g, w) && Claimed(g') && g'.run.runId == g.run.runId
    ensures Sendable(g', w)
  {
  }

  // The store of all Runs.
  class RuntimeStore {
    var world: World
    var tick: nat
    const weather: nat -> Weather
    // Every state so far and every move between them.
    ghost var past: seq<World>
    ghost var moves: seq<Moving>

    constructor (weather: nat -> Weather)
      ensures Valid() && world == map[] && this.weather == weather
    {
      this.weather, tick, world := weather, 0, map[];
      past, moves := [map[]], [];
    }

    ghost predicate Valid()
      reads this
    {
      History(past, moves) && world == past[|past| - 1]
    }

    // No other client interferes and no await fails.
    ghost predicate AlwaysCalm() {
      forall n :: weather(n) == Weather([], Calm)
    }

    lemma Sound(id: Id)
      requires hide *; Valid() && id in world
      ensures SystemInv(world[id]) && world[id].g.run.runId == id
    {
      hide History, SystemInv;
      PastCounts(past, moves);
      ReachableInv(past, moves, |past| - 1, id);
      RunKeyed(past, moves, |past| - 1, id);
    }

    method Step(m: Moving)
      requires hide *; Valid() && (m.At? ==> m.key in world)
      requires Interleaving.Moves(world, m, NextWorld(world, m), Fresh, StepAllowed, Take)
      modifies this`world, this`past, this`moves
      ensures Valid() && world == NextWorld(old(world), m)
      ensures old(past) <= past
    {
      HistoryGrows(past, moves, m, NextWorld(world, m));
      world := NextWorld(world, m);
      past, moves := past + [world], moves + [m];
    }

    // The other clients' turn.
    method Interfere(mine: Id) returns (fate: Fate)
      requires hide *; Valid()
      modifies this`world, this`tick, this`past, this`moves
      ensures Valid() && old(past) <= past
      ensures old(world.Keys) <= world.Keys
      ensures mine in old(world) ==> Held(old(world[mine].g), world[mine].g)
      ensures mine !in old(world) ==> mine !in world
      ensures AlwaysCalm() ==> fate.Calm? && world == old(world)
    {
      hide History, Fresh, StepAllowed, Take, Held;
      var today := weather(tick);
      tick := tick + 1;
      fate := today.fate;
      HeldRefl(world, mine);
      for i := 0 to |today.rivals|
        invariant Valid() && old(past) <= past
        invariant old(world.Keys) <= world.Keys
        invariant mine in old(world) ==> Held(old(world[mine].g), world[mine].g)
        invariant mine !in old(world) ==> mine !in world
        invariant AlwaysCalm() ==> fate.Calm? && world == old(world) && today.rivals == []
      {
        var m := today.rivals[i];
        if RivalMay(world, m, mine) {
          if mine in world { Sound(mine); }
          ghost var before := world;
          Step(m);
          if mine in before {
            RivalHolds(before, m, mine);
            HeldTransitive(old(world[mine].g), before[mine].g, world[mine].g);
          }
        }
      }
    }

    // One awaited write: in effect exactly when it matches what it meets.
    method Submit(id: Id, w: Write) returns (r: Awaited<bool>, ghost met: RunGraph)
      requires hide *; Valid() && id in world && Sendable(world[id].g, w)
      modifies this`world, this`tick, this`past, this`moves
      ensures Valid() && old(past) <= past && id in world
      ensures Held(old(world[id].g), met) && met.run.runId == id && Inv(met)
      ensures r.Answer? ==> r.value == Lands(met, w) && world[id].g == ApplyWrite(met, w)
      ensures r == Answer(true) && w.Dispatch? ==> w.dispatch.expected.callId in world[id].granted
      ensures r.Raised? ==> world[id].g == met || world[id].g == ApplyWrite(met, w)
      ensures AlwaysCalm() ==> r.Answer? && met == old(world[id].g)
    {
      hide History, Fresh, ApplyWrite, Held, Lands, Allowed, Inv;
      Sound(id);
      var fate := Interfere(id);
      met := world[id].g;
      Sound(id);
      HeldIsSendable(old(world[id].g), met, w);
      if fate.FailsBefore? { return Raised(fate.signal), met; }
      var landed := Lands(world[id].g, w);
      Step(Interleaving.At(id, Wrote(w, fate.Calm?)));
      r := if fate.Calm? then Answer(landed) else Raised(fate.signal);
    }

    // An await that writes nothing to any Run.
    method Pause(id: Id) returns (r: Awaited<()>)
      requires hide *; Valid()
      modifies this`world, this`tick, this`past, this`moves
      ensures Valid() && old(past) <= past && old(world.Keys) <= world.Keys
      ensures id in old(world) ==> Held(old(world[id].g), world[id].g)
      ensures AlwaysCalm() ==> r.Answer? && world == old(world)
    {
      var fate := Interfere(id);
      r := if fate.Calm? then Answer(()) else Raised(fate.signal);
    }

    // The Run appears with its Conversation and Message; an identity in use is left alone.
    method InsertRun(conversation: Conversation, message: Message, run: Run) returns (r: Awaited<bool>)
      requires hide *; Valid() && CreateRunCommand(run).Valid() && run.conversationId == Some(conversation.conversationId)
      modifies this`world, this`tick, this`past, this`moves
      ensures Valid() && old(past) <= past && old(world.Keys) <= world.Keys
      ensures r == Answer(true) ==>
                run.runId !in old(world) && run.runId in world
                && world[run.runId] == System(Inserted(conversation, run, message), {}, [])
      ensures AlwaysCalm() ==> r == Answer(run.runId !in old(world))
    {
      hide History;
      var id := run.runId;
      var fate := Interfere(id);
      if fate.FailsBefore? { return Raised(fate.signal); }
      var vacant := id !in world;
      var system := System(Inserted(conversation, run, message), {}, []);
      assert Fresh(id, system) by { InsertedIsFresh(conversation, message, run); }
      hide Fresh;
      Step(Interleaving.Spawn(id, system));
      r := if fate.Calm? then Answer(vacant) else Raised(fate.signal);
    }

    // What an owner-scoped read of one Task and one RequestUnit of the Run finds.
    method LoadTask(id: Id, owner: string, taskId: Id) returns (r: Awaited<Option<Task>>)
      requires hide *; Valid() && id in world
      modifies this`world, this`tick, this`past, this`moves
      ensures Valid() && old(past) <= past && id in world && Held(old(world[id].g), world[id].g)
      ensures r.Answer? ==> r.value == StoredTask(world[id].g, owner, taskId)
      ensures r.Answer? ==>
                r.value == if world[id].g.conversation.owner == owner && taskId in world[id].g.tasks
                           then Some(world[id].g.tasks[taskId]) else None
      ensures AlwaysCalm() ==> r.Answer? && world == old(world)
    {
      var fate := Interfere(id);
      r := if fate.Calm? then Answer(StoredTask(world[id].g, owner, taskId)) else Raised(fate.signal);
    }

    method LoadUnit(id: Id, owner: string, unitId: Id) returns (r: Awaited<Option<RequestUnit>>)
      requires hide *; Valid() && id in world
      modifies this`world, this`tick, this`past, this`moves
      ensures Valid() && old(past) <= past && id in world && Held(old(world[id].g), world[id].g)
      ensures r.Answer? ==> r.value == StoredUnit(world[id].g, owner, unitId)
      ensures r.Answer? ==>
                r.value == if world[id].g.conversation.owner == owner && unitId in world[id].g.units
                           then Some(world[id].g.units[unitId]) else None
      ensures AlwaysCalm() ==> r.Answer? && world == old(world)
    {
      var fate := Interfere(id);
      r := if fate.Calm? then Answer(StoredUnit(world[id].g, owner, unitId)) else Raised(fate.signal);
    }

    // get_order is sent for a call whose fence was granted.
    method SendGetOrder(id: Id, callId: Id)
      requires hide *; Valid() && id in world && callId in world[id].granted
      modifies this`world, this`past, this`moves
      ensures Valid() && old(past) <= past
      ensures id in world && world[id] == Take(old(world[id]), SentGetOrder(callId))
    {
      hide History;
      Step(Interleaving.At(id, SentGetOrder(callId)));
    }
  }

  function StoredTask(g: RunGraph, owner: string, taskId: Id): Option<Task> {
    if g.conversation.owner == owner && taskId in g.tasks then Some(g.tasks[taskId]) else None
  }

  function StoredUnit(g: RunGraph, owner: string, unitId: Id): Option<RequestUnit> {
    if g.conversation.owner == owner && unitId in g.units then Some(g.units[unitId]) else None
  }

  lemma InsertedIsFresh(conversation: Conversation, message: Message, run: Run)
    requires CreateRunCommand(run).Valid() && run.conversationId == Some(conversation.conversationId)
    ensures Fresh(run.runId, System(Inserted(conversation, run, message), {}, []))
  {
    var g := Inserted(conversation, run, message);
    assert message.messageId in g.messages && g.messages[message.messageId] == message;
  }

  lemma HeldRefl(world: World, mine: Id)
    ensures mine in world ==> Held(world[mine].g, world[mine].g)
  {
  }

  lemma HeldIsSendable(g: RunGraph, g': RunGraph, w: Write)
    requires Held(g, g') && Sendable(g, w) && g'.run.runId == g.run.runId
    ensures Sendable(g', w)
  {
    if g' != g { ClaimedStaysSendable(g, g', w); }
  }

  lemma HeldTransitive(a: RunGraph, b: RunGraph, c: RunGraph)
    requires Held(a, b) && Held(b, c)
    ensures Held(a, c)
  {
  }

  lemma RivalHolds(world: World, m: Moving, mine: Id)
    requires mine in world && RivalMay(world, m, mine) && Inv(world[mine].g)
    ensures mine in NextWorld(world, m) && Held(world[mine].g, NextWorld(world, m)[mine].g)
  {
    hide Inv, Fresh, Claimed;
    if m.At? && m.key == mine && Lands(world[mine].g, m.step.w) {
      RecoveredIsClaimed(world[mine].g, m.step.w.recover);
    }
  }
}
