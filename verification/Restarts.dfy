// A process may stop for good after any write of any client.  Whatever it leaves
// is a store that startup recovery can begin with, and what startup makes of it is
// once more a state of the same history.

module Restarts {
  import opened Records
  import opened RecoveryCommands
  import opened RunStore
  import opened Protocol
  import opened Reachable
  import opened Guarantees
  import opened RuntimePort
  import opened Startup
  import opened Host
  import Interleaving

  // The records a world holds, without the fences and queries of its clients.
  function StoredRuns(w: World): Runs { map r | r in w :: w[r].g }

  lemma EveryCrashIsConsistent(ws: seq<World>, ms: seq<Moving>, i: nat)
    requires hide *; History(ws, ms) && i < |ws|
    ensures RunsOk(StoredRuns(ws[i]))
  {
    hide History, Inv, FencesOk;
    forall r | r in ws[i] ensures ws[i][r].g.run.runId == r && Inv(ws[i][r].g) {
      ReachableInv(ws, ms, i, r);
      RunKeyed(ws, ms, i, r);
    }
  }

  // There are identifiers above every stored one.
  lemma {:induction false} SomeBound(events: seq<TraceEvent>) returns (bound: Id)
    ensures forall e :: e in events ==> e.eventId < bound
  {
    if events == [] {
      bound := 0;
    } else {
      var last := events[|events| - 1];
      bound := SomeBound(events[..|events| - 1]);
      assert events == events[..|events| - 1] + [last];
      bound := bound + last.eventId + 1;
    }
  }

  lemma {:induction false} SomeBoundOfAll(runs: Runs, keys: set<Id>) returns (bound: Id)
    requires keys <= runs.Keys
    ensures forall r :: r in keys ==> EventsBelow(runs[r], bound)
    decreases |keys|
  {
    if keys == {} {
      bound := 0;
    } else {
      var r :| r in keys;
      var others := SomeBoundOfAll(runs, keys - {r});
      var own := SomeBound(runs[r].trace);
      bound := others + own;
    }
  }

  // Every state of every history is a legal start for recovery.
  lemma EveryCrashIsALegalStart(ws: seq<World>, ms: seq<Moving>, i: nat) returns (bound: Id)
    requires hide *; History(ws, ms) && i < |ws|
    ensures RunsOk(StoredRuns(ws[i])) && AllEventsBelow(StoredRuns(ws[i]), bound)
  {
    hide History, Inv;
    EveryCrashIsConsistent(ws, ms, i);
    bound := SomeBoundOfAll(StoredRuns(ws[i]), StoredRuns(ws[i]).Keys);
  }

  lemma RecoveryIsAMove(w: World, r: Id, cmd: RecoveryCommand, at: Time)
    requires hide *; r in w && AppliedTo(w[r].g, cmd, at)
    ensures var m := Interleaving.At(r, Wrote(Recover(cmd), true));
            && Interleaving.Moves(w, m, NextWorld(w, m), Fresh, StepAllowed, Take)
            && NextWorld(w, m) == w[r := w[r].(g := RecoverWrites(w[r].g, cmd))]
  {
    hide RecoveryCommand.Valid, RecoverMatches, RecoverWrites, Fresh;
  }

  lemma RecoveryOf(g: RunGraph, g': RunGraph) returns (cmd: RecoveryCommand, at: Time)
    requires Recovered(g, g')
    ensures AppliedTo(g, cmd, at) && g' == RecoverWrites(g, cmd)
  {
    hide AppliedTo, RecoverWrites;
    cmd, at :| AppliedTo(g, cmd, at) && g' == RecoverWrites(g, cmd);
  }

  // The Runs still to be recovered, one recovery after the other.
  lemma {:induction false} Recoveries(ws: seq<World>, ms: seq<Moving>, runs: Runs, todo: set<Id>)
    returns (ws': seq<World>, ms': seq<Moving>)
    requires hide *; History(ws, ms) && |ws| == |ms| + 1 && ws[|ws| - 1].Keys == runs.Keys && todo <= runs.Keys
    requires forall r :: r in runs && r !in todo ==> ws[|ws| - 1][r].g == runs[r]
    requires forall r :: r in todo ==> Recovered(ws[|ws| - 1][r].g, runs[r])
    ensures History(ws', ms') && ws <= ws' && ms <= ms' && |ws'| == |ms'| + 1
    ensures StoredRuns(ws'[|ws'| - 1]) == runs
    decreases |todo|
  {
    hide History, AppliedTo, Recovered, RecoverWrites, Interleaving.Moves, NextWorld, Fresh, StepAllowed, Take;
    var w := ws[|ws| - 1];
    if todo == {} {
      return ws, ms;
    }
    var r :| r in todo;
    var cmd, at := RecoveryOf(w[r].g, runs[r]);
    var m := Interleaving.At(r, Wrote(Recover(cmd), true));
    RecoveryIsAMove(w, r, cmd, at);
    HistoryGrows(ws, ms, m, NextWorld(w, m));
    ws', ms' := Recoveries(ws + [NextWorld(w, m)], ms + [m], runs, todo - {r});
  }

  lemma SettledIsReachable(ws: seq<World>, ms: seq<Moving>, runs: Runs) returns (ws': seq<World>, ms': seq<Moving>)
    requires hide *; History(ws, ms) && |ws| == |ms| + 1 && Settled(StoredRuns(ws[|ws| - 1]), runs)
    ensures History(ws', ms') && ws <= ws' && ms <= ms' && |ws'| == |ms'| + 1
    ensures StoredRuns(ws'[|ws'| - 1]) == runs
  {
    hide History, Recovered;
    var before := StoredRuns(ws[|ws| - 1]);
    var todo := set r | r in before && runs[r] != before[r];
    ws', ms' := Recoveries(ws, ms, runs, todo);
  }

  // Startup after a crash at any point of any history.  Ready means that no Run is
  // active and no ToolCall is; in a calm start with a clock that has not run back,
  // the one thing that can keep it from being ready is an Action still RUNNING.
  // Either way the store it leaves continues the history it was found in.
  method Restart(store: RuntimeStore, host: Host, calm: bool)
    returns (ready: bool, runs: Runs, ghost past: seq<World>, ghost moves: seq<Moving>)
    requires hide *; store.Valid() && AllEventsBelow(StoredRuns(store.world), host.nextId)
    modifies host
    ensures History(past, moves) && store.past <= past && store.moves <= moves && |past| == |moves| + 1
    ensures runs == StoredRuns(past[|past| - 1]) && Settled(StoredRuns(store.world), runs)
    ensures ready ==> forall r :: r in runs ==> !runs[r].run.Active() && NoActiveCall(runs[r])
    ensures calm && AllStampedBy(StoredRuns(store.world), old(host.now)) ==>
              (ready <==> NoRunningActions(StoredRuns(store.world)))
  {
    hide History, Settled, RunsOk, AllEventsBelow, AllStampedBy, NoRunningActions, NoActiveCall;
    PastCounts(store.past, store.moves);
    EveryCrashIsConsistent(store.past, store.moves, |store.past| - 1);
    var port := new RecoveryStore(StoredRuns(store.world), calm);
    var service := new RestartRecoveryService(port, host);
    ready := Startup.Start(service);
    runs := port.runs;
    past, moves := SettledIsReachable(store.past, store.moves, runs);
  }
}
