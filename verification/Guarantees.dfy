// What the invariant and the order of records mean for a reader of the store,
// in any state of any history of interleaved, failing and restarted clients.

module Guarantees {
  import opened Records
  import opened RecoveryCommands
  import opened RunStore
  import opened Protocol
  import opened Behaviours
  import opened Reachable
  import Interleaving

  // A Task, its one RequestUnit, its history and its link to the Run tell the same story.
  lemma TaskStoryAgrees(ws: seq<World>, ms: seq<Moving>, i: nat, r: Id, t: Id)
    requires hide *; History(ws, ms) && i < |ws| && r in ws[i] && t in ws[i][r].g.tasks
    ensures var g := ws[i][r].g;
            && t in g.history && t in g.links
            && Chain(g.tasks[t], g.history[t]) && g.tasks[t].version == 1 + |g.history[t]|
            && (exists u :: u in g.units && g.units[u].taskId == t
                            && g.units[u].status == g.tasks[t].status && g.units[u].version == g.tasks[t].version)
            && (forall u, v :: u in g.units && v in g.units && g.units[u].taskId == t && g.units[v].taskId == t
                  ==> u == v)
            && g.links[t].result == (if g.run.Active() then None else Some(g.tasks[t].version))
  {
    hide History, Interleaving.History;
    ReachableInv(ws, ms, i, r);
    var g := ws[i][r].g;
    InvTells(g, t);
  }

  lemma InvTells(g: RunGraph, t: Id)
    requires Inv(g) && t in g.tasks
    ensures t in g.history && t in g.links && Chain(g.tasks[t], g.history[t])
    ensures exists u :: u in g.units && g.units[u].taskId == t
                        && g.units[u].status == g.tasks[t].status && g.units[u].version == g.tasks[t].version
    ensures forall u, v :: u in g.units && v in g.units && g.units[u].taskId == t && g.units[v].taskId == t ==> u == v
    ensures g.links[t].result == if g.run.Active() then None else Some(g.tasks[t].version)
  {
    assert TaskOk(g.conversation.owner, t, g.tasks[t], g.history[t]) && LinkOk(g.run, t, g.tasks[t], g.links[t]);
    assert HasUnit(g.units, t);
    var u :| u in g.units && g.units[u].taskId == t;
    assert UnitOk(g.tasks, u, g.units[u]);
  }

  // A Run that stopped never changes again, and neither do its Tasks, units, links and history.
  lemma TerminalRunIsFinal(ws: seq<World>, ms: seq<Moving>, i: nat, j: nat, r: Id)
    requires hide *; History(ws, ms) && i <= j < |ws| && r in ws[i] && !ws[i][r].g.run.Active()
    ensures r in ws[j]
    ensures var g, g' := ws[i][r].g, ws[j][r].g;
            g'.run == g.run && g'.tasks == g.tasks && g'.units == g.units && g'.links == g.links
            && g'.history == g.history
  {
    hide History, Interleaving.History;
    NothingUndone(ws, ms, i, j, r);
  }

  // Exactly one RunStopped when COMPLETED or INCOMPLETE, none otherwise, and none of its calls is active.
  lemma StoppedEventMatchesRun(ws: seq<World>, ms: seq<Moving>, i: nat, r: Id)
    requires hide *; History(ws, ms) && i < |ws| && r in ws[i]
    ensures var g := ws[i][r].g;
            && CountStops(g.trace) == (if g.run.status.RunCompleted? || g.run.status.RunIncomplete? then 1 else 0)
            && (forall e :: e in g.trace && e.kind.RunStopped? ==>
                  e.runId == r && Some(e.at) == g.run.completedAt && e.stopReason == g.run.stopReason)
            && (!g.run.Active() ==> NoActiveCall(g))
            && (g.run.status.RunCompleted? ==> AssistantReplied(g.run, g.messages))
  {
    hide History, Interleaving.History;
    ReachableInv(ws, ms, i, r);
    RunKeyed(ws, ms, i, r);
    StoppedTells(ws[i][r].g);
  }

  lemma StoppedTells(g: RunGraph)
    requires Inv(g)
    ensures CountStops(g.trace) == (if g.run.status.RunCompleted? || g.run.status.RunIncomplete? then 1 else 0)
    ensures forall e :: e in g.trace && e.kind.RunStopped? ==>
              e.runId == g.run.runId && Some(e.at) == g.run.completedAt && e.stopReason == g.run.stopReason
    ensures !g.run.Active() ==> NoActiveCall(g)
    ensures g.run.status.RunCompleted? ==> AssistantReplied(g.run, g.messages)
  {
    forall k | k in g.calls && g.calls[k].status.Active() ensures g.run.Active() {
      assert CallOk(g.run, g.tasks, g.units, k, g.calls[k], g.attempts[k]);
    }
  }

  // A Run stays under the key it was created with.
  lemma {:induction false} RunKeyed(ws: seq<World>, ms: seq<Moving>, i: nat, r: Id)
    requires hide *; History(ws, ms) && i < |ws| && r in ws[i]
    ensures ws[i][r].g.run.runId == r
  {
    if i > 0 {
      assert Interleaving.Moves(ws[i - 1], ms[i - 1], ws[i], Fresh, StepAllowed, Take);
      if r in ws[i - 1] {
        RunKeyed(ws, ms, i - 1, r);
        NothingUndone(ws, ms, i - 1, i, r);
      }
    }
  }

  // At the moment get_order is sent, the call is durably past CREATED with its
  // attempt 1 recorded, and it was never sent before.
  lemma SentOnceAfterFence(ws: seq<World>, ms: seq<Moving>, i: nat, r: Id, id: Id)
    requires History(ws, ms) && i < |ms| && ms[i] == Interleaving.At(r, SentGetOrder(id))
    ensures r in ws[i] && Fenced(ws[i][r].g, id) && id !in ws[i][r].sent
    ensures r in ws[i + 1] && ws[i + 1][r].sent == ws[i][r].sent + [id]
  {
    var j := i + 1;
    assert Interleaving.Moves(ws[i], ms[i], ws[j], Fresh, StepAllowed, Take);
    ReachableInv(ws, ms, i, r);
  }

  // Over a whole history no call is sent twice.
  lemma NeverSentTwice(ws: seq<World>, ms: seq<Moving>, i: nat, j: nat, r: Id, id: Id)
    requires hide *; History(ws, ms) && i < j < |ms|
    requires ms[i] == Interleaving.At(r, SentGetOrder(id))
    ensures ms[j] != Interleaving.At(r, SentGetOrder(id))
  {
    hide Fenced, SystemInv, Interleaving.History;
    SentOnceAfterFence(ws, ms, i, r, id);
    HistoryLength(ws, ms);
    var k := i + 1;
    NothingUndone(ws, ms, k, j, r);
    assert id in ws[j][r].sent by { assert ws[k][r].sent[|ws[i][r].sent|] == id; }
    if ms[j] == Interleaving.At(r, SentGetOrder(id)) {
      SentOnceAfterFence(ws, ms, j, r, id);
    }
  }

  lemma HistoryLength(ws: seq<World>, ms: seq<Moving>)
    requires History(ws, ms)
    ensures |ws| == |ms| + 1
  {
  }

  // A terminal call and a stored Observation are final, and every Observation
  // cites a SUCCEEDED READ call of get_order.
  lemma EvidenceIsFinal(ws: seq<World>, ms: seq<Moving>, i: nat, j: nat, r: Id)
    requires hide *; History(ws, ms) && i <= j < |ws| && r in ws[i]
    ensures r in ws[j]
    ensures forall k :: k in ws[i][r].g.calls && !ws[i][r].g.calls[k].status.Active() ==>
              k in ws[j][r].g.calls && ws[j][r].g.calls[k] == ws[i][r].g.calls[k]
    ensures forall o :: o in ws[i][r].g.observations ==>
              && o in ws[j][r].g.observations && ws[j][r].g.observations[o] == ws[i][r].g.observations[o]
              && o in ws[j][r].g.sources && ws[j][r].g.sources[o] in ws[j][r].g.calls
              && var c := ws[j][r].g.calls[ws[j][r].g.sources[o]];
                 c.status.CallSucceeded? && c.effect.Read? && c.tool == "get_order"
  {
    hide History, Interleaving.History;
    NothingUndone(ws, ms, i, j, r);
    ReachableInv(ws, ms, j, r);
    FinalTells(ws[i][r].g, ws[j][r].g);
  }

  lemma FinalTells(g: RunGraph, g': RunGraph)
    requires Preserves(g, g') && Inv(g')
    ensures forall k :: k in g.calls && !g.calls[k].status.Active() ==> k in g'.calls && g'.calls[k] == g.calls[k]
    ensures forall o :: o in g.observations ==>
              && o in g'.observations && g'.observations[o] == g.observations[o]
              && o in g'.sources && g'.sources[o] in g'.calls
              && var c := g'.calls[g'.sources[o]];
                 c.status.CallSucceeded? && c.effect.Read? && c.tool == "get_order"
  {
    assert forall k :: k in g.calls ==> CallKept(g.calls[k], g'.calls[k]);
  }
}
