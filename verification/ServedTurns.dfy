// What a result handed to the customer stands for: a completed Run whose stored
// records close, and whose trace passes the trace checks of the evaluation on
// exactly its own path.

module ServedTurns {
  import opened Records
  import opened Commands
  import opened RunStore
  import opened Evidence
  import opened Turns
  import opened TurnReferences
  import opened TurnClosure
  import opened TurnProgress
  import opened TurnGrades
  import opened TraceGrader
  import opened RunSteps

  // The store holds the completed Run, the assistant's message and the one
  // RunStopped event that carries the result's outcome.
  lemma ResultIsStored(g: RunGraph, t: Turn, result: AgentRunResult)
    requires EndedSomehow(g, t, result)
    ensures g.run.status.RunCompleted? && g.run.runId == result.runId
    ensures exists m :: m in g.messages && g.messages[m].direction.FromAssistant? && g.messages[m].content == result.message
                        && Some(g.messages[m].receivedAt) == g.run.completedAt
    ensures exists e :: e in g.trace && e.kind.RunStopped? && e.runId == result.runId && e.outcome == Some(result.outcome)
                        && e.stopReason == g.run.stopReason && Some(e.at) == g.run.completedAt
  {
    var reason :| Ended(g, t, result, reason);
    TurnStored(t);
    EndStored(t);
    hide TurnOk, Turn.Graph;
    assert t.assistant.messageId in g.messages && t.stop in g.trace;
  }

  lemma TurnStored(t: Turn)
    ensures t.Graph().run == t.terminal && t.stop in t.Graph().trace
    ensures t.assistant.messageId in t.Graph().messages && t.Graph().messages[t.assistant.messageId] == t.assistant
  {
    assert t.stop == t.Trace()[|t.Trace()| - 1];
  }

  lemma EndStored(t: Turn)
    requires TurnOk(t)
    ensures t.terminal.status.RunCompleted? && t.assistant.direction.FromAssistant?
    ensures Some(t.assistant.receivedAt) == t.terminal.completedAt == Some(t.stop.at)
    ensures t.stop.kind.RunStopped? && t.stop.runId == t.terminal.runId && t.stop.stopReason == t.terminal.stopReason
  {
    hide OpeningOk, WorkOk, TerminalRow, Turn.Trace;
  }

  // The records of the Run are a complete evidence closure, unless the clock stood
  // still while a presented Task moved on.
  lemma ServedRunCloses(g: RunGraph, t: Turn, result: AgentRunResult)
    requires EndedSomehow(g, t, result)
    ensures Closed(Loaded(t, g)) <==> MovedAfterPresentation(t)
  {
    hide TurnOk, Turn.Graph, Closed, MovedAfterPresentation, Loaded;
    var reason :| Ended(g, t, result, reason);
    FinishedTurnCloses(t);
  }

  // The same of any Run found COMPLETED after a handler was done with it, even if
  // the handler itself ended in an error or a cancellation.
  lemma CompletedRunCloses(g: RunGraph)
    requires CompletedIsFinished(g) && g.run.status.RunCompleted?
    ensures exists t: Turn :: TurnOk(t) && g == t.Graph()
              && (Closed(Loaded(t, g)) <==> MovedAfterPresentation(t))
  {
    hide TurnOk, Turn.Graph, Closed, MovedAfterPresentation, Loaded, FinishedTurn;
    var t := TurnOf(g);
    FinishedTurnCloses(t);
  }

  lemma TurnOf(g: RunGraph) returns (t: Turn)
    requires CompletedIsFinished(g) && g.run.status.RunCompleted?
    ensures TurnOk(t) && g == t.Graph()
  {
    hide TurnOk, Turn.Graph;
    t :| TurnOk(t) && g == t.Graph();
  }

  lemma ServedRunIsGraded(g: RunGraph, t: Turn, result: AgentRunResult, v: Variant, graded: TraceEvent)
    requires EndedSomehow(g, t, result) && graded.kind.EvalCaseGraded?
    ensures Countable(Edges(v))
    ensures CardinalityVerdict(g.trace + [graded], v).Pass? && PrecedenceVerdict(g.trace + [graded], Edges(v)).Pass?
            <==> Takes(t, v)
  {
    hide TurnOk, Turn.Graph, Turn.Trace, Edges, CardinalityVerdict, PrecedenceVerdict, Takes, Countable;
    var reason :| Ended(g, t, result, reason);
    TraceStored(t);
    TurnGradedExactly(t, v, graded);
  }

  lemma TraceStored(t: Turn)
    ensures t.Graph().trace == t.Trace()
  {
    hide Turn.Trace;
  }
}
