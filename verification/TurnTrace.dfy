// The trace of a finished turn, read kind by kind and call by call.

module TurnTrace {
  import opened Records
  import opened Commands
  import opened RunStore
  import opened Evidence
  import opened Turns
  import opened TurnTools
  import Sorting

  // ----- Filtering -----

  lemma {:induction false} OfKindConcat(a: seq<TraceEvent>, b: seq<TraceEvent>, kind: EventKind)
    ensures OfKind(a + b, kind) == OfKind(a, kind) + OfKind(b, kind)
  {
    if b == [] {
      assert a + b == a;
    } else {
      assert (a + b)[..|a + b| - 1] == a + b[..|b| - 1];
      OfKindConcat(a, b[..|b| - 1], kind);
    }
  }

  lemma {:induction false} OfKindNone(es: seq<TraceEvent>, kind: EventKind)
    requires forall e :: e in es ==> e.kind != kind
    ensures OfKind(es, kind) == []
  {
    if es != [] {
      OfKindNone(es[..|es| - 1], kind);
      assert es[|es| - 1] in es;
    }
  }

  lemma {:induction false} LifecycleConcat(a: seq<TraceEvent>, b: seq<TraceEvent>, call: Id)
    ensures LifecycleOf(a + b, call) == LifecycleOf(a, call) + LifecycleOf(b, call)
  {
    if b == [] {
      assert a + b == a;
    } else {
      assert (a + b)[..|a + b| - 1] == a + b[..|b| - 1];
      LifecycleConcat(a, b[..|b| - 1], call);
    }
  }

  lemma {:induction false} LifecycleNone(es: seq<TraceEvent>, call: Id)
    requires forall e :: e in es ==> CallStatusOf(e.kind).None?
    ensures LifecycleOf(es, call) == []
  {
    if es != [] {
      LifecycleNone(es[..|es| - 1], call);
      assert es[|es| - 1] in es;
    }
  }

  // ----- The kinds of the parts -----

  predicate Early(kind: EventKind) {
    kind.MessageAccepted? || kind.RunStarted? || kind.RequestUnderstandingStarted? || kind.ContextManifestRecorded?
    || kind.NextMoveProposed? || kind.TaskDeltaValidated? || kind.TaskDeltaAccepted? || kind.InputBindingRecorded?
    || kind.TaskStateChanged? || kind.NextMoveRevalidated? || kind.PresentationPlanProposed? || kind.ResponseRendered?
  }

  lemma EarlyParts(t: Turn, w: Work)
    requires OpeningOk(t) && DecidedOk(t, w)
    ensures forall e :: e in t.opening + w.decided ==> Early(e.kind)
  {
  }

  predicate AllEarly(es: seq<TraceEvent>) { forall e :: e in es ==> Early(e.kind) }

  function Prelude(t: Turn, w: Work): seq<TraceEvent> {
    t.opening + w.decided + if w.hook.Some? then [w.hook.value.1] else []
  }

  lemma TraceParts(t: Turn, w: Work)
    requires t.work == Some(w)
    ensures t.Trace() == Prelude(t, w) + [w.gateEvent] + w.ToolTrace() + [t.rendered, w.endEvent] + [t.stop]
  {
    hide Work.ToolTrace;
  }

  lemma EarlyMoves(t: Turn, w: Work)
    requires MovesOk(t, w) && EndOk(t)
    ensures (w.hook.Some? ==> Early(w.hook.value.1.kind)) && Early(w.endEvent.kind) && Early(t.rendered.kind)
  {
    hide StepOk, TerminalRow, Run.Valid;
  }

  lemma EarlySides(t: Turn, w: Work)
    requires OpeningOk(t) && DecidedOk(t, w) && MovesOk(t, w) && EndOk(t)
    ensures AllEarly(Prelude(t, w)) && AllEarly([t.rendered, w.endEvent])
  {
    hide OpeningOk, DecidedOk, MovesOk, EndOk, Early;
    EarlyParts(t, w);
    EarlyMoves(t, w);
  }

  // Kinds that are not early come from the gate, the tool or the end of the Run.
  lemma LateEvents(t: Turn, w: Work, kind: EventKind)
    requires t.work == Some(w) && WorkOk(t, w) && OpeningOk(t) && EndOk(t) && !Early(kind)
    ensures OfKind(t.Trace(), kind) == OfKind([w.gateEvent], kind) + OfKind(w.ToolTrace(), kind) + OfKind([t.stop], kind)
  {
    hide OpeningOk, EndOk, DecidedOk, MovesOk, GateOk, ToolOk, Creation, CreateGraphCommand.Valid, Turn.Trace,
      Work.ToolTrace, OfKind, Prelude;
    TraceParts(t, w);
    EarlySides(t, w);
    var p, tail := Prelude(t, w), [t.rendered, w.endEvent];
    OfKindNone(p, kind);
    OfKindNone(tail, kind);
    OfKindConcat(p, [w.gateEvent], kind);
    OfKindConcat(p + [w.gateEvent], w.ToolTrace(), kind);
    OfKindConcat(p + [w.gateEvent] + w.ToolTrace(), tail, kind);
    OfKindConcat(p + [w.gateEvent] + w.ToolTrace() + tail, [t.stop], kind);
  }

  lemma EarlyHasNoCall(es: seq<TraceEvent>, call: Id)
    requires AllEarly(es)
    ensures LifecycleOf(es, call) == []
  {
    LifecycleNone(es, call);
  }

  lemma OneEvent(e: TraceEvent, kind: EventKind)
    ensures OfKind([e], kind) == if e.kind == kind then [e] else []
  {
    assert [e][..0] == [];
    assert OfKind([], kind) == [];
  }

  lemma OneLifecycle(e: TraceEvent, call: Id)
    ensures LifecycleOf([e], call) == if CallStatusOf(e.kind).Some? && e.callId == Some(call) then [e] else []
  {
    assert [e][..0] == [];
    assert LifecycleOf([], call) == [];
  }

  // ----- The tool's own events -----

  function SeenTrace(x: Tool): seq<TraceEvent> {
    match x.seen
    case None => []
    case Some(s) => [s.observed, s.assembled] + if s.plan.Some? then [s.plan.value] else []
  }

  lemma ToolParts(w: Work, x: Tool)
    requires w.tool == Some(x)
    ensures w.ToolTrace() == [x.created] + [x.started] + [x.ended] + [x.normalized] + SeenTrace(x)
  {
  }

  lemma ToolKinds(t: Turn, w: Work, x: Tool)
    requires ToolOk(t, w, x)
    ensures x.created.kind == ToolCallCreated && x.started.kind == ToolCallStarted
    ensures x.ended.kind == EndKind(x.call.status) && x.normalized.kind == ToolResultNormalized
    ensures x.created.callId == x.started.callId == x.ended.callId == x.normalized.callId == Some(x.call.callId)
    ensures x.created.at == x.call.startedAt && x.started.at == x.attempt.startedAt
    ensures x.call.finishedAt == Some(x.ended.at) == Some(x.normalized.at)
    ensures x.call.startedAt <= x.attempt.startedAt <= x.ended.at
    ensures x.normalized.toolOutcome == x.attempt.outcome
    ensures CallStatusOf(x.ended.kind) == Some(x.call.status)
  {
    hide SeenOk;
  }

  lemma SeenKinds(t: Turn, w: Work, x: Tool, s: Seen)
    requires SeenOk(t, w, x, s)
    ensures s.observed.kind == ObservationRecorded && s.observed.observationRef == Some(s.observation.observationId)
    ensures s.assembled.kind == ContextManifestRecorded
    ensures s.plan.Some? ==> s.plan.value.kind == PresentationPlanProposed
  {
  }

  lemma ToolOfKind(t: Turn, w: Work, x: Tool, kind: EventKind)
    requires w.tool == Some(x)
    ensures OfKind(w.ToolTrace(), kind) == OfKind([x.created], kind) + OfKind([x.started], kind) + OfKind([x.ended], kind)
                                           + OfKind([x.normalized], kind) + OfKind(SeenTrace(x), kind)
  {
    hide OfKind, Work.ToolTrace, SeenTrace;
    ToolParts(w, x);
    OfKindConcat([x.created], [x.started], kind);
    OfKindConcat([x.created] + [x.started], [x.ended], kind);
    OfKindConcat([x.created] + [x.started] + [x.ended], [x.normalized], kind);
    OfKindConcat([x.created] + [x.started] + [x.ended] + [x.normalized], SeenTrace(x), kind);
  }

  lemma SeenOfKind(t: Turn, w: Work, x: Tool, kind: EventKind)
    requires (x.seen.Some? ==> SeenOk(t, w, x, x.seen.value)) && !Early(kind)
    ensures OfKind(SeenTrace(x), kind)
            == if x.seen.Some? && kind.ObservationRecorded? then [x.seen.value.observed] else []
  {
    hide SeenOk, OfKind;
    if x.seen.Some? {
      var s := x.seen.value;
      SeenKinds(t, w, x, s);
      var rest := [s.assembled] + if s.plan.Some? then [s.plan.value] else [];
      assert SeenTrace(x) == [s.observed] + rest;
      OfKindConcat([s.observed], rest, kind);
      OneEvent(s.observed, kind);
      OfKindNone(rest, kind);
    } else {
      OfKindNone([], kind);
    }
  }

  lemma ToolLate(t: Turn, w: Work, x: Tool, kind: EventKind)
    requires w.tool == Some(x) && ToolOk(t, w, x) && !Early(kind) && CallStatusOf(kind).None?
    ensures OfKind(w.ToolTrace(), kind)
            == if kind.ToolResultNormalized? then [x.normalized]
               else if x.seen.Some? && kind.ObservationRecorded? then [x.seen.value.observed] else []
  {
    hide ToolOk, SeenOk, OfKind, Work.ToolTrace, SeenTrace, Early;
    ToolSeen(t, w, x);
    SeenOfKind(t, w, x, kind);
    ToolKinds(t, w, x);
    ToolOfKind(t, w, x, kind);
    OneEvent(x.created, kind);
    OneEvent(x.started, kind);
    OneEvent(x.ended, kind);
    OneEvent(x.normalized, kind);
  }

  lemma GateAndStop(t: Turn, w: Work)
    requires GateOk(t, w) && EndOk(t)
    ensures w.gateEvent.kind == GateDecisionRecorded && t.stop.kind == RunStopped
  {
    hide GateDecision.Valid, TerminalRow;
  }

  // What a late kind amounts to in the whole trace.
  lemma KindOfWork(t: Turn, w: Work, kind: EventKind)
    requires t.work == Some(w) && WorkOk(t, w) && OpeningOk(t) && EndOk(t)
    requires !Early(kind) && CallStatusOf(kind).None?
    ensures OfKind(t.Trace(), kind)
            == match kind
               case GateDecisionRecorded => [w.gateEvent]
               case RunStopped => [t.stop]
               case ToolResultNormalized => if w.tool.Some? then [w.tool.value.normalized] else []
               case ObservationRecorded =>
                 if w.tool.Some? && w.tool.value.seen.Some? then [w.tool.value.seen.value.observed] else []
               case _ => []
  {
    hide OpeningOk, EndOk, DecidedOk, MovesOk, GateOk, ToolOk, Creation, CreateGraphCommand.Valid, Turn.Trace, OfKind, Early;
    LateEvents(t, w, kind);
    GateAndStop(t, w);
    OneEvent(w.gateEvent, kind);
    OneEvent(t.stop, kind);
    if w.tool.Some? {
      ToolLate(t, w, w.tool.value, kind);
      hide Work.ToolTrace;
    } else {
      OfKindNone([], kind);
    }
  }

  // ----- The lifecycle of the one call -----

  lemma LifecycleOfWork(t: Turn, w: Work, x: Tool)
    requires t.work == Some(w) && w.tool == Some(x) && WorkOk(t, w) && OpeningOk(t) && EndOk(t)
    ensures LifecycleOf(t.Trace(), x.call.callId) == [x.created, x.started, x.ended]
  {
    hide OpeningOk, EndOk, DecidedOk, MovesOk, GateOk, ToolOk, Creation, CreateGraphCommand.Valid, Turn.Trace,
      Work.ToolTrace, LifecycleOf, Prelude;
    TraceParts(t, w);
    EarlySides(t, w);
    GateAndStop(t, w);
    LifecycleOfTool(t, w, x);
    var c, p, tail := x.call.callId, Prelude(t, w), [t.rendered, w.endEvent];
    EarlyHasNoCall(p, c);
    EarlyHasNoCall(tail, c);
    OneLifecycle(w.gateEvent, c);
    OneLifecycle(t.stop, c);
    LifecycleConcat(p, [w.gateEvent], c);
    LifecycleConcat(p + [w.gateEvent], w.ToolTrace(), c);
    LifecycleConcat(p + [w.gateEvent] + w.ToolTrace(), tail, c);
    LifecycleConcat(p + [w.gateEvent] + w.ToolTrace() + tail, [t.stop], c);
  }

  lemma SeenHasNoCall(t: Turn, w: Work, x: Tool)
    requires x.seen.Some? ==> SeenOk(t, w, x, x.seen.value)
    ensures LifecycleOf(SeenTrace(x), x.call.callId) == []
  {
    hide SeenOk;
    if x.seen.Some? { SeenKinds(t, w, x, x.seen.value); }
    LifecycleNone(SeenTrace(x), x.call.callId);
  }

  lemma ToolSeen(t: Turn, w: Work, x: Tool)
    requires ToolOk(t, w, x)
    ensures x.seen.Some? ==> SeenOk(t, w, x, x.seen.value)
  {
    hide SeenOk;
  }

  lemma LifecycleOfTool(t: Turn, w: Work, x: Tool)
    requires w.tool == Some(x) && ToolOk(t, w, x)
    ensures LifecycleOf(w.ToolTrace(), x.call.callId) == [x.created, x.started, x.ended]
  {
    hide ToolOk, SeenOk, LifecycleOf, Work.ToolTrace, SeenTrace;
    ToolSeen(t, w, x);
    SeenHasNoCall(t, w, x);
    ToolKinds(t, w, x);
    ToolParts(w, x);
    var c := x.call.callId;
    OneLifecycle(x.created, c);
    OneLifecycle(x.started, c);
    OneLifecycle(x.ended, c);
    OneLifecycle(x.normalized, c);
    LifecycleConcat([x.created], [x.started], c);
    LifecycleConcat([x.created] + [x.started], [x.ended], c);
    LifecycleConcat([x.created] + [x.started] + [x.ended], [x.normalized], c);
    LifecycleConcat([x.created] + [x.started] + [x.ended] + [x.normalized], SeenTrace(x), c);
  }

  lemma SortedThree(a: TraceEvent, b: TraceEvent, c: TraceEvent)
    requires LifeLe(a, b) && LifeLe(b, c)
    ensures Sorting.Sort([a, b, c], LifeLe) == [a, b, c]
  {
    assert [a, b, c][1..] == [b, c] && [b, c][1..] == [c] && [c][1..] == [];
    assert Sorting.Sort([], LifeLe) == [];
    assert Sorting.Sort([c], LifeLe) == [c];
    assert Sorting.Sort([b, c], LifeLe) == [b, c];
  }

  lemma ThreeClose(c: ToolCall, trace: seq<TraceEvent>, a: TraceEvent, b: TraceEvent, d: TraceEvent)
    requires LifecycleOf(trace, c.callId) == [a, b, d] && !c.status.Active()
    requires a.kind == ToolCallCreated && b.kind == ToolCallStarted && CallStatusOf(d.kind) == Some(c.status)
    requires c.startedAt <= a.at <= b.at <= d.at && c.finishedAt == Some(d.at)
    ensures LifecycleCloses(c, trace)
  {
    hide Sorting.Sort, LifecycleOf;
    SortedThree(a, b, d);
    hide LifeLe;
  }

  lemma LifecyclesOfWork(t: Turn, w: Work)
    requires t.work == Some(w) && WorkOk(t, w) && OpeningOk(t) && EndOk(t)
    ensures LifecyclesClose(Calls(w), t.Trace())
  {
    hide OpeningOk, EndOk, DecidedOk, MovesOk, GateOk, ToolOk, Creation, CreateGraphCommand.Valid, Turn.Trace,
      LifecycleOf, LifecycleCloses;
    if w.tool.Some? {
      var x := w.tool.value;
      LifecycleOfWork(t, w, x);
      ToolKinds(t, w, x);
      EndedPhase(t, w, x);
      ThreeClose(x.call, t.Trace(), x.created, x.started, x.ended);
    }
  }

  lemma EndedPhase(t: Turn, w: Work, x: Tool)
    requires ToolOk(t, w, x)
    ensures !x.call.status.Active() && PhaseOf(x.ended) == 2 && x.call.finishedAt.Some?
  {
    hide SeenOk;
  }
}
