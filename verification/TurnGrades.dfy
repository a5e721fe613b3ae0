// The trace of a finished turn, followed by EvalCaseGraded, is the one the trace
// checks of the evaluation accept on that path.

module TurnGrades {
  import opened Records
  import Commands
  import opened Turns
  import opened TraceGrader
  import opened TraceTheorem

  // ----- The path a turn took -----

  // The variants whose path the turn followed.
  predicate Takes(t: Turn, v: Variant) {
    match v
    case ProviderProtocolBeforeCandidate => t.work.None?
    case InputValidationRejected => t.work.None?
    case StaleStateRejected => t.work.Some? && t.work.value.hook.Some?
    case ArgumentBindingRejected => Gated(t) && t.work.value.tool.None?
    case UnknownToolRejected => Gated(t) && t.work.value.tool.None?
    case ForeignOrder => Called(t) && t.work.value.tool.value.call.status.CallFailed? && t.work.value.tool.value.seen.None?
    case NonexistentOrder => Called(t) && t.work.value.tool.value.call.status.CallFailed? && t.work.value.tool.value.seen.None?
    case PresentationProtocolRejected => Presented(t) && t.work.value.tool.value.seen.value.plan.None?
    case SuccessPath => Presented(t) && t.work.value.tool.value.seen.value.plan.Some?
  }

  predicate Gated(t: Turn) { t.work.Some? && t.work.value.hook.None? }

  predicate Called(t: Turn) { Gated(t) && t.work.value.tool.Some? }

  predicate Presented(t: Turn) { Called(t) && t.work.value.tool.value.seen.Some? }

  // ----- Labels -----

  function Labels(es: seq<TraceEvent>): (r: seq<Label>)
    ensures |r| == |es| && forall i :: 0 <= i < |es| ==> r[i] == LabelOf(es[i])
  {
    seq(|es|, i requires 0 <= i < |es| => LabelOf(es[i]))
  }

  lemma {:induction false} ProjectionConcat(a: seq<TraceEvent>, b: seq<TraceEvent>)
    ensures Projection(a + b) == Projection(a) + Projection(b)
  {
    if b == [] {
      assert a + b == a;
    } else {
      assert (a + b)[..|a + b| - 1] == a + b[..|b| - 1];
      ProjectionConcat(a, b[..|b| - 1]);
    }
  }

  lemma {:induction false} SafeProjection(es: seq<TraceEvent>)
    requires forall e :: e in es ==> Safety(e.kind)
    ensures Projection(es) == Labels(es)
  {
    if es != [] {
      assert es == es[..|es| - 1] + [es[|es| - 1]];
      SafeProjection(es[..|es| - 1]);
    }
  }

  lemma {:induction false} SpotsPrefix(a: seq<TraceEvent>, b: seq<TraceEvent>)
    ensures Spots(a) <= Spots(a + b)
  {
    if b == [] {
      assert a + b == a;
    } else {
      assert (a + b)[..|a + b| - 1] == a + b[..|b| - 1];
      SpotsPrefix(a, b[..|b| - 1]);
    }
  }

  lemma {:induction false} MatchingPrefix(a: seq<TraceEvent>, b: seq<TraceEvent>, n: Node)
    ensures Matching(a, n) <= Matching(a + b, n)
  {
    if b == [] {
      assert a + b == a;
    } else {
      assert (a + b)[..|a + b| - 1] == a + b[..|b| - 1];
      MatchingPrefix(a, b[..|b| - 1], n);
    }
  }

  // ----- The opening -----

  predicate OpeningKinds(es: seq<TraceEvent>) {
    && |es| == 4 && es[0].kind.MessageAccepted? && es[1].kind.RunStarted? && es[2].kind.RequestUnderstandingStarted?
    && es[3].kind.ContextManifestRecorded? && es[3].purpose == Some("REQUEST_UNDERSTANDING")
  }

  lemma OpeningIsPlain(t: Turn)
    requires OpeningOk(t)
    ensures OpeningKinds(t.opening)
  {
  }

  lemma OneSpot(e: TraceEvent)
    ensures Projection([e]) == if Safety(e.kind) then [LabelOf(e)] else []
  {
    assert [e][..0] == [];
    assert Projection([]) == [];
  }

  lemma OpeningProjection(es: seq<TraceEvent>)
    requires OpeningKinds(es)
    ensures Projection(es) == [LabelOf(es[0]), LabelOf(es[1]), LabelOf(es[3])]
  {
    assert es == [es[0]] + [es[1]] + [es[2]] + [es[3]];
    ProjectionConcat([es[0]], [es[1]]);
    ProjectionConcat([es[0]] + [es[1]], [es[2]]);
    ProjectionConcat([es[0]] + [es[1]] + [es[2]], [es[3]]);
    OneSpot(es[0]);
    OneSpot(es[1]);
    OneSpot(es[2]);
    OneSpot(es[3]);
    hide Projection;
  }

  lemma OpeningSpots(es: seq<TraceEvent>)
    requires OpeningKinds(es)
    ensures Spots(es) == [0, 1, 3] && Matching(es, RU_STARTED) == [2]
  {
    assert es[..3][..2] == es[..2] && es[..2][..1] == es[..1] && es[..1][..0] == [];
    assert Spots([]) == [] && Matching([], RU_STARTED) == [];
    assert Spots(es[..1]) == [0] && Matching(es[..1], RU_STARTED) == [];
    assert Spots(es[..2]) == [0, 1] && Matching(es[..2], RU_STARTED) == [];
    assert Spots(es[..3]) == [0, 1] && Matching(es[..3], RU_STARTED) == [2];
  }

  // Understanding starts in place whatever follows the opening.
  lemma StartsInPlace(es: seq<TraceEvent>, rest: seq<TraceEvent>)
    requires OpeningKinds(es)
    ensures StartInPlace(es + rest)
  {
    OpeningSpots(es);
    SpotsPrefix(es, rest);
    MatchingPrefix(es, rest, RU_STARTED);
    hide Spots, Matching;
    assert Spots(es + rest)[1] == Spots(es)[1] && Spots(es + rest)[2] == Spots(es)[2];
    assert Matching(es + rest, RU_STARTED)[0] == Matching(es, RU_STARTED)[0];
  }

  lemma OpenedExactly(es: seq<TraceEvent>, rest: seq<TraceEvent>, c: seq<Node>)
    requires OpeningKinds(es) && (forall e :: e in rest ==> Safety(e.kind)) && 4 <= |c|
    requires c[..4] == [MESSAGE, RUN_STARTED, RU_STARTED, RU_MANIFEST]
    requires Labels(rest) == NodeLabels(c[4..])
    ensures ExactlyOrdered(es + rest, c)
  {
    StartsInPlace(es, rest);
    ProjectionConcat(es, rest);
    SafeProjection(rest);
    OpeningProjection(es);
    hide Projection, StartInPlace;
    var w := WithoutStart(c);
    assert w == [c[0], c[1], c[3]] + c[4..] && c[0] == c[..4][0] && c[1] == c[..4][1] && c[3] == c[..4][3];
    assert NodeLabels(w) == NodeLabels([c[0], c[1], c[3]]) + NodeLabels(c[4..]);
  }

  // Exactly the sequence of a variant.
  ghost predicate Follows(es: seq<TraceEvent>, v: Variant) { ExactlyOrdered(es, Order(v)) }

  // ----- Everything after the opening -----

  function Rest(t: Turn, graded: TraceEvent): seq<TraceEvent> {
    match t.work
    case None => [t.rendered, t.stop, graded]
    case Some(w) =>
      w.decided + (if w.hook.Some? then [w.hook.value.1] else []) + [w.gateEvent] + w.ToolTrace()
      + [t.rendered, w.endEvent, t.stop, graded]
  }

  lemma TraceSplits(t: Turn, graded: TraceEvent)
    ensures t.Trace() + [graded] == t.opening + Rest(t, graded)
  {
  }

  predicate DecidedKinds(es: seq<TraceEvent>) {
    && |es| == 6 && es[0].kind.NextMoveProposed? && es[1].kind.TaskDeltaValidated? && es[2].kind.TaskDeltaAccepted?
    && es[3].kind.InputBindingRecorded? && es[4].kind.TaskStateChanged? && es[5].kind.NextMoveRevalidated?
  }

  lemma DecidedIsPlain(t: Turn, w: Work)
    requires DecidedOk(t, w)
    ensures DecidedKinds(w.decided)
  {
  }

  lemma FrameKinds(t: Turn)
    requires EndOk(t)
    ensures t.rendered.kind.ResponseRendered? && t.stop.kind.RunStopped?
  {
    hide Commands.TerminalRow, Run.Valid;
  }

  lemma MoveKinds(t: Turn, w: Work)
    requires MovesOk(t, w)
    ensures w.endEvent.kind.TaskStateChanged? && (w.hook.Some? ==> w.hook.value.1.kind.TaskStateChanged?)
  {
    hide StepOk;
  }

  lemma GateKind(t: Turn, w: Work)
    requires GateOk(t, w)
    ensures w.gateEvent.kind.GateDecisionRecorded? && (w.hook.Some? ==> w.tool.None?)
  {
    hide GateDecision.Valid;
  }

  lemma CallKinds(t: Turn, w: Work, x: Tool)
    requires ToolOk(t, w, x)
    ensures x.created.kind.ToolCallCreated? && x.started.kind.ToolCallStarted? && x.normalized.kind.ToolResultNormalized?
    ensures x.ended.kind == EndKind(x.call.status)
  {
    hide SeenWith;
  }

  lemma SeenKinds(t: Turn, w: Work, x: Tool)
    requires ToolOk(t, w, x) && x.seen.Some?
    ensures x.call.status.CallSucceeded? && x.seen.value.observed.kind.ObservationRecorded?
    ensures LabelOf(x.seen.value.assembled) == (ContextManifestRecorded, Some("PRESENTATION"))
    ensures x.seen.value.plan.Some? ==> x.seen.value.plan.value.kind.PresentationPlanProposed?
  {
    hide CalledWith;
  }

  const CANDIDATE_LABELS: seq<Label> := [
    (NextMoveProposed, None), (TaskDeltaValidated, None), (TaskDeltaAccepted, None), (InputBindingRecorded, None),
    (TaskStateChanged, None), (NextMoveRevalidated, None)]

  function Bare(kind: EventKind): Label { (kind, None) }

  // The labels of what the tool left in the trace.
  function ToolLabels(x: Tool): seq<Label> {
    [Bare(ToolCallCreated), Bare(ToolCallStarted),
     Bare(EndKind(x.call.status)), Bare(ToolResultNormalized)]
    + (if x.seen.None? then []
       else [Bare(ObservationRecorded), (ContextManifestRecorded, Some("PRESENTATION"))]
            + if x.seen.value.plan.Some? then [Bare(PresentationPlanProposed)] else [])
  }

  lemma ToolTraceLabels(t: Turn, w: Work, x: Tool)
    requires w.tool == Some(x) && ToolOk(t, w, x)
    ensures Labels(w.ToolTrace()) == ToolLabels(x)
    ensures forall e :: e in w.ToolTrace() ==> Safety(e.kind)
  {
    hide ToolOk, Labels;
    CallKinds(t, w, x);
    var call, seen := [x.created, x.started, x.ended, x.normalized], SeenEvents(x);
    assert w.ToolTrace() == call + seen;
    LabelsConcat(call, seen);
    FourLabels(x.created, x.started, x.ended, x.normalized);
    if x.seen.Some? { SeenKinds(t, w, x); }
    SeenEventLabels(x);
  }

  function SeenEvents(x: Tool): seq<TraceEvent> {
    match x.seen
    case None => []
    case Some(s) => [s.observed, s.assembled] + if s.plan.Some? then [s.plan.value] else []
  }

  lemma SeenEventLabels(x: Tool)
    requires x.seen.Some? ==>
               && x.seen.value.observed.kind.ObservationRecorded?
               && LabelOf(x.seen.value.assembled) == (ContextManifestRecorded, Some("PRESENTATION"))
               && (x.seen.value.plan.Some? ==> x.seen.value.plan.value.kind.PresentationPlanProposed?)
    ensures ToolLabels(x) == [Bare(ToolCallCreated), Bare(ToolCallStarted), Bare(EndKind(x.call.status)),
                              Bare(ToolResultNormalized)] + Labels(SeenEvents(x))
    ensures forall e :: e in SeenEvents(x) ==> Safety(e.kind)
  {
  }

  lemma FourLabels(a: TraceEvent, b: TraceEvent, c: TraceEvent, d: TraceEvent)
    ensures Labels([a, b, c, d]) == [LabelOf(a), LabelOf(b), LabelOf(c), LabelOf(d)]
  {
    hide LabelOf;
  }

  lemma LabelsConcat(a: seq<TraceEvent>, b: seq<TraceEvent>)
    ensures Labels(a + b) == Labels(a) + Labels(b)
  {
  }

  // The labels that follow the opening of a turn with a Task.
  function WorkLabels(w: Work, tool: seq<Label>): seq<Label> {
    CANDIDATE_LABELS + (if w.hook.Some? then [Bare(TaskStateChanged)] else []) + [Bare(GateDecisionRecorded)] + tool
    + [Bare(ResponseRendered), Bare(TaskStateChanged), Bare(RunStopped), Bare(EvalCaseGraded)]
  }

  lemma DecidedLabels(es: seq<TraceEvent>)
    requires DecidedKinds(es)
    ensures Labels(es) == CANDIDATE_LABELS && forall e :: e in es ==> Safety(e.kind)
  {
  }

  lemma HookLabels(w: Work)
    requires w.hook.Some? ==> w.hook.value.1.kind.TaskStateChanged?
    ensures Labels(if w.hook.Some? then [w.hook.value.1] else []) == if w.hook.Some? then [Bare(TaskStateChanged)] else []
  {
  }

  lemma WorkRestLabels(t: Turn, w: Work, graded: TraceEvent, tool: seq<Label>)
    requires t.work == Some(w) && WorkOk(t, w) && EndOk(t) && graded.kind.EvalCaseGraded?
    requires Labels(w.ToolTrace()) == tool && forall e :: e in w.ToolTrace() ==> Safety(e.kind)
    ensures Labels(Rest(t, graded)) == WorkLabels(w, tool)
    ensures forall e :: e in Rest(t, graded) ==> Safety(e.kind)
  {
    hide Work.ToolTrace, DecidedOk, MovesOk, GateOk, ToolOk, EndOk, Creation, Commands.CreateGraphCommand.Valid, Labels,
      DecidedKinds, HookOk, StepOk;
    DecidedIsPlain(t, w);
    DecidedLabels(w.decided);
    MoveKinds(t, w);
    HookLabels(w);
    GateKind(t, w);
    OneLabel(w.gateEvent);
    FrameKinds(t);
    FourLabels(t.rendered, w.endEvent, t.stop, graded);
    var hook := if w.hook.Some? then [w.hook.value.1] else [];
    var tail := [t.rendered, w.endEvent, t.stop, graded];
    LabelsConcat(w.decided, hook);
    LabelsConcat(w.decided + hook, [w.gateEvent]);
    LabelsConcat(w.decided + hook + [w.gateEvent], w.ToolTrace());
    LabelsConcat(w.decided + hook + [w.gateEvent] + w.ToolTrace(), tail);
  }

  lemma OneLabel(e: TraceEvent)
    ensures Labels([e]) == [LabelOf(e)]
  {
  }

  // ----- The paths and their orders -----

  lemma BareOrder(v: Variant)
    requires v.ProviderProtocolBeforeCandidate? || v.InputValidationRejected?
    ensures 4 <= |Order(v)| && Order(v)[..4] == [MESSAGE, RUN_STARTED, RU_STARTED, RU_MANIFEST]
    ensures NodeLabels(Order(v)[4..]) == [Bare(ResponseRendered), Bare(RunStopped), Bare(EvalCaseGraded)]
  {
  }

  lemma RejectedOrder(v: Variant, w: Work)
    requires if w.hook.Some? then v.StaleStateRejected? else v.ArgumentBindingRejected? || v.UnknownToolRejected?
    ensures 4 <= |Order(v)| && Order(v)[..4] == [MESSAGE, RUN_STARTED, RU_STARTED, RU_MANIFEST]
    ensures NodeLabels(Order(v)[4..]) == WorkLabels(w, [])
  {
  }

  lemma FailedOrder(v: Variant, w: Work, x: Tool)
    requires w.hook.None? && (v.ForeignOrder? || v.NonexistentOrder?) && x.call.status.CallFailed? && x.seen.None?
    ensures 4 <= |Order(v)| && Order(v)[..4] == [MESSAGE, RUN_STARTED, RU_STARTED, RU_MANIFEST]
    ensures NodeLabels(Order(v)[4..]) == WorkLabels(w, ToolLabels(x))
  {
  }

  lemma RejectedPlanOrder(w: Work, x: Tool)
    requires w.hook.None? && x.call.status.CallSucceeded? && x.seen.Some? && x.seen.value.plan.None?
    ensures 4 <= |Order(PresentationProtocolRejected)| && Order(PresentationProtocolRejected)[..4] == [MESSAGE, RUN_STARTED, RU_STARTED, RU_MANIFEST]
    ensures NodeLabels(Order(PresentationProtocolRejected)[4..]) == WorkLabels(w, ToolLabels(x))
  {
  }

  lemma SuccessOrder(w: Work, x: Tool)
    requires w.hook.None? && x.call.status.CallSucceeded? && x.seen.Some? && x.seen.value.plan.Some?
    ensures 4 <= |Order(SuccessPath)| && Order(SuccessPath)[..4] == [MESSAGE, RUN_STARTED, RU_STARTED, RU_MANIFEST]
    ensures NodeLabels(Order(SuccessPath)[4..]) == WorkLabels(w, ToolLabels(x))
  {
  }

  lemma CalledOrder(v: Variant, w: Work, x: Tool)
    requires w.hook.None?
    requires match v
             case ForeignOrder => x.call.status.CallFailed? && x.seen.None?
             case NonexistentOrder => x.call.status.CallFailed? && x.seen.None?
             case PresentationProtocolRejected => x.call.status.CallSucceeded? && x.seen.Some? && x.seen.value.plan.None?
             case SuccessPath => x.call.status.CallSucceeded? && x.seen.Some? && x.seen.value.plan.Some?
             case _ => false
    ensures 4 <= |Order(v)| && Order(v)[..4] == [MESSAGE, RUN_STARTED, RU_STARTED, RU_MANIFEST]
    ensures NodeLabels(Order(v)[4..]) == WorkLabels(w, ToolLabels(x))
  {
    hide Order, NodeLabels, WorkLabels, ToolLabels;
    match v
    case PresentationProtocolRejected => RejectedPlanOrder(w, x);
    case SuccessPath => SuccessOrder(w, x);
    case _ => FailedOrder(v, w, x);
  }

  lemma BareTurnIsExact(t: Turn, v: Variant, graded: TraceEvent)
    requires TurnOk(t) && t.work.None? && Takes(t, v) && graded.kind.EvalCaseGraded?
    ensures Follows(t.Trace() + [graded], v)
  {
    OpeningIsPlain(t);
    FrameKinds(t);
    TraceSplits(t, graded);
    BareOrder(v);
    hide TurnOk, Turn.Trace, Order, ExactlyOrdered, NodeLabels;
    assert Labels(Rest(t, graded)) == [Bare(ResponseRendered), Bare(RunStopped), Bare(EvalCaseGraded)];
    OpenedExactly(t.opening, Rest(t, graded), Order(v));
  }

  lemma WorkTurnIsExact(t: Turn, w: Work, v: Variant, graded: TraceEvent)
    requires TurnOk(t) && t.work == Some(w) && Takes(t, v) && graded.kind.EvalCaseGraded?
    ensures Follows(t.Trace() + [graded], v)
  {
    hide OpeningOk, EndOk, DecidedOk, MovesOk, GateOk, ToolOk, Creation, Commands.CreateGraphCommand.Valid, Turn.Trace, Order,
      ExactlyOrdered, NodeLabels, Work.ToolTrace, Rest, WorkLabels, ToolLabels, OpeningKinds;
    OpeningIsPlain(t);
    GateKind(t, w);
    TraceSplits(t, graded);
    var tool: seq<Label>;
    if w.tool.Some? {
      var x := w.tool.value;
      if x.seen.Some? { SeenKinds(t, w, x); }
      ToolTraceLabels(t, w, x);
      tool := ToolLabels(x);
      CalledOrder(v, w, x);
    } else {
      NoToolLabels(w);
      tool := [];
      RejectedOrder(v, w);
    }
    WorkRestLabels(t, w, graded, tool);
    OpenedExactly(t.opening, Rest(t, graded), Order(v));
  }

  lemma NoToolLabels(w: Work)
    requires w.tool.None?
    ensures w.ToolTrace() == [] && Labels([]) == []
  {
  }

  // ----- And only there -----

  lemma ExactRest(es: seq<TraceEvent>, rest: seq<TraceEvent>, c: seq<Node>)
    requires OpeningKinds(es) && (forall e :: e in rest ==> Safety(e.kind)) && 4 <= |c|
    requires c[..4] == [MESSAGE, RUN_STARTED, RU_STARTED, RU_MANIFEST]
    requires ExactlyOrdered(es + rest, c)
    ensures Labels(rest) == NodeLabels(c[4..])
  {
    ProjectionConcat(es, rest);
    SafeProjection(rest);
    OpeningProjection(es);
    hide Projection, StartInPlace;
    var w := WithoutStart(c);
    assert |w| == |c| - 1 && |Labels(rest)| == |c| - 4;
    forall i | 0 <= i < |rest| ensures Labels(rest)[i] == NodeLabels(c[4..])[i] {
      assert (([LabelOf(es[0]), LabelOf(es[1]), LabelOf(es[3])]) + Labels(rest))[i + 3] == NodeLabels(w)[i + 3];
      assert w[i + 3] == c[i + 4];
    }
  }

  lemma OrderOpens(v: Variant)
    ensures 4 <= |Order(v)| && Order(v)[..4] == [MESSAGE, RUN_STARTED, RU_STARTED, RU_MANIFEST]
  {
  }

  predicate LabelAt(ls: seq<Label>, i: nat, l: Label) { i < |ls| && ls[i] == l }

  // Where the orders of the variants part.
  lemma OrderTells(v: Variant)
    ensures 4 <= |Order(v)|
    ensures var ls := NodeLabels(Order(v)[4..]);
            && (LabelAt(ls, 0, Bare(ResponseRendered)) <==> v.ProviderProtocolBeforeCandidate? || v.InputValidationRejected?)
            && (LabelAt(ls, 6, Bare(TaskStateChanged)) <==> v.StaleStateRejected?)
            && (LabelAt(ls, 7, Bare(ResponseRendered)) <==> v.ArgumentBindingRejected? || v.UnknownToolRejected?)
  {
  }

  lemma CallOrderTells(v: Variant)
    ensures 4 <= |Order(v)|
    ensures var ls := NodeLabels(Order(v)[4..]);
            && (LabelAt(ls, 9, Bare(ToolCallFailed)) <==> v.ForeignOrder? || v.NonexistentOrder?)
            && (LabelAt(ls, 13, Bare(ResponseRendered)) <==> v.PresentationProtocolRejected?)
            && (LabelAt(ls, 13, Bare(PresentationPlanProposed)) <==> v.SuccessPath?)
  {
  }

  lemma WorkLabelsTell(w: Work, tool: seq<Label>)
    ensures !LabelAt(WorkLabels(w, tool), 0, Bare(ResponseRendered))
    ensures LabelAt(WorkLabels(w, tool), 6, Bare(TaskStateChanged)) <==> w.hook.Some?
    ensures w.hook.None? && tool == [] ==> LabelAt(WorkLabels(w, tool), 7, Bare(ResponseRendered))
    ensures w.hook.None? && tool != [] && tool[0] == Bare(ToolCallCreated) ==> !LabelAt(WorkLabels(w, tool), 7, Bare(ResponseRendered))
  {
  }

  lemma ToolLabelsTell(w: Work, x: Tool)
    requires w.hook.None?
    ensures var ls := WorkLabels(w, ToolLabels(x));
            && (LabelAt(ls, 9, Bare(ToolCallFailed)) ==> x.call.status.CallFailed?)
            && (LabelAt(ls, 13, Bare(ResponseRendered)) ==> x.seen.Some? && x.seen.value.plan.None?)
            && (LabelAt(ls, 13, Bare(PresentationPlanProposed)) ==> x.seen.Some? && x.seen.value.plan.Some?)
  {
  }

  // All labels after the opening, whatever the tool came to.
  lemma RestOfWork(t: Turn, w: Work, graded: TraceEvent) returns (tool: seq<Label>)
    requires t.work == Some(w) && TurnOk(t) && graded.kind.EvalCaseGraded?
    ensures tool == (if w.tool.Some? then ToolLabels(w.tool.value) else [])
    ensures Labels(Rest(t, graded)) == WorkLabels(w, tool) && forall e :: e in Rest(t, graded) ==> Safety(e.kind)
  {
    hide OpeningOk, EndOk, DecidedOk, MovesOk, GateOk, ToolOk, Creation, Commands.CreateGraphCommand.Valid, Turn.Trace, Work.ToolTrace,
      Rest, WorkLabels, ToolLabels;
    if w.tool.Some? {
      ToolTraceLabels(t, w, w.tool.value);
      tool := ToolLabels(w.tool.value);
    } else {
      NoToolLabels(w);
      tool := [];
    }
    WorkRestLabels(t, w, graded, tool);
  }

  lemma WorkOnItsPath(t: Turn, w: Work, v: Variant, graded: TraceEvent)
    requires TurnOk(t) && t.work == Some(w) && graded.kind.EvalCaseGraded?
    requires Follows(t.Trace() + [graded], v)
    ensures Takes(t, v)
  {
    hide OpeningOk, EndOk, DecidedOk, MovesOk, GateOk, ToolOk, Creation, Commands.CreateGraphCommand.Valid, Turn.Trace, Order,
      ExactlyOrdered, NodeLabels, Work.ToolTrace, Rest, WorkLabels, OpeningKinds, LabelAt;
    OpeningIsPlain(t);
    GateKind(t, w);
    TraceSplits(t, graded);
    OrderOpens(v);
    var tool := RestOfWork(t, w, graded);
    ExactRest(t.opening, Rest(t, graded), Order(v));
    OrderTells(v);
    CallOrderTells(v);
    WorkLabelsTell(w, tool);
    if w.hook.None? && w.tool.Some? {
      ToolLabelsTell(w, w.tool.value);
      if w.tool.value.seen.Some? { SeenKinds(t, w, w.tool.value); }
    }
  }

  lemma BareOnItsPath(t: Turn, v: Variant, graded: TraceEvent)
    requires TurnOk(t) && t.work.None? && graded.kind.EvalCaseGraded?
    requires Follows(t.Trace() + [graded], v)
    ensures Takes(t, v)
  {
    hide OpeningOk, EndOk, Turn.Trace, Order, ExactlyOrdered, NodeLabels, OpeningKinds;
    OpeningIsPlain(t);
    FrameKinds(t);
    TraceSplits(t, graded);
    OrderOpens(v);
    ExactRest(t.opening, Rest(t, graded), Order(v));
    OrderTells(v);
    assert LabelAt(Labels(Rest(t, graded)), 0, Bare(ResponseRendered));
  }

  // The trace of a finished turn, followed by EvalCaseGraded, passes both checks
  // for exactly the variants whose path the turn took.
  lemma TurnGradedExactly(t: Turn, v: Variant, graded: TraceEvent)
    requires TurnOk(t) && graded.kind.EvalCaseGraded?
    ensures Countable(Edges(v))
    ensures CardinalityVerdict(t.Trace() + [graded], v).Pass? && PrecedenceVerdict(t.Trace() + [graded], Edges(v)).Pass?
            <==> Takes(t, v)
  {
    hide TurnOk, Turn.Trace, Edges, Order, CardinalityVerdict, PrecedenceVerdict, Takes, ExactlyOrdered;
    GradedExactly(t.Trace() + [graded], v);
    match t.work
    case None =>
      if Takes(t, v) { BareTurnIsExact(t, v, graded); }
      if Follows(t.Trace() + [graded], v) { BareOnItsPath(t, v, graded); }
    case Some(w) =>
      if Takes(t, v) { WorkTurnIsExact(t, w, v, graded); }
      if Follows(t.Trace() + [graded], v) { WorkOnItsPath(t, w, v, graded); }
  }
}
