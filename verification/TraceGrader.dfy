// The trace checks of the evaluation count safety events and check precedence edges.  Together
// the two checks pin a trace of any length down to one sequence per variant.

module TraceGrader {
  import opened Records

  datatype Purpose = AnyPurpose | Understanding | Presentation

  function PurposeText(p: Purpose): Option<string> {
    match p
    case AnyPurpose => None
    case Understanding => Some("REQUEST_UNDERSTANDING")
    case Presentation => Some("PRESENTATION")
  }

  // The occurrence-th event of a type, and of a purpose where one is given.
  datatype Node = Node(kind: EventKind, occurrence: nat, purpose: Purpose)

  const MESSAGE := Node(MessageAccepted, 1, AnyPurpose)
  const RUN_STARTED := Node(RunStarted, 1, AnyPurpose)
  const RU_STARTED := Node(RequestUnderstandingStarted, 1, AnyPurpose)
  const RU_MANIFEST := Node(ContextManifestRecorded, 1, Understanding)
  const NEXT_MOVE := Node(NextMoveProposed, 1, AnyPurpose)
  const DELTA_VALIDATED := Node(TaskDeltaValidated, 1, AnyPurpose)
  const DELTA_ACCEPTED := Node(TaskDeltaAccepted, 1, AnyPurpose)
  const BINDING := Node(InputBindingRecorded, 1, AnyPurpose)
  const TASK_1 := Node(TaskStateChanged, 1, AnyPurpose)
  const TASK_2 := Node(TaskStateChanged, 2, AnyPurpose)
  const TASK_3 := Node(TaskStateChanged, 3, AnyPurpose)
  const REVALIDATED := Node(NextMoveRevalidated, 1, AnyPurpose)
  const GATE := Node(GateDecisionRecorded, 1, AnyPurpose)
  const TOOL_CREATED := Node(ToolCallCreated, 1, AnyPurpose)
  const TOOL_STARTED := Node(ToolCallStarted, 1, AnyPurpose)
  const TOOL_SUCCEEDED := Node(ToolCallSucceeded, 1, AnyPurpose)
  const TOOL_FAILED := Node(ToolCallFailed, 1, AnyPurpose)
  const NORMALIZED := Node(ToolResultNormalized, 1, AnyPurpose)
  const OBSERVATION := Node(ObservationRecorded, 1, AnyPurpose)
  const PRESENTATION_MANIFEST := Node(ContextManifestRecorded, 1, Presentation)
  const PRESENTATION_PLAN := Node(PresentationPlanProposed, 1, AnyPurpose)
  const RESPONSE := Node(ResponseRendered, 1, AnyPurpose)
  const RUN_STOPPED := Node(RunStopped, 1, AnyPurpose)
  const GRADED := Node(EvalCaseGraded, 1, AnyPurpose)

  datatype Variant =
    | SuccessPath | ForeignOrder | NonexistentOrder | ArgumentBindingRejected
    | ProviderProtocolBeforeCandidate | InputValidationRejected | UnknownToolRejected
    | StaleStateRejected | PresentationProtocolRejected

  type Edge = (Node, Node)

  const COMMON_EDGES: seq<Edge> := [(MESSAGE, RUN_STARTED), (RUN_STARTED, RU_STARTED), (RU_STARTED, RU_MANIFEST)]

  const UNGATED_EDGES: seq<Edge> := [
    (RU_MANIFEST, NEXT_MOVE), (NEXT_MOVE, DELTA_VALIDATED), (DELTA_VALIDATED, DELTA_ACCEPTED),
    (DELTA_ACCEPTED, BINDING), (BINDING, TASK_1), (TASK_1, REVALIDATED)]

  const CANDIDATE_EDGES: seq<Edge> := UNGATED_EDGES + [(REVALIDATED, GATE)]

  const TASKLESS_EDGES: seq<Edge> := [(RU_MANIFEST, RESPONSE), (RESPONSE, RUN_STOPPED), (RUN_STOPPED, GRADED)]

  const GATEWAY_EDGES: seq<Edge> := [
    (GATE, RESPONSE), (RESPONSE, TASK_2), (TASK_2, RUN_STOPPED), (RUN_STOPPED, GRADED)]

  const FAILED_TOOL_EDGES: seq<Edge> := [
    (GATE, TOOL_CREATED), (TOOL_CREATED, TOOL_STARTED), (TOOL_STARTED, TOOL_FAILED), (TOOL_FAILED, NORMALIZED),
    (NORMALIZED, RESPONSE), (RESPONSE, TASK_2), (TASK_2, RUN_STOPPED), (RUN_STOPPED, GRADED)]

  const SUCCESS_TOOL_EDGES: seq<Edge> := [
    (GATE, TOOL_CREATED), (TOOL_CREATED, TOOL_STARTED), (TOOL_STARTED, TOOL_SUCCEEDED),
    (TOOL_SUCCEEDED, NORMALIZED), (NORMALIZED, OBSERVATION), (OBSERVATION, PRESENTATION_MANIFEST)]

  function Edges(v: Variant): seq<Edge> {
    COMMON_EDGES +
    match v
    case SuccessPath =>
      CANDIDATE_EDGES + SUCCESS_TOOL_EDGES
      + [(PRESENTATION_MANIFEST, PRESENTATION_PLAN), (PRESENTATION_PLAN, RESPONSE), (RESPONSE, TASK_2),
         (TASK_2, RUN_STOPPED), (RUN_STOPPED, GRADED)]
    case ForeignOrder => CANDIDATE_EDGES + FAILED_TOOL_EDGES
    case NonexistentOrder => CANDIDATE_EDGES + FAILED_TOOL_EDGES
    case ArgumentBindingRejected => CANDIDATE_EDGES + GATEWAY_EDGES
    case ProviderProtocolBeforeCandidate => TASKLESS_EDGES
    case InputValidationRejected => TASKLESS_EDGES
    case UnknownToolRejected => CANDIDATE_EDGES + GATEWAY_EDGES
    case StaleStateRejected =>
      UNGATED_EDGES
      + [(REVALIDATED, TASK_2), (TASK_2, GATE), (GATE, RESPONSE), (RESPONSE, TASK_3), (TASK_3, RUN_STOPPED),
         (RUN_STOPPED, GRADED)]
    case PresentationProtocolRejected =>
      CANDIDATE_EDGES + SUCCESS_TOOL_EDGES
      + [(PRESENTATION_MANIFEST, RESPONSE), (OBSERVATION, RESPONSE), (RESPONSE, TASK_2), (TASK_2, RUN_STOPPED),
         (RUN_STOPPED, GRADED)]
  }

  // ----- Cardinality -----

  predicate Safety(kind: EventKind) { !kind.RequestUnderstandingStarted? }

  function Endpoints(edges: seq<Edge>): (r: seq<Node>)
    ensures forall n :: n in r <==> Safety(n.kind) && exists e :: e in edges && (n == e.0 || n == e.1)
  {
    if edges == [] then []
    else
      var e := edges[|edges| - 1];
      assert edges == edges[..|edges| - 1] + [e];
      Endpoints(edges[..|edges| - 1])
      + (if Safety(e.0.kind) then [e.0] else []) + if Safety(e.1.kind) then [e.1] else []
  }

  function MaxOccurrence(nodes: seq<Node>, kind: EventKind, purpose: Purpose): nat {
    if nodes == [] then 0
    else
      var n, rest := nodes[|nodes| - 1], MaxOccurrence(nodes[..|nodes| - 1], kind, purpose);
      if n.kind == kind && n.purpose == purpose && rest < n.occurrence then n.occurrence else rest
  }

  // The highest occurrence asked for, summed over purposes.
  function ExpectedCount(nodes: seq<Node>, kind: EventKind): nat {
    MaxOccurrence(nodes, kind, AnyPurpose) + MaxOccurrence(nodes, kind, Understanding)
    + MaxOccurrence(nodes, kind, Presentation)
  }

  function Lookup<K, V>(m: map<K, V>, k: K, default: V): V { if k in m then m[k] else default }

  // The loop that fills the counter, kind by kind and purpose by purpose.
  method ExpectedSafetyEventCounts(v: Variant) returns (counts: map<EventKind, nat>)
    ensures forall k :: Safety(k) ==> Lookup(counts, k, 0) == ExpectedCount(Endpoints(Edges(v)), k)
  {
    hide Edges, Endpoints, ExpectedCount;
    counts := CountNodes(Endpoints(Edges(v)));
  }

  method CountNodes(nodes: seq<Node>) returns (counts: map<EventKind, nat>)
    ensures forall k :: Lookup(counts, k, 0) == ExpectedCount(nodes, k)
  {
    var byPurpose: map<(EventKind, Purpose), nat>, kinds: set<EventKind> := map[], {};
    for i := 0 to |nodes|
      invariant forall k, p :: Lookup(byPurpose, (k, p), 0) == MaxOccurrence(nodes[..i], k, p)
      invariant forall k, p :: (k, p) in byPurpose ==> k in kinds
    {
      var n := nodes[i];
      MaxGrows(nodes, i);
      var seen := Lookup(byPurpose, (n.kind, n.purpose), 0);
      byPurpose := byPurpose[(n.kind, n.purpose) := if seen < n.occurrence then n.occurrence else seen];
      kinds := kinds + {n.kind};
      hide MaxOccurrence;
    }
    assert nodes[..|nodes|] == nodes;
    hide MaxOccurrence;
    counts := map k | k in kinds ::
      Lookup(byPurpose, (k, AnyPurpose), 0) + Lookup(byPurpose, (k, Understanding), 0)
      + Lookup(byPurpose, (k, Presentation), 0);
  }

  lemma MaxGrows(nodes: seq<Node>, i: nat)
    requires i < |nodes|
    ensures forall k, p ::
              MaxOccurrence(nodes[..i + 1], k, p)
              == var rest := MaxOccurrence(nodes[..i], k, p);
                 if nodes[i].kind == k && nodes[i].purpose == p && rest < nodes[i].occurrence
                 then nodes[i].occurrence else rest
  {
    assert nodes[..i + 1][..i] == nodes[..i];
  }

  function CountKind(events: seq<TraceEvent>, kind: EventKind): nat {
    if events == [] then 0
    else CountKind(events[..|events| - 1], kind) + if events[|events| - 1].kind == kind then 1 else 0
  }

  datatype Verdict = Pass | EventMissing | AssertionFailed

  function CardinalityVerdict(events: seq<TraceEvent>, v: Variant): Verdict {
    var nodes := Endpoints(Edges(v));
    if exists k :: Safety(k) && CountKind(events, k) < ExpectedCount(nodes, k) then EventMissing
    else if exists k :: Safety(k) && CountKind(events, k) > ExpectedCount(nodes, k) then AssertionFailed
    else Pass
  }

  // ----- Precedence -----

  predicate Matches(e: TraceEvent, n: Node) {
    e.kind == n.kind && (n.purpose.AnyPurpose? || e.purpose == PurposeText(n.purpose))
  }

  function Matching(events: seq<TraceEvent>, n: Node): (r: seq<nat>)
    ensures forall i :: i in r ==> i < |events|
  {
    if events == [] then []
    else
      var last := |events| - 1;
      var front := Matching(events[..last], n);
      if Matches(events[last], n) then front + [last] else front
  }

  function NodeIndex(events: seq<TraceEvent>, n: Node): Option<nat>
    requires 1 <= n.occurrence
  {
    var matches := Matching(events, n);
    if |matches| < n.occurrence then None else Some(matches[n.occurrence - 1])
  }

  predicate Countable(edges: seq<Edge>) { forall e :: e in edges ==> 1 <= e.0.occurrence && 1 <= e.1.occurrence }

  function PrecedenceVerdict(events: seq<TraceEvent>, edges: seq<Edge>): Verdict
    requires Countable(edges)
  {
    if edges == [] then Pass
    else
      assert edges[0] in edges && edges == [edges[0]] + edges[1..];
      var before, after := NodeIndex(events, edges[0].0), NodeIndex(events, edges[0].1);
      if before.None? || after.None? then EventMissing
      else if before.value >= after.value then AssertionFailed
      else PrecedenceVerdict(events, edges[1..])
  }

  predicate EdgeHolds(events: seq<TraceEvent>, e: Edge)
    requires 1 <= e.0.occurrence && 1 <= e.1.occurrence
  {
    var before, after := NodeIndex(events, e.0), NodeIndex(events, e.1);
    before.Some? && after.Some? && before.value < after.value
  }

  lemma {:induction false} PrecedencePasses(events: seq<TraceEvent>, edges: seq<Edge>)
    requires Countable(edges)
    ensures PrecedenceVerdict(events, edges).Pass? <==> forall e :: e in edges ==> EdgeHolds(events, e)
  {
    if edges != [] {
      assert edges[0] in edges && edges == [edges[0]] + edges[1..];
      PrecedencePasses(events, edges[1..]);
    }
  }

  // ----- The one sequence per variant -----

  const CANDIDATE_ORDER: seq<Node> := [
    MESSAGE, RUN_STARTED, RU_STARTED, RU_MANIFEST, NEXT_MOVE, DELTA_VALIDATED, DELTA_ACCEPTED, BINDING, TASK_1,
    REVALIDATED]

  function Order(v: Variant): seq<Node> {
    match v
    case SuccessPath =>
      CANDIDATE_ORDER
      + [GATE, TOOL_CREATED, TOOL_STARTED, TOOL_SUCCEEDED, NORMALIZED, OBSERVATION, PRESENTATION_MANIFEST,
         PRESENTATION_PLAN, RESPONSE, TASK_2, RUN_STOPPED, GRADED]
    case ForeignOrder =>
      CANDIDATE_ORDER
      + [GATE, TOOL_CREATED, TOOL_STARTED, TOOL_FAILED, NORMALIZED, RESPONSE, TASK_2, RUN_STOPPED, GRADED]
    case NonexistentOrder =>
      CANDIDATE_ORDER
      + [GATE, TOOL_CREATED, TOOL_STARTED, TOOL_FAILED, NORMALIZED, RESPONSE, TASK_2, RUN_STOPPED, GRADED]
    case ArgumentBindingRejected => CANDIDATE_ORDER + [GATE, RESPONSE, TASK_2, RUN_STOPPED, GRADED]
    case ProviderProtocolBeforeCandidate =>
      [MESSAGE, RUN_STARTED, RU_STARTED, RU_MANIFEST, RESPONSE, RUN_STOPPED, GRADED]
    case InputValidationRejected =>
      [MESSAGE, RUN_STARTED, RU_STARTED, RU_MANIFEST, RESPONSE, RUN_STOPPED, GRADED]
    case UnknownToolRejected => CANDIDATE_ORDER + [GATE, RESPONSE, TASK_2, RUN_STOPPED, GRADED]
    case StaleStateRejected => CANDIDATE_ORDER + [TASK_2, GATE, RESPONSE, TASK_3, RUN_STOPPED, GRADED]
    case PresentationProtocolRejected =>
      CANDIDATE_ORDER
      + [GATE, TOOL_CREATED, TOOL_STARTED, TOOL_SUCCEEDED, NORMALIZED, OBSERVATION, PRESENTATION_MANIFEST,
         RESPONSE, TASK_2, RUN_STOPPED, GRADED]
  }

  // What a trace check can see of an event: its type, and the purpose of a manifest.
  type Label = (EventKind, Option<string>)

  function LabelOf(e: TraceEvent): Label { (e.kind, if e.kind.ContextManifestRecorded? then e.purpose else None) }

  function NodeLabel(n: Node): Label { (n.kind, PurposeText(n.purpose)) }

  function NodeLabels(c: seq<Node>): (r: seq<Label>)
    ensures |r| == |c| && forall i :: 0 <= i < |c| ==> r[i] == NodeLabel(c[i])
  {
    seq(|c|, i requires 0 <= i < |c| => NodeLabel(c[i]))
  }

  // The positions of the safety events, and their labels.
  function Spots(events: seq<TraceEvent>): seq<nat> {
    if events == [] then []
    else
      var last := |events| - 1;
      var front := Spots(events[..last]);
      if Safety(events[last].kind) then front + [last] else front
  }

  function Projection(events: seq<TraceEvent>): seq<Label> {
    if events == [] then []
    else
      var last := |events| - 1;
      var front := Projection(events[..last]);
      if Safety(events[last].kind) then front + [LabelOf(events[last])] else front
  }

  function WithoutStart(c: seq<Node>): seq<Node>
    requires 3 <= |c|
  {
    c[..2] + c[3..]
  }

  // The first RequestUnderstandingStarted lies between RunStarted and the understanding manifest.
  predicate StartInPlace(events: seq<TraceEvent>) {
    var first, spots := NodeIndex(events, RU_STARTED), Spots(events);
    3 <= |spots| && first.Some? && spots[1] < first.value < spots[2]
  }
}
